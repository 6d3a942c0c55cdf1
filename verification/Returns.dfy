/** What comes back later than its own retraction, or without ever having had a row. */
module Returns {
  import opened Wrappers
  import opened Text
  import opened MessageTable
  import opened Bridge
  import opened Protocol
  import opened Ledger
  import opened Runs
  import opened Delivery
  import opened Guarantees
  import opened Liveness
  import opened Overlaps
  import Puppet

  // ----- Echoes of messages with a row -----

  /**
   * In a good run nothing at all is put into Matrix for a Feishu message that the bridge made for a Matrix event and
   * recorded, as long as no row of it is deleted: its echo may come at any time and any number of times.
   */
  lemma {:induction false} LinkedEchoIsSilent(opts: Options, self: Puppet.Identity, chatOf: string -> string,
                                              steps: seq<Step>, m: string)
    requires GoodRun(opts, self, chatOf, steps)
    ensures Count(Exec(opts, steps).history, Linked, m) >= 1 && Count(Exec(opts, steps).history, Unmapped, m) == 0 ==>
              !Sourced(Exec(opts, steps).history, m)
  {
    hide GoodRun, Exec, Count, Sourced, HasFeishu;
    AtMostOnce(opts, self, chatOf, steps, |steps|, m);
    assert steps[..0] == [];
    EmptyRun(opts);
    CountNone(INIT.history, Delivered, m);
    var history := Exec(opts, steps).history;
    if Count(history, Linked, m) >= 1 && Count(history, Unmapped, m) == 0 {
      NothingNewSourced(opts, steps, 0, m);
      assert history[0..] == history;
    }
  }

  // ----- Late recalls -----

  /**
   * A recall that comes late is silent: from a point where a message is not mapped, it redacts nothing as long as the
   * message is not delivered anew, in any run and whatever the world answers.
   */
  lemma {:induction false} LateRecallIsSilent(opts: Options, steps: seq<Step>, k: nat, m: string, env: RecallEnv)
    requires k <= |steps|
    ensures !HasFeishu(Exec(opts, steps[..k]).table, m)
            && Deliveries(Exec(opts, steps), m) == Deliveries(Exec(opts, steps[..k]), m) ==>
              !HasFeishu(Exec(opts, steps).table, m) && HandleRecalled(Exec(opts, steps).table, m, env).effects == []
  {
    hide Exec, Count, HasFeishu;
    LedgerOfEveryRun(opts, steps, m);
    LedgerOfEveryRun(opts, steps[..k], m);
    CountGrows(opts, steps, k, Unmapped, m);
    CountGrows(opts, steps, k, Unrecorded, m);
  }

  // ----- Good runs, extended -----

  lemma {:induction false} GoodSnoc(opts: Options, self: Puppet.Identity, chatOf: string -> string, steps: seq<Step>,
                                    step: Step)
    requires GoodRun(opts, self, chatOf, steps) && MapsToPuppets(self, step)
    requires GoodStep(Exec(opts, steps), opts, chatOf, step)
    ensures GoodRun(opts, self, chatOf, steps + [step])
    ensures Exec(opts, steps + [step]) == Next(Exec(opts, steps), opts, step)
  {
    hide Exec, Next, GoodStep, MapsToPuppets, Configured;
    var all := steps + [step];
    assert all[..|steps|] == steps;
    ExecStep(opts, all, |steps|);
    assert all[..|steps| + 1] == all;
    forall k | 0 <= k < |all|
      ensures GoodStep(Exec(opts, all[..k]), opts, chatOf, all[k])
    {
      if k < |steps| {
        assert all[..k] == steps[..k];
      }
    }
  }

  /** The world lets the message through, as the bot's and under event ids never seen. */
  predicate LetsThrough(s: State, bot: string, msg: Message, env: MessageEnv) {
    && env.mapped == None && env.insertOk
    && Prepare(bot, msg, env).Some?
    && MatrixEvents(bot, msg, env) != []
    && forall e | e in MatrixEvents(bot, msg, env) :: e !in s.matrixIds
  }

  lemma {:induction false} FreshCanDeliver(opts: Options, self: Puppet.Identity, chatOf: string -> string,
                                           steps: seq<Step>, msg: Message,
                                          env: MessageEnv)
    requires GoodRun(opts, self, chatOf, steps) && LetsThrough(Exec(opts, steps), opts.bot, msg, env)
    ensures CanDeliver(Exec(opts, steps).table, opts.bot, msg, env)
  {
    hide GoodRun, Exec, Prepare, MatrixEvents, EventsKnown, Quiet, MappedSettled, SendersOwn, Outcomes.LosesRow, Sound;
    InvariantInRuns(opts, self, chatOf, steps);
    assert RowsKnown(Exec(opts, steps));
    var e := MatrixEvents(opts.bot, msg, env)[0];
    assert e in MatrixEvents(opts.bot, msg, env);
  }

  lemma NoRunsNoLocks(s: State, chat: string)
    requires s.runs == map[]
    ensures LockFree(s, chat)
  {
  }

  lemma {:induction false} FinishIsGood(s: State, opts: Options, chatOf: string -> string, task: nat, ev: Event,
                                        env: HandlerEnv, now: int)
    requires Valid(s.table) && s.runs == map[Task(task) := Run(ev, Proceed)] && ev.body.Receive?
    requires LetsThrough(s, opts.bot, ev.body.msg, env.message)
    ensures var step := FinishStep(task, env, true, true, "", now);
            && GoodStep(s, opts, chatOf, step)
            && (forall id | id in Next(s, opts, step).matrixIds ::
                  id in s.matrixIds || id in MatrixEvents(opts.bot, ev.body.msg, env.message))
  {
    hide Next, Complete, Prepare, MatrixEvents, MatrixIdsOf;
    DeliveredIds(s.table, opts, ev, env);
    EndIds(s, opts, FinishStep(task, env, true, true, "", now), Task(task));
  }

  /** Handling an accepted message goes on with a good run, and delivers. */
  lemma {:induction false} HandlingGoesOn(opts: Options, self: Puppet.Identity, chatOf: string -> string,
                                          steps: seq<Step>, ev: Event,
                                         env: HandlerEnv, now: int)
    requires GoodRun(opts, self, chatOf, steps) && Exec(opts, steps).runs == map[]
    requires ev.body.Receive? && ev.body.msg.chat == chatOf(ev.body.msg.id)
    requires Dispatch(Exec(opts, steps), ev, true) == Accepted && !HasFeishu(Exec(opts, steps).table, ev.body.msg.id)
    requires LetsThrough(Exec(opts, steps), opts.bot, ev.body.msg, env.message)
    ensures var s := Exec(opts, steps);
            var all := steps + Handling(ev, |s.accepted|, env, now);
            var events := MatrixEvents(opts.bot, ev.body.msg, env.message);
            && GoodRun(opts, self, chatOf, all)
            && Exec(opts, all).runs == map[]
            && Links(Exec(opts, all).table, events[0], ev.body.msg.id)
            && Exec(opts, all).accepted == s.accepted + [ev]
            && Exec(opts, all).history == s.history + MatrixMessages(events, Prepare(opts.bot, ev.body.msg, env.message).value,
                                                                     ev.body.msg.id, ReplyTarget(s.table, ev.body.msg.parent))
            && (forall id | id in Exec(opts, all).matrixIds :: id in s.matrixIds || id in events)
  {
    hide GoodRun, GoodStep, Exec, Next, Prepare, MatrixEvents, MatrixMessages, ReplyTarget, HasFeishu, Links, FiledUnder, Dispatch, LockFree,
      Configured, CanDeliver, TasksCounted, OneTaskPerChat, TasksNumbered, LetsThrough, Chat, Begin;
    var s := Exec(opts, steps);
    var task := |s.accepted|;
    var more := Handling(ev, task, env, now);
    NoRunsNoLocks(s, Chat(ev));
    AcceptedEventsConserved(opts, steps);
    FreshCanDeliver(opts, self, chatOf, steps, ev.body.msg, env.message);
    AcceptedMessageArrives(opts, steps, ev, env, now);
    SomeEvents(s, opts.bot, ev.body.msg, env.message);
    FiledMeansMapped(Exec(opts, steps + more).table, MatrixEvents(opts.bot, ev.body.msg, env.message)[0], ev.body.msg.id,
                     env.message.room);
    FreshProceeds(s.table, ev);
    Handled(s, opts, ev, env, now);
    var queued := Next(s, opts, more[0]);
    var started := Next(queued, opts, more[1]);
    IdleStepsAreGood(s, queued, opts, chatOf, ev, task);
    SameThrough(s, started, opts.bot, ev.body.msg, env.message);
    GoodSnoc(opts, self, chatOf, steps, more[0]);
    GoodSnoc(opts, self, chatOf, steps + [more[0]], more[1]);
    FinishIsGood(started, opts, chatOf, task, ev, env, now);
    NoSender(self, env, task, now);
    LetsThroughMapsNone(s, opts.bot, ev.body.msg, env.message);
    GoodSnoc(opts, self, chatOf, steps + [more[0]] + [more[1]], more[2]);
    assert steps + [more[0]] + [more[1]] + [more[2]] == steps + more;
    EndRuns(started, opts, more[2], Task(task));
    assert started.runs - {Task(task)} == map[];
  }

  lemma IdleStepsAreGood(s: State, queued: State, opts: Options, chatOf: string -> string, ev: Event, task: nat)
    requires Valid(s.table) && Valid(queued.table) && queued.runs == map[]
    requires ev.body.Receive? && ev.body.msg.chat == chatOf(ev.body.msg.id)
    ensures GoodStep(s, opts, chatOf, DispatchStep(ev, true)) && GoodStep(queued, opts, chatOf, StartStep(task, true))
  {
  }

  lemma SameThrough(s: State, s': State, bot: string, msg: Message, env: MessageEnv)
    requires LetsThrough(s, bot, msg, env) && s'.matrixIds == s.matrixIds
    ensures LetsThrough(s', bot, msg, env)
  {
  }

  lemma LetsThroughMapsNone(s: State, bot: string, msg: Message, env: MessageEnv)
    requires LetsThrough(s, bot, msg, env)
    ensures env.mapped == None
  {
  }

  lemma NoSender(self: Puppet.Identity, env: HandlerEnv, task: nat, now: int)
    ensures env.message.mapped == None ==> MapsToPuppets(self, FinishStep(task, env, true, true, "", now))
  {
  }

  // ----- An echo without a row -----

  /** A Matrix message whose text cannot be sent, so that a notice goes to Feishu instead. */
  predicate EndsInNotice(opts: Options, ev: MatrixEvent, env: MatrixEnv, notice: string) {
    && ev.kind.MessageEvent? && !opts.own(ev.sender) && (ev.id.Some? ==> !(FEISHU_PREFIX <= ev.id.value))
    && env.processedRead && env.hashRead && env.plan.Forward? && env.plan.out.editOf.None?
    && !IsBlank(env.plan.out.content) && env.textSend.None?
    && opts.degrade && !IsBlank(opts.noticeTemplate) && env.notice == Some(notice)
    && env.insertOk && env.markOk
  }

  lemma {:induction false} NoticeSent(opts: Options, self: Puppet.Identity, chatOf: string -> string,
                                      ev: MatrixEvent, env: MatrixEnv, notice: string)
    requires Configured(opts, self) && EndsInNotice(opts, ev, env, notice)
    ensures GoodRun(opts, self, chatOf, [MatrixStep(ev, env)])
    ensures var s := Exec(opts, [MatrixStep(ev, env)]);
            && s.runs == map[] && s.table == EMPTY && s.history == [FeishuMessage(notice, None, false, None)]
            && s.matrixIds == (if ev.id.Some? then {ev.id.value} else {})
            && s.processed == (if ev.id.Some? then {ev.id.value} else {})
  {
    hide Configured, Exec, GoodRun, MatrixIdsOf, FeishuIdsOf, IsBlank;
    var step := MatrixStep(ev, env);
    EmptyRun(opts);
    var o := Degraded(EMPTY, opts, env);
    assert HandleMatrixKind(EMPTY, opts, ev, env) == o == Outcome(EMPTY, [FeishuMessage(notice, None, false, None)], true);
    NoMatrixId(notice);
    NothingInMatrix(opts, chatOf, step);
    EmptyIsGood(opts, self, chatOf);
    GoodSnoc(opts, self, chatOf, [], step);
    assert [] + [step] == [step];
  }

  lemma EmptyIsGood(opts: Options, self: Puppet.Identity, chatOf: string -> string)
    requires Configured(opts, self)
    ensures GoodRun(opts, self, chatOf, [])
  {
  }

  lemma NoMatrixId(notice: string)
    ensures MatrixIdsOf([FeishuMessage(notice, None, false, None)]) == {}
  {
  }

  lemma NothingInMatrix(opts: Options, chatOf: string -> string, step: Step)
    requires step.MatrixStep? && StoreWorks(step) && (step.matrix.id.Some? ==> !(FEISHU_PREFIX <= step.matrix.id.value))
    ensures Valid(INIT.table) && GoodStep(INIT, opts, chatOf, step)
  {
    hide StepOutcome, FeishuIdsOf;
  }

  /**
   * A message without a row has no protection: in this good run the notice of a failed forward, sent to Feishu and
   * never recorded, comes back and is put into Matrix.
   */
  lemma {:induction false} NoticeEchoIsDelivered(opts: Options, self: Puppet.Identity, chatOf: string -> string,
                                                 matrix: MatrixEvent,
                                                matrixEnv: MatrixEnv, ev: Event, env: HandlerEnv, now: int)
    requires Configured(opts, self) && ev.body.Receive? && ev.body.msg.chat == chatOf(ev.body.msg.id)
    requires EndsInNotice(opts, matrix, matrixEnv, ev.body.msg.id) && Dispatchable(ev)
    requires env.message.mapped == None && CanDeliver(EMPTY, opts.bot, ev.body.msg, env.message)
    requires matrix.id.Some? ==> matrix.id.value !in MatrixEvents(opts.bot, ev.body.msg, env.message)
    ensures var steps := [MatrixStep(matrix, matrixEnv)] + Handling(ev, 0, env, now);
            && GoodRun(opts, self, chatOf, steps)
            && FeishuMessage(ev.body.msg.id, None, false, None) in Exec(opts, steps).history
            && Sourced(Exec(opts, steps).history, ev.body.msg.id)
  {
    hide Configured, GoodRun, Exec, Prepare, MatrixEvents, Dispatchable, EndsInNotice, Sourced;
    var first := [MatrixStep(matrix, matrixEnv)];
    NoticeSent(opts, self, chatOf, matrix, matrixEnv, ev.body.msg.id);
    var s := Exec(opts, first);
    NoticeAccepted(opts, s, matrix, matrixEnv, ev);
    NoneAccepted(opts, matrix, matrixEnv);
    HandlingGoesOn(opts, self, chatOf, first, ev, env, now);
    var all := first + Handling(ev, 0, env, now);
    var events := MatrixEvents(opts.bot, ev.body.msg, env.message);
    assert Exec(opts, all).history[0] == FeishuMessage(ev.body.msg.id, None, false, None);
    assert Exec(opts, all).history[1].MatrixMessage? && Exec(opts, all).history[1].source == Some(ev.body.msg.id);
    IsSourced(Exec(opts, all).history, 1, ev.body.msg.id);
  }

  lemma IsSourced(effects: seq<Effect>, k: nat, m: string)
    requires k < |effects| && effects[k].MatrixMessage? && effects[k].source == Some(m)
    ensures Sourced(effects, m)
  {
  }

  lemma NoticeAccepted(opts: Options, s: State, matrix: MatrixEvent, matrixEnv: MatrixEnv, ev: Event)
    requires Dispatchable(ev) && ev.body.Receive? && EndsInNotice(opts, matrix, matrixEnv, ev.body.msg.id)
    requires s.processed == (if matrix.id.Some? then {matrix.id.value} else {})
    ensures Dispatch(s, ev, true) == Accepted
  {
    hide Dispatchable;
  }

  lemma NoneAccepted(opts: Options, matrix: MatrixEvent, matrixEnv: MatrixEnv)
    ensures Exec(opts, [MatrixStep(matrix, matrixEnv)]).accepted == []
  {
    hide HandleMatrixKind;
    var steps := [MatrixStep(matrix, matrixEnv)];
    assert steps[..0] == [];
    assert Exec(opts, steps) == Next(INIT, opts, steps[0]);
  }

  // ----- A recall later than a redelivery -----

  /** A redaction that is carried out and stored. */
  predicate Redacts(opts: Options, red: MatrixEvent, env: MatrixEnv, event: string) {
    && red.kind == RedactionEvent(Some(event)) && red.id.None? && opts.redactions
    && env.targetRead && env.remoteOk && env.deleteOk && env.insertOk && env.markOk
  }

  lemma {:induction false} RedactionGoesOn(opts: Options, self: Puppet.Identity, chatOf: string -> string,
                                           steps: seq<Step>, red: MatrixEvent,
                                          env: MatrixEnv, m: string, event: string)
    requires GoodRun(opts, self, chatOf, steps) && Redacts(opts, red, env, event)
    requires Links(Exec(opts, steps).table, event, m)
    ensures var all := steps + [MatrixStep(red, env)]; var s, s' := Exec(opts, steps), Exec(opts, all);
            && GoodRun(opts, self, chatOf, all)
            && s'.runs == s.runs && s'.accepted == s.accepted && s'.processed == s.processed && s'.matrixIds == s.matrixIds
            && !HasFeishu(s'.table, m)
  {
    hide GoodRun, Exec, Configured, MatrixIdsOf, FeishuIdsOf, HasMatrix, HasFeishu, Links;
    var s := Exec(opts, steps);
    LinkFound(s.table, event, m);
    var i := FindMatrix(s.table, event).value;
    var effects := [FeishuRecall(m), RowDeleted(m)];
    assert HandleMatrixKind(s.table, opts, red, env) == Outcome(Delete(s.table, i), effects, true);
    NoIdsIn(m);
    DeleteUnmaps(s.table, i, m);
    GoodSnoc(opts, self, chatOf, steps, MatrixStep(red, env));
  }

  lemma NoIdsIn(m: string)
    ensures MatrixIdsOf([FeishuRecall(m), RowDeleted(m)]) == {} && FeishuIdsOf([FeishuRecall(m), RowDeleted(m)]) == {}
  {
  }

  /** Delivered, redacted in Matrix, and delivered again when its receive event comes late. */
  function Redelivery(ev: Event, env: HandlerEnv, red: MatrixEvent, redEnv: MatrixEnv, other: HandlerEnv,
                      now: int): seq<Step> {
    Handling(ev, 0, env, now) + [MatrixStep(red, redEnv)] + Handling(ev, 1, other, now)
  }

  lemma {:induction false} DeliversFirst(opts: Options, self: Puppet.Identity, chatOf: string -> string, ev: Event,
                                         env: HandlerEnv, now: int)
    requires Configured(opts, self) && Dispatchable(ev) && ev.body.Receive? && ev.body.msg.chat == chatOf(ev.body.msg.id)
    requires LetsThrough(INIT, opts.bot, ev.body.msg, env.message)
    ensures var s := Exec(opts, Handling(ev, 0, env, now));
            var events := MatrixEvents(opts.bot, ev.body.msg, env.message);
            && GoodRun(opts, self, chatOf, Handling(ev, 0, env, now))
            && s.runs == map[] && s.accepted == [ev] && Links(s.table, events[0], ev.body.msg.id)
            && forall id | id in s.matrixIds :: id in events
  {
    hide Configured, GoodRun, Exec, Prepare, MatrixEvents, Dispatchable, Links, LockFree, LetsThrough, Dispatch, HasFeishu;
    EmptyIsGood(opts, self, chatOf);
    StartIsEmpty(opts, ev);
    HandlingGoesOn(opts, self, chatOf, [], ev, env, now);
    assert [] + Handling(ev, 0, env, now) == Handling(ev, 0, env, now);
    assert INIT.accepted + [ev] == [ev];
  }

  /**
   * A recall that comes after a redelivery retracts again: in this good run a message is delivered, redacted in Matrix,
   * which deletes its row, and delivered anew by a late receive event; its late recall then redacts the new event.
   */
  lemma {:induction false} LateRecallRetractsAnew(opts: Options, self: Puppet.Identity, chatOf: string -> string,
                                                  ev: Event, env: HandlerEnv,
                                                 red: MatrixEvent, redEnv: MatrixEnv, other: HandlerEnv, recall: RecallEnv, now: int)
    requires Configured(opts, self) && Dispatchable(ev) && ev.id.None?
    requires ev.body.Receive? && ev.body.msg.chat == chatOf(ev.body.msg.id)
    requires LetsThrough(INIT, opts.bot, ev.body.msg, env.message) && LetsThrough(INIT, opts.bot, ev.body.msg, other.message)
    requires Distinct(opts, ev, env, other) && recall.lookupRead && recall.redactOk
    requires Redacts(opts, red, redEnv, MatrixEvents(opts.bot, ev.body.msg, env.message)[0])
    ensures var steps := Redelivery(ev, env, red, redEnv, other, now);
            var anew := MatrixEvents(opts.bot, ev.body.msg, other.message)[0];
            && GoodRun(opts, self, chatOf, steps)
            && !HasFeishu(Exec(opts, steps[..4]).table, ev.body.msg.id)
            && MatrixRedaction(anew) in HandleRecalled(Exec(opts, steps).table, ev.body.msg.id, recall).effects
  {
    hide Configured, GoodRun, Exec, Prepare, MatrixEvents, Dispatchable, Links, LockFree, LetsThrough, HasFeishu, HasMatrix,
      Redacts, MatrixMessages;
    var m := ev.body.msg.id;
    var events := MatrixEvents(opts.bot, ev.body.msg, env.message);
    var first := Handling(ev, 0, env, now);
    var second := first + [MatrixStep(red, redEnv)];
    var steps := Redelivery(ev, env, red, redEnv, other, now);
    assert events != [] by {
      SomeEvents(INIT, opts.bot, ev.body.msg, env.message);
    }
    DeliversFirst(opts, self, chatOf, ev, env, now);
    RedactionGoesOn(opts, self, chatOf, first, red, redEnv, m, events[0]);
    StillThrough(Exec(opts, second), opts, ev, env, other);
    HandlingGoesOn(opts, self, chatOf, second, ev, other, now);
    assert steps == second + Handling(ev, 1, other, now) && steps[..4] == second;
    var anew := MatrixEvents(opts.bot, ev.body.msg, other.message)[0];
    LinkFound(Exec(opts, steps).table, anew, m);
    var o := HandleRecalled(Exec(opts, steps).table, m, recall);
    assert o.effects[0] == MatrixRedaction(anew);
  }

  lemma SomeEvents(s: State, bot: string, msg: Message, env: MessageEnv)
    requires LetsThrough(s, bot, msg, env)
    ensures Prepare(bot, msg, env).Some? && MatrixEvents(bot, msg, env) != []
  {
  }

  lemma StillThrough(s: State, opts: Options, ev: Event, env: HandlerEnv, other: HandlerEnv)
    requires Distinct(opts, ev, env, other) && LetsThrough(INIT, opts.bot, ev.body.msg, other.message)
    requires forall id | id in s.matrixIds :: id in MatrixEvents(opts.bot, ev.body.msg, env.message)
    ensures LetsThrough(s, opts.bot, ev.body.msg, other.message)
  {
  }
}
