/** Messages do arrive: the guarantees of `Guarantees` are not met by a bridge that does nothing. */
module Liveness {
  import opened Wrappers
  import opened MessageTable
  import opened Bridge
  import opened Protocol
  import opened Ledger
  import opened Outcomes
  import opened Runs
  import opened Guarantees
  import Puppet

  /** The three steps by which an accepted event is handled, as task `task`, in a world without failures. */
  function Handling(ev: Event, task: nat, env: HandlerEnv, now: int): seq<Step> {
    [DispatchStep(ev, true), StartStep(task, true), FinishStep(task, env, true, true, "", now)]
  }

  predicate CanDeliver(t: Table, bot: string, msg: Message, env: MessageEnv) {
    && env.insertOk
    && Prepare(bot, msg, env).Some?
    && MatrixEvents(bot, msg, env) != []
    && !HasMatrix(t, MatrixEvents(bot, msg, env)[0])
  }

  lemma FreshProceeds(t: Table, ev: Event)
    requires ev.body.Receive? && !HasFeishu(t, ev.body.msg.id)
    ensures Begin(t, ev, true) == Proceed
  {
  }

  lemma Handled(s: State, opts: Options, ev: Event, env: HandlerEnv, now: int)
    requires Valid(s.table) && TasksNumbered(s) && LockFree(s, Chat(ev)) && Dispatch(s, ev, true) == Accepted
    requires Begin(s.table, ev, true) == Proceed
    ensures var steps := Handling(ev, |s.accepted|, env, now);
            var queued := Next(s, opts, steps[0]);
            var started := Next(queued, opts, steps[1]);
            && started.runs == s.runs[Task(|s.accepted|) := Run(ev, Proceed)]
            && queued.table == started.table == s.table && queued.runs == s.runs
            && started.accepted == s.accepted + [ev]
            && started.processed == s.processed && started.history == s.history
            && started.matrixIds == s.matrixIds && started.succeeded == s.succeeded
  {
    hide Begin, Dispatchable, Valid;
    var queued := Next(s, opts, DispatchStep(ev, true));
    assert queued == Enqueued(s, ev);
    assert |s.accepted| !in s.queued && Task(|s.accepted|) !in s.runs;
    assert queued.runs == s.runs;
    assert Begin(queued.table, ev, true) == Proceed;
  }

  lemma Finishes(s: State, opts: Options, task: nat, env: HandlerEnv, now: int)
    requires Valid(s.table) && Task(task) in s.runs && s.runs[Task(task)].phase == Proceed
    requires s.runs[Task(task)].ev.body.Receive? && !HasFeishu(s.table, s.runs[Task(task)].ev.body.msg.id)
    requires CanDeliver(s.table, opts.bot, s.runs[Task(task)].ev.body.msg, env.message)
    ensures var ev := s.runs[Task(task)].ev;
            var events := MatrixEvents(opts.bot, ev.body.msg, env.message);
            var after := Next(s, opts, FinishStep(task, env, true, true, "", now));
            && FiledUnder(after.table, events[0], ev.body.msg.id, env.message.room) && after.accepted == s.accepted
            && after.history == s.history + MatrixMessages(events, Prepare(opts.bot, ev.body.msg, env.message).value,
                                                           ev.body.msg.id, ReplyTarget(s.table, ev.body.msg.parent))
            && after.succeeded == s.succeeded + [ev] && after.runs == s.runs - {Task(task)}
            && (ev.id.Some? ==> FEISHU_PREFIX + ev.id.value in after.processed)
  {
    hide Prepare, MatrixEvents, HasFeishu, HasMatrix, MatrixMessages, ReplyTarget, Key, FiledUnder;
    var ev := s.runs[Task(task)].ev;
    var msg := ev.body.msg;
    var events := MatrixEvents(opts.bot, msg, env.message);
    var sends := MatrixMessages(events, Prepare(opts.bot, msg, env.message).value, msg.id, ReplyTarget(s.table, msg.parent));
    var row := Row(events[0], msg.id, env.message.room, None);
    assert Deliver(s.table, opts.bot, msg, env.message) == Recorded(s.table, sends, row, true);
    InsertMaps(s.table, row, true, msg.id);
    RowInserted(s.table, row);
    assert sends + [] == sends;
  }

  lemma FiledMeansMapped(t: Table, event: string, message: string, room: string)
    requires FiledUnder(t, event, message, room)
    ensures HasMatrix(t, event) && HasFeishu(t, message) && Links(t, event, message)
  {
  }

  lemma RowInserted(t: Table, row: Row)
    ensures Insert(t, row, true).1 ==> FiledUnder(Insert(t, row, true).0, row.matrixEvent, row.feishuMessage, row.room)
  {
    if Insert(t, row, true).1 {
      assert Insert(t, row, true).0.rows[t.nextId] == row;
    }
  }

  /**
   * An accepted message arrives: in every state a run can reach, if the chat is free and the message not mapped,
   * handling it in a world without failures puts its text and attachments into Matrix, in order, maps it to the
   * first of these events, and marks the Feishu event as processed.
   */
  lemma {:induction false} AcceptedMessageArrives(opts: Options, steps: seq<Step>, ev: Event, env: HandlerEnv, now: int)
    requires var s := Exec(opts, steps);
             && LockFree(s, Chat(ev)) && Dispatch(s, ev, true) == Accepted
             && ev.body.Receive? && !HasFeishu(s.table, ev.body.msg.id)
             && CanDeliver(s.table, opts.bot, ev.body.msg, env.message)
    ensures var s := Exec(opts, steps);
            var events := MatrixEvents(opts.bot, ev.body.msg, env.message);
            var after := Exec(opts, steps + Handling(ev, |s.accepted|, env, now));
            && FiledUnder(after.table, events[0], ev.body.msg.id, env.message.room)
            && after.accepted == s.accepted + [ev] && after.runs == s.runs
            && after.history == s.history + MatrixMessages(events, Prepare(opts.bot, ev.body.msg, env.message).value,
                                                           ev.body.msg.id, ReplyTarget(s.table, ev.body.msg.parent))
            && after.succeeded == s.succeeded + [ev]
            && (ev.id.Some? ==> FEISHU_PREFIX + ev.id.value in after.processed)
  {
    hide Exec, Next, CanDeliver, HasFeishu, HasMatrix, FiledUnder, MatrixEvents, Prepare, ReplyTarget, MatrixMessages, Dispatch, LockFree, Begin;
    var s := Exec(opts, steps);
    AcceptedEventsConserved(opts, steps);
    FreshProceeds(s.table, ev);
    ExecThree(opts, steps, Handling(ev, |s.accepted|, env, now));
    Handled(s, opts, ev, env, now);
    var started := Next(Next(s, opts, DispatchStep(ev, true)), opts, StartStep(|s.accepted|, true));
    Finishes(started, opts, |s.accepted|, env, now);
    assert s.runs[Task(|s.accepted|) := Run(ev, Proceed)] - {Task(|s.accepted|)} == s.runs;
  }

  /** A disbanded room takes its messages with it. */
  lemma DisbandUnmaps(t: Table, bot: string, env: ChatEnv, event: string, message: string)
    requires Valid(t) && env.lookup.Room? && env.listRead && env.failing == {}
    requires FiledUnder(t, event, message, env.lookup.room)
    requires |RoomRows(t, env.lookup.room, t.nextId)| <= DISBAND_LIMIT
    ensures !HasFeishu(HandleDisbanded(t, bot, env).table, message)
  {
    hide HandleDisbanded;
    var room := env.lookup.room;
    var t' := HandleDisbanded(t, bot, env).table;
    DisbandClearsRoom(t, bot, env);
    DisbandedRows(t, bot, env);
    var i :| i in t.rows && t.rows[i].matrixEvent == event && t.rows[i].feishuMessage == message && t.rows[i].room == room;
    assert i in t'.rows ==> i in RoomRows(t', room, t.nextId);
  }

  lemma DisbandFinishes(s: State, opts: Options, task: nat, env: HandlerEnv, now: int, event: string, message: string)
    requires Valid(s.table) && Task(task) in s.runs && s.runs[Task(task)].phase == Proceed
    requires s.runs[Task(task)].ev.body.Disband?
    requires env.chat.lookup.Room? && env.chat.listRead && env.chat.failing == {}
    requires FiledUnder(s.table, event, message, env.chat.lookup.room)
    requires |RoomRows(s.table, env.chat.lookup.room, s.table.nextId)| <= DISBAND_LIMIT
    ensures !HasFeishu(Next(s, opts, FinishStep(task, env, true, true, "", now)).table, message)
  {
    hide Next, HasFeishu, FiledUnder, HandleDisbanded, RoomRows;
    NextByOutcome(s, opts, FinishStep(task, env, true, true, "", now));
    DisbandUnmaps(s.table, opts.bot, env.chat, event, message);
  }

  /** The chat of the message in the room resolved for it is disbanded in a world where the store works. */
  predicate Disbands(s: State, disband: Event, room: string, env: ChatEnv) {
    && disband.body.Disband? && LockFree(s, Chat(disband)) && Dispatch(s, disband, true) == Accepted
    && env.lookup == Room(room) && env.listRead && env.failing == {}
    && |RoomRows(s.table, room, s.table.nextId)| <= DISBAND_LIMIT
  }

  /**
   * A delivered message is forgotten with its room: it was filed under the room resolved for its chat, so when that room
   * is disbanded next, and has at most `DISBAND_LIMIT` messages, the message is unmapped.
   */
  lemma {:induction false} DisbandedMessageForgotten(opts: Options, steps: seq<Step>, ev: Event, env: HandlerEnv,
                                                     disband: Event, end: HandlerEnv, now: int)
    requires var s := Exec(opts, steps);
             && LockFree(s, Chat(ev)) && Dispatch(s, ev, true) == Accepted
             && ev.body.Receive? && !HasFeishu(s.table, ev.body.msg.id)
             && CanDeliver(s.table, opts.bot, ev.body.msg, env.message)
    ensures var delivered := steps + Handling(ev, |Exec(opts, steps).accepted|, env, now);
            var s := Exec(opts, delivered);
            && HasFeishu(s.table, ev.body.msg.id)
            && (Disbands(s, disband, env.message.room, end.chat) ==>
                  !HasFeishu(Exec(opts, delivered + Handling(disband, |s.accepted|, end, now)).table, ev.body.msg.id))
  {
    hide Exec, Next, CanDeliver, HasFeishu, FiledUnder, Links, MatrixEvents, Prepare, Dispatch, LockFree, RoomRows, HasMatrix,
      TasksNumbered, Chat;
    var delivered := steps + Handling(ev, |Exec(opts, steps).accepted|, env, now);
    var s := Exec(opts, delivered);
    SomethingToSend(Exec(opts, steps).table, opts.bot, ev.body.msg, env.message);
    var event := MatrixEvents(opts.bot, ev.body.msg, env.message)[0];
    AcceptedMessageArrives(opts, steps, ev, env, now);
    FiledMeansMapped(s.table, event, ev.body.msg.id, env.message.room);
    if Disbands(s, disband, env.message.room, end.chat) {
      AcceptedEventsConserved(opts, delivered);
      Handled(s, opts, disband, end, now);
      ExecThree(opts, delivered, Handling(disband, |s.accepted|, end, now));
      var started := Next(Next(s, opts, DispatchStep(disband, true)), opts, StartStep(|s.accepted|, true));
      DisbandFinishes(started, opts, |s.accepted|, end, now, event, ev.body.msg.id);
    }
  }

  lemma SomethingToSend(t: Table, bot: string, msg: Message, env: MessageEnv)
    requires CanDeliver(t, bot, msg, env)
    ensures Prepare(bot, msg, env).Some? && MatrixEvents(bot, msg, env) != []
  {
  }

  lemma {:induction false} ExecThree(opts: Options, steps: seq<Step>, more: seq<Step>)
    requires |more| == 3
    ensures var s := Exec(opts, steps);
            && Valid(Next(s, opts, more[0]).table)
            && Valid(Next(Next(s, opts, more[0]), opts, more[1]).table)
            && Exec(opts, steps + more) == Next(Next(Next(s, opts, more[0]), opts, more[1]), opts, more[2])
  {
    hide Next;
    var all := steps + more;
    assert all[..|steps|] == steps;
    ExecStep(opts, all, |steps|);
    ExecStep(opts, all, |steps| + 1);
    ExecStep(opts, all, |steps| + 2);
    assert all[..|steps| + 3] == all;
  }

  /** No Matrix event is known and no run under way: every step but a dispatch of foreign chats is good. */
  lemma StepIsGood(s: State, opts: Options, chatOf: string -> string, step: Step)
    requires Valid(s.table) && s.runs.Keys <= {Task(0)} && s.matrixIds == {}
    requires match step
             case DispatchStep(ev, _) => ev.body.Receive? && ev.body.msg.chat == chatOf(ev.body.msg.id)
             case StartStep(_, _) => true
             case FinishStep(_, env, _, _, _, _) => env.message.insertOk
             case _ => false
    ensures GoodStep(s, opts, chatOf, step)
  {
    hide StepOutcome, MatrixIdsOf;
  }

  lemma HandlingIsGood(opts: Options, self: Puppet.Identity, chatOf: string -> string, ev: Event, env: HandlerEnv,
                       now: int)
    requires Configured(opts, self) && Dispatchable(ev) && ev.body.Receive? && ev.body.msg.chat == chatOf(ev.body.msg.id)
    requires env.message.mapped == None && env.message.insertOk
    ensures GoodRun(opts, self, chatOf, Handling(ev, 0, env, now))
  {
    hide Configured, GoodStep, Exec, Next, Valid, Dispatchable, Begin;
    var steps := Handling(ev, 0, env, now);
    StartIsEmpty(opts, ev);
    FreshProceeds(INIT.table, ev);
    Handled(INIT, opts, ev, env, now);
    ExecThree(opts, [], steps);
    PrefixesOf(opts, steps);
    StepIsGood(INIT, opts, chatOf, steps[0]);
    StepIsGood(Exec(opts, steps[..1]), opts, chatOf, steps[1]);
    StepIsGood(Exec(opts, steps[..2]), opts, chatOf, steps[2]);
    assert MappedRun(self, steps);
    forall k | 0 <= k < |steps|
      ensures GoodStep(Exec(opts, steps[..k]), opts, chatOf, steps[k])
    {
      assert k == 0 || k == 1 || k == 2;
    }
  }

  lemma StartIsEmpty(opts: Options, ev: Event)
    requires Dispatchable(ev)
    ensures Exec(opts, []) == INIT && TasksNumbered(INIT) && LockFree(INIT, Chat(ev))
    ensures Dispatch(INIT, ev, true) == Accepted && !HasFeishu(EMPTY, MessageIdOf(ev))
  {
  }

  function MessageIdOf(ev: Event): string {
    if ev.body.Receive? then ev.body.msg.id else ""
  }

  lemma PrefixesOf(opts: Options, steps: seq<Step>)
    requires |steps| == 3
    ensures Exec(opts, steps[..0]) == INIT
    ensures Valid(INIT.table) && Exec(opts, steps[..1]) == Next(INIT, opts, steps[0])
    ensures Exec(opts, steps[..2]) == Next(Exec(opts, steps[..1]), opts, steps[1])
    ensures Next(INIT, opts, steps[0]).runs.Keys <= {Task(0)} && Next(INIT, opts, steps[0]).matrixIds == {} <== steps[0].DispatchStep?
  {
    ExecStep(opts, steps, 0);
    ExecStep(opts, steps, 1);
    hide Exec;
    assert steps[..0] == [];
    EmptyRun(opts);
  }

  lemma EmptyRun(opts: Options)
    ensures Exec(opts, []) == INIT
  {
  }

  /** Good runs exist under every configuration, and they deliver. */
  lemma {:induction false} GoodRunDelivers(opts: Options, self: Puppet.Identity, chatOf: string -> string, ev: Event,
                                           env: HandlerEnv, now: int)
    requires Configured(opts, self) && Dispatchable(ev) && ev.body.Receive? && ev.body.msg.chat == chatOf(ev.body.msg.id)
    requires env.message.mapped == None && CanDeliver(EMPTY, opts.bot, ev.body.msg, env.message)
    ensures var steps := Handling(ev, 0, env, now);
            GoodRun(opts, self, chatOf, steps) && Deliveries(Exec(opts, steps), ev.body.msg.id) == 1
  {
    hide Configured, GoodRun, Exec, Next, Dispatchable, Prepare, MatrixEvents, HasFeishu, LockFree, Dispatch;
    var steps := Handling(ev, 0, env, now);
    StartIsEmpty(opts, ev);
    HandlingIsGood(opts, self, chatOf, ev, env, now);
    assert [] + steps == steps;
    AcceptedMessageArrives(opts, [], ev, env, now);
    FiledMeansMapped(Exec(opts, steps).table, MatrixEvents(opts.bot, ev.body.msg, env.message)[0], ev.body.msg.id,
                     env.message.room);
    assert steps[..3] == steps;
    AtMostOnce(opts, self, chatOf, steps, 3, ev.body.msg.id);
    CountNone(Exec(opts, steps).history, Unmapped, ev.body.msg.id);
  }
}
