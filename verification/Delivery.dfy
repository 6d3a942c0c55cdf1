/**
 * What is assumed of the outside world, as predicates on single steps, and what every such step keeps: events and
 * rows come from known messages, and no two runs deliver the same one.
 */
module Delivery {
  import opened Wrappers
  import opened MessageTable
  import opened Bridge
  import opened Protocol
  import opened Outcomes
  import opened Runs
  import DeadLetters

  // ----- The world -----

  /** A run is going to deliver `m`. */
  predicate Delivers(run: Run, m: string) {
    run.phase == Proceed && run.ev.body.Receive? && run.ev.body.msg.id == m
  }

  /** The bridge's own record of having sent a Matrix event. */
  predicate SentToMatrix(history: seq<Effect>, event: string, sender: string) {
    exists k | 0 <= k < |history| && history[k].MatrixMessage? ::
      history[k].event == event && history[k].sender == sender
  }

  predicate InMatrix(history: seq<Effect>, event: string) {
    exists k | 0 <= k < |history| && history[k].MatrixMessage? :: history[k].event == event
  }

  /**
   * Both servers name messages afresh, Feishu keeps a message in its chat, and Matrix echoes a bridge message under
   * its own sender. Matrix event ids do not carry the prefix reserved for Feishu events.
   */
  ghost predicate Honest(s: State, opts: Options, chatOf: string -> string, step: Step)
    requires Valid(s.table)
  {
    match step
    case DispatchStep(ev, _) => ev.body.Receive? ==> ev.body.msg.chat == chatOf(ev.body.msg.id)
    case FinishStep(_, _, _, _, _, _) => MatrixIdsOf(StepOutcome(s, opts, step).effects) !! s.matrixIds
    case ReplayFinish(_, _, _, _, _, _) => MatrixIdsOf(StepOutcome(s, opts, step).effects) !! s.matrixIds
    case MatrixStep(ev, _) =>
      && FeishuIdsOf(StepOutcome(s, opts, step).effects) !! s.feishuIds
      && (ev.id.Some? ==> !(FEISHU_PREFIX <= ev.id.value))
      && (ev.id.Some? && InMatrix(s.history, ev.id.value) ==> SentToMatrix(s.history, ev.id.value, ev.sender))
    case _ => true
  }

  /** The store accepts the rows written for deliveries and processed Matrix events. */
  predicate StoreWorks(step: Step) {
    match step
    case FinishStep(_, env, _, _, _, _) => env.message.insertOk
    case ReplayFinish(_, _, env, _, _, _) => env.message.insertOk
    case MatrixStep(_, env) => env.insertOk && env.markOk
    case _ => true
  }

  /**
   * Replays keep out of the way of other runs for the same message. The chat lock already orders queued tasks, so a
   * task need only watch for replays.
   */
  ghost predicate ReplaysApart(s: State, step: Step) {
    match step
    case StartStep(task, _) =>
      task in s.queued && s.queued[task].body.Receive? ==>
        forall r | r in s.runs && r.Replay? :: !Delivers(s.runs[r], s.queued[task].body.msg.id)
    case ReplayStart(_, letter, _, _) =>
      LetterEvent(s, letter).Some? && LetterEvent(s, letter).value.body.Receive? ==>
        Unattended(s, LetterEvent(s, letter).value.body.msg.id)
    case _ => true
  }

  ghost predicate Unattended(s: State, m: string) {
    forall r | r in s.runs :: !Delivers(s.runs[r], m)
  }

  // ----- What is known -----

  predicate Known(ids: set<string>, chatOf: string -> string, ev: Event) {
    ev.body.Receive? ==> ev.body.msg.id in ids && ev.body.msg.chat == chatOf(ev.body.msg.id)
  }

  ghost predicate QueueKnown(queued: map<nat, Event>, ids: set<string>, chatOf: string -> string) {
    forall n | n in queued :: Known(ids, chatOf, queued[n])
  }

  ghost predicate RunsKnown(runs: map<RunId, Run>, ids: set<string>, chatOf: string -> string) {
    forall r | r in runs :: Known(ids, chatOf, runs[r].ev)
  }

  ghost predicate LettersKnown(rows: seq<DeadLetters.Letter<Event>>, ids: set<string>, chatOf: string -> string) {
    forall i | 0 <= i < |rows| :: Known(ids, chatOf, rows[i].payload)
  }

  /** Every event held anywhere was dispatched. */
  ghost predicate EventsKnown(s: State, chatOf: string -> string) {
    && QueueKnown(s.queued, s.feishuIds, chatOf)
    && RunsKnown(s.runs, s.feishuIds, chatOf)
    && LettersKnown(s.letters.rows, s.feishuIds, chatOf)
  }

  ghost predicate RowsKnown(s: State) {
    && (forall i | i in s.table.rows :: s.table.rows[i].feishuMessage in s.feishuIds)
    && (forall i | i in s.table.rows :: s.table.rows[i].matrixEvent in s.matrixIds)
  }

  /** A message being delivered is delivered by one run only, and is not mapped yet. */
  ghost predicate Quiet(s: State) {
    && (forall a, b | a in s.runs && b in s.runs && a != b ::
          forall m | Delivers(s.runs[a], m) :: !Delivers(s.runs[b], m))
    && (forall a | a in s.runs :: forall m | Delivers(s.runs[a], m) :: !HasFeishu(s.table, m))
  }

  /** A mapped Matrix event is either the bridge's own or has been processed. */
  ghost predicate MappedSettled(s: State) {
    forall i | i in s.table.rows ::
      s.table.rows[i].matrixEvent in s.processed || InMatrix(s.history, s.table.rows[i].matrixEvent)
  }

  // ----- Events stay known -----

  lemma MoreIdsKnown(s: State, ids: set<string>, chatOf: string -> string)
    requires EventsKnown(s, chatOf) && s.feishuIds <= ids
    ensures QueueKnown(s.queued, ids, chatOf) && RunsKnown(s.runs, ids, chatOf)
    ensures LettersKnown(s.letters.rows, ids, chatOf)
  {
  }

  lemma LettersStayKnown(t: DeadLetters.Letters<Event>, ids: set<string>, chatOf: string -> string,
                         letter: nat, error: string, now: int)
    requires LettersKnown(t.rows, ids, chatOf)
    ensures LettersKnown(DeadLetters.MarkReplayed(t, letter, now).rows, ids, chatOf)
    ensures LettersKnown(DeadLetters.MarkFailed(t, letter, error, now).rows, ids, chatOf)
  {
  }

  lemma UpsertKnown(t: DeadLetters.Letters<Event>, ids: set<string>, chatOf: string -> string,
                    key: string, ev: Event, error: string, now: int)
    requires LettersKnown(t.rows, ids, chatOf) && Known(ids, chatOf, ev)
    ensures LettersKnown(DeadLetters.Upsert(t, key, ev, error, now).rows, ids, chatOf)
  {
  }

  lemma CleanKnown(rows: seq<DeadLetters.Letter<Event>>, ids: set<string>, chatOf: string -> string, deleted: set<nat>)
    requires LettersKnown(rows, ids, chatOf)
    ensures LettersKnown(DeadLetters.Without(rows, deleted), ids, chatOf)
  {
    var kept := DeadLetters.Without(rows, deleted);
    forall i | 0 <= i < |kept|
      ensures Known(ids, chatOf, kept[i].payload)
    {
      assert kept[i] in rows;
    }
  }

  lemma StartKnown(s: State, chatOf: string -> string, step: Step)
    requires EventsKnown(s, chatOf) && (step.StartStep? || step.ReplayStart?)
    ensures EventsKnown(if step.StartStep? then Started(s, step.task, step.readOk) else ReplayStarted(s, step), chatOf)
  {
    hide Begin, Chat, Replayable, Known, DeadLetters.MarkFailed;
    if step.ReplayStart? {
      LettersStayKnown(s.letters, s.feishuIds, chatOf, step.letter, UNSUPPORTED, step.now);
    }
  }

  lemma FinishKnown(s: State, opts: Options, chatOf: string -> string, step: Step)
    requires step.FinishStep? && Valid(s.table) && EventsKnown(s, chatOf)
    ensures EventsKnown(Finished(s, opts, step), chatOf)
  {
    hide Complete, Key, DeadLetters.Upsert, FeishuIdsOf, MatrixIdsOf, Known;
    if Task(step.task) in s.runs {
      var ev := s.runs[Task(step.task)].ev;
      var ids := Finished(s, opts, step).feishuIds;
      MoreIdsKnown(s, ids, chatOf);
      UpsertKnown(s.letters, ids, chatOf, Key(ev), ev, step.error, step.now);
    }
  }

  lemma ReplayFinishKnown(s: State, opts: Options, chatOf: string -> string, step: Step)
    requires step.ReplayFinish? && Valid(s.table) && EventsKnown(s, chatOf)
    ensures EventsKnown(ReplayFinished(s, opts, step), chatOf)
  {
    hide Complete, FeishuIdsOf, MatrixIdsOf, DeadLetters.MarkReplayed, DeadLetters.MarkFailed, Known;
    var ids := ReplayFinished(s, opts, step).feishuIds;
    MoreIdsKnown(s, ids, chatOf);
    LettersStayKnown(s.letters, ids, chatOf, step.letter, step.error, step.now);
  }

  lemma DispatchKnown(s: State, chatOf: string -> string, ev: Event)
    requires EventsKnown(s, chatOf) && (ev.body.Receive? ==> ev.body.msg.chat == chatOf(ev.body.msg.id))
    ensures EventsKnown(Enqueued(s, ev), chatOf)
  {
    MoreIdsKnown(s, Enqueued(s, ev).feishuIds, chatOf);
  }

  lemma MatrixKnown(s: State, opts: Options, chatOf: string -> string, ev: MatrixEvent, env: MatrixEnv)
    requires Valid(s.table) && EventsKnown(s, chatOf)
    ensures EventsKnown(MatrixProcessed(s, opts, ev, env), chatOf)
  {
    hide ProcessMatrix, FeishuIdsOf, MatrixIdsOf, Known;
    MoreIdsKnown(s, MatrixProcessed(s, opts, ev, env).feishuIds, chatOf);
  }

  lemma NextEventsKnown(s: State, opts: Options, chatOf: string -> string, step: Step)
    requires Valid(s.table) && EventsKnown(s, chatOf) && Honest(s, opts, chatOf, step)
    ensures EventsKnown(Next(s, opts, step), chatOf)
  {
    hide Finished, ReplayStarted, ReplayFinished, MatrixProcessed, StepOutcome, Dispatch, Started, Known;
    match step
    case DispatchStep(ev, _) => DispatchKnown(s, chatOf, ev);
    case StartStep(_, _) => StartKnown(s, chatOf, step);
    case FinishStep(_, _, _, _, _, _) => FinishKnown(s, opts, chatOf, step);
    case ReplayStart(_, _, _, _) => StartKnown(s, chatOf, step);
    case ReplayFinish(_, _, _, _, _, _) => ReplayFinishKnown(s, opts, chatOf, step);
    case MatrixStep(ev, env) => MatrixKnown(s, opts, chatOf, ev, env);
    case CleanStep(status, olderThan, limit) =>
      CleanKnown(s.letters.rows, s.feishuIds, chatOf, DeadLetters.CleanupIds(s.letters, status, olderThan, limit));
  }

  // ----- Rows come from known messages -----

  /** A Matrix event either changes nothing or acts through its handler. */
  lemma ProcessShape(t: Table, processed: set<string>, opts: Options, ev: MatrixEvent, env: MatrixEnv)
    requires Valid(t)
    ensures var (o, processed') := ProcessMatrix(t, processed, opts, ev, env);
            var h := HandleMatrixKind(t, opts, ev, env);
            || (o.table == t && o.effects == [] && processed' == processed)
            || (&& o.table == h.table && o.effects == h.effects && (ev.id.Some? ==> ev.id.value !in processed)
                && processed <= processed'
                && (h.ok && env.markOk && ev.id.Some? ==> ev.id.value in processed'))
  {
    hide HandleMatrixKind;
  }

  /** The rows a step adds, by their origin. */
  ghost predicate NewRow(s: State, opts: Options, step: Step, row: Row)
    requires Valid(s.table)
  {
    var effects := StepOutcome(s, opts, step).effects;
    match step
    case FinishStep(task, env, _, _, _, _) =>
      && Task(task) in s.runs && Delivers(s.runs[Task(task)], row.feishuMessage)
      && FirstInMatrix(effects, row.matrixEvent) && row.room == env.message.room
    case ReplayFinish(token, letter, env, _, _, _) =>
      && Replay(token, letter) in s.runs && Delivers(s.runs[Replay(token, letter)], row.feishuMessage)
      && FirstInMatrix(effects, row.matrixEvent) && row.room == env.message.room
    case MatrixStep(ev, env) =>
      && ev.id == Some(row.matrixEvent) && !opts.own(ev.sender) && row.matrixEvent !in s.processed
      && row.room == ev.room && env.plan.Forward? && row.contentHash == Some(env.plan.out.hash)
      && (env.markOk ==> row.matrixEvent in Next(s, opts, step).processed)
      && effects != [] && effects[0].FeishuMessage? && effects[0].message == row.feishuMessage
    case _ => false
  }

  predicate FirstInMatrix(effects: seq<Effect>, event: string) {
    effects != [] && effects[0].MatrixMessage? && effects[0].event == event
  }

  lemma MatrixStepRow(s: State, opts: Options, ev: MatrixEvent, env: MatrixEnv, i: nat)
    requires Valid(s.table) && i in ProcessMatrix(s.table, s.processed, opts, ev, env).0.table.rows
    ensures var row := ProcessMatrix(s.table, s.processed, opts, ev, env).0.table.rows[i];
            (i in s.table.rows && row == s.table.rows[i]) || NewRow(s, opts, MatrixStep(ev, env), row)
  {
    hide HandleMatrixKind, ProcessMatrix, FeishuIdsOf, MatrixIdsOf;
    ProcessShape(s.table, s.processed, opts, ev, env);
    MatrixRows(s.table, opts, ev, env);
  }

  lemma StepRow(s: State, opts: Options, step: Step, i: nat)
    requires Valid(s.table) && i in Next(s, opts, step).table.rows
    ensures var row := Next(s, opts, step).table.rows[i];
            (i in s.table.rows && row == s.table.rows[i]) || NewRow(s, opts, step, row)
  {
    hide Complete, ProcessMatrix, Next;
    NextByOutcome(s, opts, step);
    match step
    case FinishStep(task, env, _, _, _, _) =>
      if Task(task) in s.runs {
        CompleteRows(s.table, opts, s.runs[Task(task)], env);
      }
    case ReplayFinish(token, letter, env, _, _, _) =>
      if Replay(token, letter) in s.runs {
        CompleteRows(s.table, opts, s.runs[Replay(token, letter)], env);
      }
    case MatrixStep(ev, env) => MatrixStepRow(s, opts, ev, env, i);
    case _ =>
  }

  /** The identifiers known after a step include those it creates. */
  lemma NextIds(s: State, opts: Options, step: Step)
    requires Valid(s.table)
    ensures var s' := Next(s, opts, step); var effects := StepOutcome(s, opts, step).effects;
            && s.feishuIds + FeishuIdsOf(effects) <= s'.feishuIds
            && s.matrixIds + MatrixIdsOf(effects) <= s'.matrixIds
            && s.processed <= s'.processed
            && (step.MatrixStep? && step.matrix.id.Some? ==> step.matrix.id.value in s'.matrixIds)
  {
    hide Complete, HandleMatrixKind, FeishuIdsOf, MatrixIdsOf, Begin, LetterEvent, Dispatch, Settled, Replayable, Chat;
    NoIds();
    if step.FinishStep? && Task(step.task) in s.runs {
      var o := Complete(s.table, opts, s.runs[Task(step.task)], step.env);
      SettledIds(WithOutcome(s, o).(runs := s.runs - {Task(step.task)}), s.runs[Task(step.task)].ev, o.ok, step.markOk,
                 step.recordOk, step.error, step.now);
    }
  }

  lemma SettledIds(s: State, ev: Event, ok: bool, markOk: bool, recordOk: bool, error: string, now: int)
    ensures var s' := Settled(s, ev, ok, markOk, recordOk, error, now);
            s'.feishuIds == s.feishuIds && s'.matrixIds == s.matrixIds && s.processed <= s'.processed
  {
  }

  lemma NoIds()
    ensures FeishuIdsOf([]) == {} && MatrixIdsOf([]) == {}
  {
  }

  lemma {:induction false} NextRowsKnown(s: State, opts: Options, chatOf: string -> string, step: Step)
    requires Valid(s.table) && EventsKnown(s, chatOf) && RowsKnown(s)
    ensures RowsKnown(Next(s, opts, step))
  {
    hide Next, StepOutcome, FeishuIdsOf, MatrixIdsOf;
    var s' := Next(s, opts, step);
    var effects := StepOutcome(s, opts, step).effects;
    NextIds(s, opts, step);
    forall i | i in s'.table.rows
      ensures s'.table.rows[i].feishuMessage in s'.feishuIds && s'.table.rows[i].matrixEvent in s'.matrixIds
    {
      StepRow(s, opts, step, i);
      if effects != [] && effects[0].MatrixMessage? {
        MatrixIdIn(effects);
      } else if effects != [] && effects[0].FeishuMessage? {
        FeishuIdIn(effects);
      }
    }
  }

  // ----- Runs for one message keep apart -----

  lemma ChatOfDelivery(run: Run, m: string, ids: set<string>, chatOf: string -> string)
    requires Known(ids, chatOf, run.ev)
    ensures Delivers(run, m) ==> Chat(run.ev) == chatOf(m)
  {
  }

  lemma StartQuiet(s: State, chatOf: string -> string, task: nat, readOk: bool)
    requires Quiet(s) && EventsKnown(s, chatOf) && ReplaysApart(s, StartStep(task, readOk))
    ensures Quiet(Started(s, task, readOk))
  {
    if task in s.queued && Task(task) !in s.runs && LockFree(s, Chat(s.queued[task])) {
      var ev := s.queued[task];
      var s' := Started(s, task, readOk);
      forall r, m | r in s.runs && Delivers(s'.runs[Task(task)], m)
        ensures !Delivers(s.runs[r], m)
      {
        ChatOfDelivery(s.runs[r], m, s.feishuIds, chatOf);
        ChatOfDelivery(s'.runs[Task(task)], m, s.feishuIds, chatOf);
      }
      OneMoreQuiet(s, s', Task(task));
    }
  }

  /** Adding one run keeps the peace iff nobody else delivers its message and the message is not mapped. */
  lemma OneMoreQuiet(s: State, s': State, id: RunId)
    requires Quiet(s) && id !in s.runs && s'.table == s.table
    requires s'.runs.Keys == s.runs.Keys + {id} && forall r | r in s.runs :: s'.runs[r] == s.runs[r]
    ensures Quiet(s') <==> forall m | Delivers(s'.runs[id], m) :: Unattended(s, m) && !HasFeishu(s.table, m)
  {
    hide HasFeishu;
    if Quiet(s') {
      forall r, m | r in s.runs && Delivers(s'.runs[id], m)
        ensures !Delivers(s.runs[r], m)
      {
        assert s'.runs[r] == s.runs[r];
      }
    }
    if forall m | Delivers(s'.runs[id], m) :: Unattended(s, m) && !HasFeishu(s.table, m) {
      forall a, b, m | a in s'.runs && b in s'.runs && a != b && Delivers(s'.runs[a], m)
        ensures !Delivers(s'.runs[b], m)
      {
        assert a != id ==> s'.runs[a] == s.runs[a];
        assert b != id ==> s'.runs[b] == s.runs[b];
      }
      forall a, m | a in s'.runs && Delivers(s'.runs[a], m)
        ensures !HasFeishu(s'.table, m)
      {
        assert a != id ==> s'.runs[a] == s.runs[a];
      }
    }
  }

  /**
   * Replays run outside the chat lock. Starting one for an unmapped message keeps deliveries apart iff no other run
   * is delivering that message.
   */
  lemma ReplayStartQuiet(s: State, step: Step)
    requires Quiet(s) && step.ReplayStart? && Replay(step.token, step.letter) !in s.runs
    requires LetterEvent(s, step.letter).Some? && LetterEvent(s, step.letter).value.body.Receive?
    requires Replayable(LetterEvent(s, step.letter).value.eventType)
    requires step.readOk && !HasFeishu(s.table, LetterEvent(s, step.letter).value.body.msg.id)
    ensures Quiet(ReplayStarted(s, step)) <==> Unattended(s, LetterEvent(s, step.letter).value.body.msg.id)
  {
    hide HasFeishu, Replayable;
    var ev := LetterEvent(s, step.letter).value;
    var s' := ReplayStarted(s, step);
    var id := Replay(step.token, step.letter);
    assert s'.runs[id] == Run(ev, Proceed);
    OneMoreQuiet(s, s', id);
    assert Delivers(s'.runs[id], ev.body.msg.id);
  }

  lemma ReplayStartKeepsQuiet(s: State, step: Step)
    requires Quiet(s) && step.ReplayStart? && ReplaysApart(s, step)
    ensures Quiet(ReplayStarted(s, step))
  {
    hide HasFeishu, Replayable;
    var id := Replay(step.token, step.letter);
    if LetterEvent(s, step.letter).Some? && Replayable(LetterEvent(s, step.letter).value.eventType) && id !in s.runs {
      OneMoreQuiet(s, ReplayStarted(s, step), id);
    }
  }

  /** A run that ends frees its message for others. */
  lemma EndQuiet(s: State, opts: Options, step: Step, id: RunId)
    requires Valid(s.table) && Quiet(s) && id in s.runs
    requires (step.FinishStep? && id == Task(step.task))
             || (step.ReplayFinish? && id == Replay(step.token, step.letter))
    ensures Quiet(Next(s, opts, step))
  {
    hide StepOutcome, Complete, HasFeishu, Quiet, Settled, WithOutcome;
    var s' := Next(s, opts, step);
    EndRuns(s, opts, step, id);
    forall a, m | a in s'.runs && Delivers(s'.runs[a], m)
      ensures !HasFeishu(s'.table, m)
    {
      EndUnmapped(s, opts, step, id, a, m);
    }
    FewerQuiet(s, s');
  }

  lemma EndRuns(s: State, opts: Options, step: Step, id: RunId)
    requires Valid(s.table) && id in s.runs
    requires (step.FinishStep? && id == Task(step.task)) || (step.ReplayFinish? && id == Replay(step.token, step.letter))
    ensures Next(s, opts, step).runs == s.runs - {id}
  {
    hide Complete, Key, DeadLetters.Upsert, DeadLetters.MarkReplayed, DeadLetters.MarkFailed;
  }

  lemma EndUnmapped(s: State, opts: Options, step: Step, id: RunId, other: RunId, m: string)
    requires Valid(s.table) && Quiet(s) && id in s.runs && other in s.runs && other != id && Delivers(s.runs[other], m)
    requires (step.FinishStep? && id == Task(step.task)) || (step.ReplayFinish? && id == Replay(step.token, step.letter))
    ensures !HasFeishu(Next(s, opts, step).table, m)
  {
    hide Next, StepOutcome;
    var s' := Next(s, opts, step);
    forall i | i in s'.table.rows
      ensures s'.table.rows[i].feishuMessage != m
    {
      StepRow(s, opts, step, i);
      assert !HasFeishu(s.table, m);
    }
  }

  lemma FewerQuiet(s: State, s': State)
    requires Quiet(s) && forall r | r in s'.runs :: r in s.runs && s'.runs[r] == s.runs[r]
    requires forall a, m | a in s'.runs && Delivers(s'.runs[a], m) :: !HasFeishu(s'.table, m)
    ensures Quiet(s')
  {
    hide HasFeishu;
  }

  /** A Matrix event maps only messages nobody has seen before. */
  lemma {:induction false} MatrixQuiet(s: State, opts: Options, chatOf: string -> string, step: Step)
    requires Valid(s.table) && Quiet(s) && EventsKnown(s, chatOf) && step.MatrixStep? && Honest(s, opts, chatOf, step)
    ensures Quiet(Next(s, opts, step))
  {
    hide Quiet, StepOutcome, ProcessMatrix;
    var s' := Next(s, opts, step);
    assert s'.runs == s.runs;
    forall a, m | a in s'.runs && Delivers(s'.runs[a], m)
      ensures !HasFeishu(s'.table, m)
    {
      MatrixUnmapped(s, opts, chatOf, step, a, m);
    }
    FewerQuiet(s, s');
  }

  lemma MatrixUnmapped(s: State, opts: Options, chatOf: string -> string, step: Step, a: RunId, m: string)
    requires Valid(s.table) && Quiet(s) && EventsKnown(s, chatOf) && step.MatrixStep? && Honest(s, opts, chatOf, step)
    requires a in s.runs && Delivers(s.runs[a], m)
    ensures !HasFeishu(Next(s, opts, step).table, m)
  {
    hide Next, StepOutcome, FeishuIdsOf, MatrixIdsOf;
    var effects := StepOutcome(s, opts, step).effects;
    forall i | i in Next(s, opts, step).table.rows
      ensures Next(s, opts, step).table.rows[i].feishuMessage != m
    {
      StepRow(s, opts, step, i);
      assert !HasFeishu(s.table, m) && m in s.feishuIds;
      if effects != [] && effects[0].FeishuMessage? {
        FeishuIdIn(effects);
      }
    }
  }

  lemma {:induction false} NextQuiet(s: State, opts: Options, chatOf: string -> string, step: Step)
    requires Valid(s.table) && Quiet(s) && EventsKnown(s, chatOf)
    requires Honest(s, opts, chatOf, step) && ReplaysApart(s, step)
    ensures Quiet(Next(s, opts, step))
  {
    hide Started, Finished, ReplayStarted, ReplayFinished, ProcessMatrix, StepOutcome, EventsKnown, Quiet, Dispatch;
    var s' := Next(s, opts, step);
    match step
    case DispatchStep(ev, _) => SameRunsQuiet(s, s');
    case StartStep(task, readOk) => StartQuiet(s, chatOf, task, readOk);
    case FinishStep(task, _, _, _, _, _) =>
      if Task(task) in s.runs {
        EndQuiet(s, opts, step, Task(task));
      } else {
        IdleFinish(s, opts, step);
      }
    case ReplayStart(_, _, _, _) => ReplayStartKeepsQuiet(s, step);
    case ReplayFinish(token, letter, _, _, _, _) =>
      if Replay(token, letter) in s.runs {
        EndQuiet(s, opts, step, Replay(token, letter));
      } else {
        IdleFinish(s, opts, step);
      }
    case MatrixStep(_, _) => MatrixQuiet(s, opts, chatOf, step);
    case CleanStep(_, _, _) => SameRunsQuiet(s, s');
  }

  lemma SameRunsQuiet(s: State, s': State)
    requires Quiet(s) && s'.runs == s.runs && s'.table == s.table
    ensures Quiet(s')
  {
  }

  lemma IdleFinish(s: State, opts: Options, step: Step)
    requires Valid(s.table)
    requires (step.FinishStep? && Task(step.task) !in s.runs)
             || (step.ReplayFinish? && Replay(step.token, step.letter) !in s.runs)
    ensures Next(s, opts, step) == s
  {
  }
}
