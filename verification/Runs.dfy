/** Runs of the protocol, and the properties every run has whatever the outside world answers. */
module Runs {
  import opened Wrappers
  import opened MessageTable
  import opened Bridge
  import opened Protocol
  import opened Ledger
  import DeadLetters

  // ----- The ledger balances after every step -----

  ghost predicate Sound(s: State) {
    && Valid(s.table)
    && forall m :: Balance(s.history, m) == Mapped(s.table, m)
  }

  lemma CompleteBalanced(t: Table, opts: Options, run: Run, env: HandlerEnv, m: string)
    requires Valid(t)
    ensures Balanced(t, Complete(t, opts, run, env), m)
    ensures Valid(Complete(t, opts, run, env).table)
  {
    hide Deliver, HandleRecalled, HandleDisbanded, HandleChatChange, Balanced;
    NothingBalanced(t, true, m);
    NothingBalanced(t, false, m);
    if run.phase == Proceed {
      match run.ev.body
      case Receive(msg) => DeliverBalanced(t, opts.bot, msg, env.message, m);
      case Recall(_, message) => RecalledBalanced(t, message, env.recall, m);
      case ChatChange(_) => ChatChangeBalanced(t, opts.bot, env.chat, m);
      case Disband(_) => DisbandedBalanced(t, opts.bot, env.chat, m);
    }
  }

  lemma ProcessBalanced(t: Table, processed: set<string>, opts: Options, ev: MatrixEvent, env: MatrixEnv, m: string)
    requires Valid(t)
    ensures Balanced(t, ProcessMatrix(t, processed, opts, ev, env).0, m)
    ensures Valid(ProcessMatrix(t, processed, opts, ev, env).0.table)
  {
    MatrixKindBalanced(t, opts, ev, env, m);
  }

  lemma OutcomeSound(s: State, o: Outcome)
    requires Sound(s) && Valid(o.table)
    requires forall m :: Balanced(s.table, o, m)
    ensures Sound(WithOutcome(s, o))
  {
    forall m
      ensures Balance(s.history + o.effects, m) == Mapped(o.table, m)
    {
      BalanceAppend(s.history, o.effects, m);
      assert Balanced(s.table, o, m);
    }
  }

  /** The outcome applied by a step, if it runs a handler to its end. */
  function StepOutcome(s: State, opts: Options, step: Step): Outcome
    requires Valid(s.table)
  {
    match step
    case FinishStep(task, env, _, _, _, _) =>
      if Task(task) in s.runs then Complete(s.table, opts, s.runs[Task(task)], env) else Done(s.table)
    case ReplayFinish(token, letter, env, _, _, _) =>
      if Replay(token, letter) in s.runs then Complete(s.table, opts, s.runs[Replay(token, letter)], env) else Done(s.table)
    case MatrixStep(ev, env) => ProcessMatrix(s.table, s.processed, opts, ev, env).0
    case _ => Done(s.table)
  }

  lemma StepOutcomeBalanced(s: State, opts: Options, step: Step, m: string)
    requires Valid(s.table)
    ensures Balanced(s.table, StepOutcome(s, opts, step), m) && Valid(StepOutcome(s, opts, step).table)
  {
    match step
    case FinishStep(task, env, _, _, _, _) =>
      if Task(task) in s.runs {
        CompleteBalanced(s.table, opts, s.runs[Task(task)], env, m);
      }
    case ReplayFinish(token, letter, env, _, _, _) =>
      if Replay(token, letter) in s.runs {
        CompleteBalanced(s.table, opts, s.runs[Replay(token, letter)], env, m);
      }
    case MatrixStep(ev, env) => ProcessBalanced(s.table, s.processed, opts, ev, env, m);
    case _ =>
  }

  /** Every step changes table and history by its outcome alone. */
  lemma NextByOutcome(s: State, opts: Options, step: Step)
    requires Valid(s.table)
    ensures var o := StepOutcome(s, opts, step);
            Next(s, opts, step).table == o.table && Next(s, opts, step).history == s.history + o.effects
  {
    assert s.history + [] == s.history;
  }

  lemma NextSound(s: State, opts: Options, step: Step)
    requires Sound(s)
    ensures Sound(Next(s, opts, step))
  {
    var o := StepOutcome(s, opts, step);
    forall m
      ensures Balanced(s.table, o, m) && Valid(o.table)
    {
      StepOutcomeBalanced(s, opts, step, m);
    }
    StepOutcomeBalanced(s, opts, step, "");
    OutcomeSound(s, o);
    NextByOutcome(s, opts, step);
  }

  lemma InitSound()
    ensures Sound(INIT)
  {
    forall m
      ensures Balance(INIT.history, m) == Mapped(INIT.table, m)
    {
    }
  }

  lemma NextValid(s: State, opts: Options, step: Step)
    requires Valid(s.table)
    ensures Valid(Next(s, opts, step).table)
  {
    StepOutcomeBalanced(s, opts, step, "");
    NextByOutcome(s, opts, step);
  }

  /** The state reached from an empty bridge. */
  ghost function Exec(opts: Options, steps: seq<Step>): (s: State)
    ensures Valid(s.table)
  {
    if steps == [] then INIT
    else
      var before := Exec(opts, steps[..|steps| - 1]);
      NextValid(before, opts, steps[|steps| - 1]);
      Next(before, opts, steps[|steps| - 1])
  }

  lemma {:induction false} RunSound(opts: Options, steps: seq<Step>)
    ensures Sound(Exec(opts, steps))
  {
    hide Next, Sound;
    if steps == [] {
      InitSound();
    } else {
      RunSound(opts, steps[..|steps| - 1]);
      NextSound(Exec(opts, steps[..|steps| - 1]), opts, steps[|steps| - 1]);
    }
  }

  lemma {:induction false} ExecStep(opts: Options, steps: seq<Step>, k: nat)
    requires k < |steps|
    ensures Exec(opts, steps[..k + 1]) == Next(Exec(opts, steps[..k]), opts, steps[k])
  {
    assert steps[..k + 1][..k] == steps[..k];
  }

  /** History is only ever extended. */
  lemma {:induction false} HistoryGrows(opts: Options, steps: seq<Step>, k: nat)
    requires k <= |steps|
    ensures Exec(opts, steps[..k]).history <= Exec(opts, steps).history
  {
    hide Next, StepOutcome;
    if k == |steps| {
      assert steps[..k] == steps;
    } else {
      var init := steps[..|steps| - 1];
      assert init[..k] == steps[..k];
      HistoryGrows(opts, init, k);
      NextByOutcome(Exec(opts, init), opts, steps[|steps| - 1]);
    }
  }

  /** Deliveries of a Feishu message, counting its creation from Matrix. */
  ghost function Deliveries(s: State, m: string): nat {
    Count(s.history, Delivered, m) + Count(s.history, Linked, m)
  }

  /**
   * Conservation of mappings in every run: what was delivered is mapped, unmapped since, or was never recorded.
   * Hence, between any two points with neither a deletion nor a failed insert of its row, a Feishu message is
   * delivered at most once, and not at all if it was mapped at the first point.
   */
  lemma {:induction false} LedgerOfEveryRun(opts: Options, steps: seq<Step>, m: string)
    ensures var s := Exec(opts, steps);
            Deliveries(s, m) == Count(s.history, Unmapped, m) + Count(s.history, Unrecorded, m) + Mapped(s.table, m)
  {
    var s := Exec(opts, steps);
    RunSound(opts, steps);
    assert Balance(s.history, m) == Mapped(s.table, m);
  }

  lemma {:induction false} AtMostOnceBetweenDeletions(opts: Options, steps: seq<Step>, k: nat, m: string)
    requires k <= |steps|
    ensures var a, b := Exec(opts, steps[..k]), Exec(opts, steps);
            Count(a.history, Unmapped, m) == Count(b.history, Unmapped, m)
            && Count(a.history, Unrecorded, m) == Count(b.history, Unrecorded, m) ==>
              Deliveries(a, m) + Mapped(b.table, m) == Deliveries(b, m) + Mapped(a.table, m)
  {
    LedgerOfEveryRun(opts, steps[..k], m);
    LedgerOfEveryRun(opts, steps, m);
  }

  lemma DeliveriesGrow(opts: Options, steps: seq<Step>, k: nat, m: string)
    requires k <= |steps|
    ensures Deliveries(Exec(opts, steps[..k]), m) <= Deliveries(Exec(opts, steps), m)
  {
    hide Exec;
    HistoryGrows(opts, steps, k);
    var a, b := Exec(opts, steps[..k]).history, Exec(opts, steps).history;
    assert b == a + b[|a|..];
    CountAppend(a, b[|a|..], Delivered, m);
    CountAppend(a, b[|a|..], Linked, m);
  }

  // ----- Accepted events are conserved, and a chat runs one task at a time -----

  /** The event of task `n`, while the task waits or runs. */
  function OpenEvent(s: State, n: nat): Option<Event> {
    if n in s.queued then Some(s.queued[n])
    else if Task(n) in s.runs then Some(s.runs[Task(n)].ev)
    else None
  }

  /** The values there are, each as often as it occurs. */
  function Bag<T>(values: seq<Option<T>>): multiset<T> {
    if values == [] then multiset{}
    else Bag(values[..|values| - 1]) + Only(values[|values| - 1])
  }

  function Only<T>(value: Option<T>): multiset<T> {
    match value
    case None => multiset{}
    case Some(v) => multiset{v}
  }

  function OpenEvents(s: State): seq<Option<Event>> {
    seq(|s.accepted|, n requires 0 <= n < |s.accepted| => OpenEvent(s, n))
  }

  /** The events of the waiting and running tasks. */
  function Open(s: State): multiset<Event> {
    Bag(OpenEvents(s))
  }

  /** The events of the tasks that ended, by how they ended. */
  function Ended(s: State): multiset<Event> {
    multiset(s.succeeded) + multiset(s.recorded) + multiset(s.dropped)
  }

  /** Open tasks are numbered below the counter and belong to the event accepted under their number. */
  ghost predicate TasksNumbered(s: State) {
    && (forall n | n in s.queued :: n < |s.accepted| && Task(n) !in s.runs)
    && (forall r | r in s.runs && r.Task? :: r.task < |s.accepted|)
    && (forall n: nat | OpenEvent(s, n).Some? :: n < |s.accepted| && OpenEvent(s, n) == Some(s.accepted[n]))
  }

  ghost predicate TasksCounted(s: State) {
    multiset(s.accepted) == Open(s) + Ended(s)
  }

  ghost predicate OneTaskPerChat(s: State) {
    forall a, b | a in s.runs && b in s.runs && a.Task? && b.Task? && Chat(s.runs[a].ev) == Chat(s.runs[b].ev) :: a == b
  }

  ghost predicate QueueOk(s: State) {
    TasksNumbered(s) && TasksCounted(s) && OneTaskPerChat(s)
  }

  /** Taking one value out. */
  lemma {:induction false} BagWithout<T>(values: seq<Option<T>>, i: nat)
    requires i < |values| && values[i].Some?
    ensures Bag(values) == Bag(values[i := None]) + multiset{values[i].value}
    decreases |values|
  {
    hide Only;
    var last, v := |values| - 1, values[i].value;
    assert Only(Some(v)) == multiset{v} && Only<T>(None) == multiset{} by {
      OnlyIs(v);
    }
    if i == last {
      assert values[i := None][..last] == values[..last];
    } else {
      assert values[i := None][..last] == values[..last][i := None];
      BagWithout(values[..last], i);
      MoveLast(Bag(values[..last][i := None]), v, Only(values[last]));
    }
  }

  lemma OnlyIs<T>(v: T)
    ensures Only(Some(v)) == multiset{v} && Only<T>(None) == multiset{}
  {
  }

  lemma MoveLast<T>(a: multiset<T>, v: T, b: multiset<T>)
    ensures a + multiset{v} + b == a + b + multiset{v}
  {
  }

  lemma OpenSame(s: State, s': State)
    requires |s'.accepted| == |s.accepted| && forall k: nat | k < |s.accepted| :: OpenEvent(s', k) == OpenEvent(s, k)
    ensures Open(s') == Open(s)
  {
    hide OpenEvent, Bag;
    assert OpenEvents(s') == OpenEvents(s);
  }

  /** A task that ends takes its event out of the open ones. */
  lemma OpenWithout(s: State, s': State, task: nat)
    requires |s'.accepted| == |s.accepted| && task < |s.accepted| && OpenEvent(s, task).Some? && OpenEvent(s', task).None?
    requires forall k: nat | k < |s.accepted| && k != task :: OpenEvent(s', k) == OpenEvent(s, k)
    ensures Open(s) == Open(s') + multiset{OpenEvent(s, task).value}
  {
    hide OpenEvent, Bag;
    BagWithout(OpenEvents(s), task);
    assert OpenEvents(s') == OpenEvents(s)[task := None];
  }

  lemma EnqueueNumbered(s: State, ev: Event)
    requires TasksNumbered(s)
    ensures TasksNumbered(Enqueued(s, ev))
    ensures OpenEvent(Enqueued(s, ev), |s.accepted|) == Some(ev)
    ensures forall k: nat | k < |s.accepted| :: OpenEvent(Enqueued(s, ev), k) == OpenEvent(s, k)
  {
    hide MessageIds;
    assert Task(|s.accepted|) !in s.runs;
  }

  lemma BagAppend<T>(values: seq<Option<T>>, value: T)
    ensures Bag(values + [Some(value)]) == Bag(values) + multiset{value}
  {
    assert (values + [Some(value)])[..|values|] == values;
  }

  lemma EnqueueCounted(s: State, s': State, ev: Event)
    requires TasksCounted(s) && Open(s') == Open(s) + multiset{ev} && Ended(s') == Ended(s) && s'.accepted == s.accepted + [ev]
    ensures TasksCounted(s')
  {
    hide Open, Ended;
    assert multiset(s'.accepted) == multiset(s.accepted) + multiset{ev};
    MoveLast(Open(s), ev, Ended(s));
  }

  lemma EnqueueOpens(s: State, ev: Event)
    requires TasksNumbered(s)
    ensures Open(Enqueued(s, ev)) == Open(s) + multiset{ev}
  {
    hide MessageIds, OpenEvent, Bag;
    EnqueueNumbered(s, ev);
    BagAppend(OpenEvents(s), ev);
    assert OpenEvents(Enqueued(s, ev)) == OpenEvents(s) + [Some(ev)];
  }

  lemma EnqueueQueue(s: State, ev: Event)
    requires QueueOk(s)
    ensures QueueOk(Enqueued(s, ev))
  {
    hide MessageIds, Chat, TasksNumbered, TasksCounted, OpenEvent, Open, OpenEvents;
    EnqueueNumbered(s, ev);
    EnqueueOpens(s, ev);
    EnqueueCounted(s, Enqueued(s, ev), ev);
  }

  lemma TakenOnePerChat(s: State, task: nat, phase: Phase)
    requires OneTaskPerChat(s) && task in s.queued && LockFree(s, Chat(s.queued[task])) && Task(task) !in s.runs
    ensures OneTaskPerChat(Taken(s, task, phase))
  {
    hide Chat;
    var s' := Taken(s, task, phase);
    forall a, b | a in s'.runs && b in s'.runs && a.Task? && b.Task? && Chat(s'.runs[a].ev) == Chat(s'.runs[b].ev)
      ensures a == b
    {
      assert a != Task(task) ==> s'.runs[a] == s.runs[a];
      assert b != Task(task) ==> s'.runs[b] == s.runs[b];
    }
  }

  lemma TakenQueue(s: State, task: nat, phase: Phase)
    requires TasksNumbered(s) && TasksCounted(s) && task in s.queued
    ensures TasksNumbered(Taken(s, task, phase)) && TasksCounted(Taken(s, task, phase))
  {
    var s' := Taken(s, task, phase);
    assert forall k: nat :: OpenEvent(s', k) == OpenEvent(s, k);
    OpenSame(s, s');
    assert Ended(s') == Ended(s);
  }

  lemma StartQueue(s: State, task: nat, readOk: bool)
    requires QueueOk(s)
    ensures QueueOk(Started(s, task, readOk))
  {
    hide Begin, Chat, Taken, TasksNumbered, TasksCounted, OneTaskPerChat;
    if task in s.queued && Task(task) !in s.runs && LockFree(s, Chat(s.queued[task])) {
      TakenQueue(s, task, Begin(s.table, s.queued[task], readOk));
      TakenOnePerChat(s, task, Begin(s.table, s.queued[task], readOk));
    }
  }

  lemma SettledEnds(s: State, ev: Event, ok: bool, markOk: bool, recordOk: bool, error: string, now: int)
    ensures var s' := Settled(s, ev, ok, markOk, recordOk, error, now);
            && s'.runs == s.runs && s'.queued == s.queued && s'.accepted == s.accepted
            && Ended(s') == Ended(s) + multiset{ev}
  {
    hide Key, DeadLetters.Upsert;
  }

  /** Fewer runs keep the order of tasks. */
  lemma FewerRuns(s: State, s': State)
    requires s'.queued == s.queued && s'.accepted == s.accepted
    requires forall r | r in s'.runs :: r in s.runs && s'.runs[r] == s.runs[r]
    ensures TasksNumbered(s) ==> TasksNumbered(s')
    ensures OneTaskPerChat(s) ==> OneTaskPerChat(s')
  {
    hide Chat;
    if TasksNumbered(s) {
      forall n: nat | OpenEvent(s', n).Some?
        ensures OpenEvent(s, n) == OpenEvent(s', n)
      {
      }
    }
  }

  lemma FinishCounted(s: State, after: State, task: nat)
    requires TasksNumbered(s) && TasksCounted(s) && Task(task) in s.runs && after.runs == s.runs - {Task(task)}
    requires after.queued == s.queued && after.accepted == s.accepted
    requires Ended(after) == Ended(s) + multiset{s.runs[Task(task)].ev}
    ensures TasksCounted(after)
  {
    hide Ended;
    assert OpenEvent(s, task) == Some(s.runs[Task(task)].ev) && task < |s.accepted|;
    OpenWithout(s, after, task);
  }

  lemma FinishQueue(s: State, opts: Options, step: Step)
    requires step.FinishStep? && Valid(s.table) && QueueOk(s)
    ensures QueueOk(Finished(s, opts, step))
  {
    hide Complete, Settled, Chat, TasksNumbered, TasksCounted, OneTaskPerChat;
    if Task(step.task) in s.runs {
      var run := s.runs[Task(step.task)];
      var o := Complete(s.table, opts, run, step.env);
      var ended := WithOutcome(s, o).(runs := s.runs - {Task(step.task)});
      SettledEnds(ended, run.ev, o.ok, step.markOk, step.recordOk, step.error, step.now);
      FinishCounted(s, Finished(s, opts, step), step.task);
      FewerRuns(s, Finished(s, opts, step));
    }
  }

  /** Runs and queue agree on everything that is a task. */
  ghost predicate SameTaskState(s: State, s': State) {
    && s'.queued == s.queued && s'.accepted == s.accepted
    && s'.succeeded == s.succeeded && s'.recorded == s.recorded && s'.dropped == s.dropped
    && (forall r: RunId | r.Task? :: r in s'.runs <==> r in s.runs)
    && (forall r: RunId | r.Task? && r in s.runs :: s'.runs[r] == s.runs[r])
  }

  lemma ReplayStartKeepsTasks(s: State, step: Step)
    requires step.ReplayStart?
    ensures SameTaskState(s, ReplayStarted(s, step))
  {
    hide Begin, LetterEvent, Replayable, DeadLetters.MarkFailed;
  }

  lemma ReplayFinishKeepsTasks(s: State, opts: Options, step: Step)
    requires step.ReplayFinish? && Valid(s.table)
    ensures SameTaskState(s, ReplayFinished(s, opts, step))
  {
    hide Complete, MatrixIdsOf, FeishuIdsOf, DeadLetters.MarkReplayed, DeadLetters.MarkFailed;
  }

  lemma ReplayQueue(s: State, opts: Options, step: Step)
    requires (step.ReplayStart? || step.ReplayFinish?) && Valid(s.table) && QueueOk(s)
    ensures QueueOk(Next(s, opts, step))
  {
    hide Chat, QueueOk, SameTaskState, ReplayStarted, ReplayFinished;
    if step.ReplayStart? {
      ReplayStartKeepsTasks(s, step);
    } else {
      ReplayFinishKeepsTasks(s, opts, step);
    }
    SameTasks(s, Next(s, opts, step));
  }

  lemma SameTasks(s: State, s': State)
    requires QueueOk(s) && SameTaskState(s, s')
    ensures QueueOk(s')
  {
    hide Chat;
    assert forall n: nat :: OpenEvent(s', n) == OpenEvent(s, n);
    OpenSame(s, s');
  }

  lemma {:induction false} NextQueue(s: State, opts: Options, step: Step)
    requires Valid(s.table) && QueueOk(s)
    ensures QueueOk(Next(s, opts, step))
  {
    hide QueueOk, Enqueued, Started, Finished, ReplayStarted, ReplayFinished, Dispatch;
    match step
    case DispatchStep(ev, readOk) => EnqueueQueue(s, ev);
    case StartStep(task, readOk) => StartQueue(s, task, readOk);
    case FinishStep(_, _, _, _, _, _) => FinishQueue(s, opts, step);
    case ReplayStart(_, _, _, _) => ReplayQueue(s, opts, step);
    case ReplayFinish(_, _, _, _, _, _) => ReplayQueue(s, opts, step);
    case MatrixStep(ev, env) => SameQueue(s, Next(s, opts, step));
    case CleanStep(_, _, _) => SameQueue(s, Next(s, opts, step));
  }

  lemma SameQueue(s: State, s': State)
    requires QueueOk(s) && s'.queued == s.queued && s'.accepted == s.accepted && s'.runs == s.runs
    requires s'.succeeded == s.succeeded && s'.recorded == s.recorded && s'.dropped == s.dropped
    ensures QueueOk(s')
  {
    SameTasks(s, s');
  }

  /**
   * In every run the accepted events, each as often as it was accepted, are those waiting or running, those done, those
   * recorded as dead letters, and those whose dead letter could not be written; and no two running tasks share a chat.
   */
  lemma {:induction false} AcceptedEventsConserved(opts: Options, steps: seq<Step>)
    ensures QueueOk(Exec(opts, steps))
  {
    if steps != [] {
      AcceptedEventsConserved(opts, steps[..|steps| - 1]);
      NextQueue(Exec(opts, steps[..|steps| - 1]), opts, steps[|steps| - 1]);
    }
  }

  predicate IsAbout(ev: Event, chat: string) {
    match ev.body
    case Receive(msg) => msg.chat == chat
    case Recall(recalledIn, _) => recalledIn == chat
    case ChatChange(changed) => changed == chat
    case Disband(disbanded) => disbanded == chat
  }

  /** In every run the tasks of one chat run one after the other, whatever kinds of events they are for. */
  lemma TasksOfAChatInTurn(opts: Options, steps: seq<Step>, a: nat, b: nat, chat: string)
    ensures var runs := Exec(opts, steps).runs;
            Task(a) in runs && Task(b) in runs && IsAbout(runs[Task(a)].ev, chat) && IsAbout(runs[Task(b)].ev, chat) ==>
              a == b
  {
    hide Exec, TasksNumbered, TasksCounted;
    AcceptedEventsConserved(opts, steps);
    if Task(a) in Exec(opts, steps).runs && Task(b) in Exec(opts, steps).runs {
      AboutItsChat(Exec(opts, steps).runs[Task(a)].ev, chat);
      AboutItsChat(Exec(opts, steps).runs[Task(b)].ev, chat);
    }
  }

  lemma AboutItsChat(ev: Event, chat: string)
    ensures IsAbout(ev, chat) <==> Chat(ev) == chat
  {
  }
}
