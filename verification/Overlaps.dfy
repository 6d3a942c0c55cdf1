/** Two runs from the start that show what overlapping replays do when every other assumption is met. */
module Overlaps {
  import opened Wrappers
  import opened MessageTable
  import opened Bridge
  import opened Protocol
  import opened Ledger
  import opened Outcomes
  import opened Runs
  import opened Delivery
  import opened Guarantees
  import opened Liveness
  import opened Replays
  import DeadLetters
  import DeadLetterFacts
  import Puppet

  /** An event that fails once because its duplicate check cannot be read, and becomes letter 1. */
  function Failing(ev: Event, env: HandlerEnv, now: int): seq<Step> {
    [DispatchStep(ev, true), StartStep(0, false), FinishStep(0, env, true, true, "unread", now)]
  }

  function Recorded1(ev: Event, now: int): State {
    State(EMPTY, {}, [], DeadLetters.Letters([DeadLetters.Letter(1, Key(ev), ev, "unread", DeadLetters.Pending, 0, now)], 2),
          map[], [ev], map[], [], [ev], [], MessageIds(ev), {})
  }

  lemma FailingRecords(opts: Options, ev: Event, env: HandlerEnv, now: int)
    requires Dispatchable(ev) && ev.body.Receive?
    ensures Valid(INIT.table)
    ensures var steps := Failing(ev, env, now);
            && Valid(Next(INIT, opts, steps[0]).table)
            && Valid(Next(Next(INIT, opts, steps[0]), opts, steps[1]).table)
            && Next(INIT, opts, steps[0]).runs == map[]
            && Next(Next(INIT, opts, steps[0]), opts, steps[1]).matrixIds == {}
            && StepOutcome(Next(Next(INIT, opts, steps[0]), opts, steps[1]), opts, steps[2]).effects == []
            && Next(Next(Next(INIT, opts, steps[0]), opts, steps[1]), opts, steps[2]) == Recorded1(ev, now)
  {
    hide Dispatchable, Key, MessageIds;
    var s1 := Next(INIT, opts, DispatchStep(ev, true));
    assert s1 == INIT.(queued := map[0 := ev], accepted := [ev], feishuIds := {} + MessageIds(ev));
    assert s1.feishuIds == MessageIds(ev);
    var s2 := Next(s1, opts, StartStep(0, false));
    assert s2 == s1.(queued := map[0 := ev] - {0}, runs := map[][Task(0) := Run(ev, Fail)]);
    assert s2.queued == map[];
    var s3 := Next(s2, opts, FinishStep(0, env, true, true, "unread", now));
    assert s2.runs - {Task(0)} == map[];
    assert s3.history == [] && s3.matrixIds == {} && s3.feishuIds == MessageIds(ev);
    assert s3.letters == Recorded1(ev, now).letters;
  }

  /** A chain of states is a run. */
  lemma Chain(opts: Options, steps: seq<Step>, states: seq<State>)
    requires |states| == |steps| + 1 && states[0] == INIT && forall k | 0 <= k < |states| :: Valid(states[k].table)
    requires forall k | 0 <= k < |steps| :: states[k + 1] == Next(states[k], opts, steps[k])
    ensures forall k | 0 <= k <= |steps| :: Exec(opts, steps[..k]) == states[k]
  {
    hide Next, Exec, Valid;
    var k := 0;
    EmptyRun(opts);
    assert steps[..0] == [];
    while k < |steps|
      invariant 0 <= k <= |steps|
      invariant forall j | 0 <= j <= k :: Exec(opts, steps[..j]) == states[j]
    {
      ExecStep(opts, steps, k);
      k := k + 1;
    }
  }

  // ----- A failed replay undoes a successful one -----

  /** Two replays of letter 1: the first cannot read, the second succeeds, then the first ends. */
  function Racing(ev: Event, env: HandlerEnv, now: int): seq<Step> {
    Failing(ev, env, now) +
    [ReplayStart(1, 1, false, now), ReplayStart(2, 1, true, now), ReplayFinish(2, 1, env, true, "", now),
     ReplayFinish(1, 1, env, true, "unread", now)]
  }

  lemma RacingStates(opts: Options, ev: Event, env: HandlerEnv, now: int) returns (s4: State, s5: State, s6: State,
                     s7: State)
    requires Dispatchable(ev) && Replayable(ev.eventType) && ev.body.Receive?
    requires CanDeliver(EMPTY, opts.bot, ev.body.msg, env.message)
    ensures s4 == Next(Recorded1(ev, now), opts, ReplayStart(1, 1, false, now)) && Valid(s4.table)
    ensures s5 == Next(s4, opts, ReplayStart(2, 1, true, now)) && Valid(s5.table)
    ensures s6 == Next(s5, opts, ReplayFinish(2, 1, env, true, "", now)) && Valid(s6.table)
    ensures s7 == Next(s6, opts, ReplayFinish(1, 1, env, true, "unread", now)) && Valid(s7.table)
    ensures s4.runs == map[Replay(1, 1) := Run(ev, Fail)] && s5.matrixIds == {} && s4.letters == Recorded1(ev, now).letters
    ensures IsReplayed(s6, 1, Key(ev))
    ensures StepOutcome(s6, opts, ReplayFinish(1, 1, env, true, "unread", now)).effects == []
    ensures DeadLetterFacts.RowOf(s7.letters, 1).Some? && DeadLetterFacts.RowOf(s7.letters, 1).value.status == DeadLetters.Failed
  {
    hide Key, Dispatchable, Replayable, CanDeliver, MessageIds, Deliver;
    var s3 := Recorded1(ev, now);
    LetterOne(ev, now);
    s4 := Next(s3, opts, ReplayStart(1, 1, false, now));
    assert s4 == s3.(runs := map[Replay(1, 1) := Run(ev, Fail)]);
    s5 := Next(s4, opts, ReplayStart(2, 1, true, now));
    assert s5 == s4.(runs := s4.runs[Replay(2, 1) := Run(ev, Proceed)]);
    var last := ReplayFinish(2, 1, env, true, "", now);
    DeliversOk(opts, ev, env);
    NextValid(s5, opts, last);
    s6 := Next(s5, opts, last);
    NextLetters(s5, opts, last);
    DeadLetterFacts.MarkRow(s5.letters, DeadLetters.Mark(1, true, "", now), 1);
    EndRuns(s5, opts, last, Replay(2, 1));
    assert Replay(1, 1) in s6.runs && s6.runs[Replay(1, 1)] == Run(ev, Fail);
    var failing := ReplayFinish(1, 1, env, true, "unread", now);
    NextValid(s6, opts, failing);
    s7 := Next(s6, opts, failing);
    NextLetters(s6, opts, failing);
    DeadLetterFacts.MarkRow(s6.letters, DeadLetters.Mark(1, false, "unread", now), 1);
  }

  lemma LetterOne(ev: Event, now: int)
    ensures LetterEvent(Recorded1(ev, now), 1) == Some(ev)
    ensures DeadLetters.Valid(Recorded1(ev, now).letters)
    ensures var row := DeadLetterFacts.RowOf(Recorded1(ev, now).letters, 1); row.Some? && row.value.key == Key(ev)
  {
    hide Key;
    var rows := Recorded1(ev, now).letters.rows;
    assert rows[|rows| - 1].id == 1;
  }

  lemma DeliversOk(opts: Options, ev: Event, env: HandlerEnv)
    requires ev.body.Receive? && CanDeliver(EMPTY, opts.bot, ev.body.msg, env.message)
    ensures Complete(EMPTY, opts, Run(ev, Proceed), env).ok
  {
  }

  lemma {:induction false} RacingIsGood(opts: Options, self: Puppet.Identity, chatOf: string -> string, ev: Event,
                                        env: HandlerEnv,
                                       now: int, states: seq<State>)
    requires Configured(opts, self) && ev.body.Receive? && ev.body.msg.chat == chatOf(ev.body.msg.id)
    requires env.message.mapped == None && env.message.insertOk
    requires var steps := Racing(ev, env, now);
             && |states| == 8 && (forall k | 0 <= k < 8 :: Valid(states[k].table))
             && (forall k | 0 <= k <= 7 :: Exec(opts, steps[..k]) == states[k])
    requires states[0].runs == map[] && states[1].runs == map[] && states[2].matrixIds == {} && states[5].matrixIds == {}
    requires states[3].runs == map[] && states[4].runs == map[Replay(1, 1) := Run(ev, Fail)]
    requires StepOutcome(states[6], opts, Racing(ev, env, now)[6]).effects == []
    ensures GoodRun(opts, self, chatOf, Racing(ev, env, now))
  {
    hide Configured, Exec, Next, StepOutcome, Valid, Key;
    var steps := Racing(ev, env, now);
    NoIds();
    forall k | 0 <= k < |steps|
      ensures GoodStep(Exec(opts, steps[..k]), opts, chatOf, steps[k])
    {
      assert k == 0 || k == 1 || k == 2 || k == 3 || k == 4 || k == 5 || k == 6;
      assert Exec(opts, steps[..k]) == states[k];
    }
    assert MappedRun(self, steps);
  }

  /**
   * Replayed is not final when replays overlap: in this good run letter 1 is replayed after six steps, nothing
   * records its key or cleans it up, and the last step makes it failed again.
   */
  lemma {:induction false} OverlappingReplaysReopen(opts: Options, self: Puppet.Identity, chatOf: string -> string,
                                                    ev: Event,
                                                    env: HandlerEnv, now: int)
    requires Configured(opts, self) && Dispatchable(ev) && Replayable(ev.eventType)
    requires ev.body.Receive? && ev.body.msg.chat == chatOf(ev.body.msg.id)
    requires env.message.mapped == None && CanDeliver(EMPTY, opts.bot, ev.body.msg, env.message)
    ensures var steps := Racing(ev, env, now);
            && GoodRun(opts, self, chatOf, steps)
            && IsReplayed(Exec(opts, steps[..6]), 1, Key(ev))
            && !Renews(Exec(opts, steps[..6]), opts, steps[6], 1, Key(ev))
            && !IsReplayed(Exec(opts, steps), 1, Key(ev))
  {
    hide Configured, Exec, Next, Key, Dispatchable, Replayable, StepOutcome, Valid;
    var steps := Racing(ev, env, now);
    FailingRecords(opts, ev, env, now);
    var s1 := Next(INIT, opts, steps[0]);
    var s2 := Next(s1, opts, steps[1]);
    var s4, s5, s6, s7 := RacingStates(opts, ev, env, now);
    var states := [INIT, s1, s2, Recorded1(ev, now), s4, s5, s6, s7];
    Chain(opts, steps, states);
    RacingIsGood(opts, self, chatOf, ev, env, now, states);
    assert steps[..7] == steps;
  }

  // ----- A replay and a task deliver one message twice -----

  /** The failed event is sent again and waits as task 1 while letter 1 is replayed: both find the message unmapped. */
  function Twice(ev: Event, env: HandlerEnv, other: HandlerEnv, now: int): seq<Step> {
    Failing(ev, env, now) +
    [DispatchStep(ev, true), StartStep(1, true), ReplayStart(1, 1, true, now), FinishStep(1, env, true, true, "", now),
     ReplayFinish(1, 1, other, true, "", now)]
  }

  lemma TwiceStates(opts: Options, ev: Event, now: int) returns (s4: State, s5: State, s6: State)
    requires Dispatchable(ev) && Replayable(ev.eventType) && ev.body.Receive?
    ensures s4 == Next(Recorded1(ev, now), opts, DispatchStep(ev, true)) && Valid(s4.table)
    ensures s5 == Next(s4, opts, StartStep(1, true)) && Valid(s5.table)
    ensures s6 == Next(s5, opts, ReplayStart(1, 1, true, now)) && Valid(s6.table)
    ensures s6.runs == map[Task(1) := Run(ev, Proceed), Replay(1, 1) := Run(ev, Proceed)] && s6.history == []
    ensures s6.table == EMPTY && s4.runs == map[] && s6.matrixIds == {}
    ensures LetterEvent(s5, 1) == Some(ev) && s5.runs == map[Task(1) := Run(ev, Proceed)]
  {
    hide Key, Dispatchable, Replayable, MessageIds;
    var s3 := Recorded1(ev, now);
    LetterOne(ev, now);
    s4 := Next(s3, opts, DispatchStep(ev, true));
    assert s4 == s3.(queued := map[1 := ev], accepted := [ev] + [ev], feishuIds := s3.feishuIds + MessageIds(ev));
    s5 := Next(s4, opts, StartStep(1, true));
    assert s5 == s4.(queued := map[1 := ev] - {1}, runs := map[Task(1) := Run(ev, Proceed)]);
    s6 := Next(s5, opts, ReplayStart(1, 1, true, now));
    assert LetterEvent(s5, 1) == Some(ev);
    assert s6 == s5.(runs := s5.runs[Replay(1, 1) := Run(ev, Proceed)]);
  }

  lemma DeliveredIds(t: Table, opts: Options, ev: Event, env: HandlerEnv)
    requires Valid(t) && ev.body.Receive? && Prepare(opts.bot, ev.body.msg, env.message).Some?
    ensures forall id | id in MatrixIdsOf(Complete(t, opts, Run(ev, Proceed), env).effects) ::
              id in MatrixEvents(opts.bot, ev.body.msg, env.message)
  {
    hide Prepare, MatrixEvents, ReplyTarget;
    var events := MatrixEvents(opts.bot, ev.body.msg, env.message);
    var effects := Deliver(t, opts.bot, ev.body.msg, env.message).effects;
    forall k | 0 <= k < |effects| && effects[k].MatrixMessage?
      ensures effects[k].event in events
    {
    }
  }

  lemma EndIds(s: State, opts: Options, step: Step, id: RunId)
    requires Valid(s.table) && id in s.runs && Ends(step, id)
    ensures Next(s, opts, step).matrixIds == s.matrixIds + MatrixIdsOf(StepOutcome(s, opts, step).effects)
  {
    hide Complete, MatrixIdsOf, FeishuIdsOf, Key, DeadLetters.Upsert, DeadLetters.MarkReplayed, DeadLetters.MarkFailed;
  }

  /** The two deliveries create different Matrix events, as an honest homeserver's do. */
  predicate Distinct(opts: Options, ev: Event, env: HandlerEnv, other: HandlerEnv) {
    && ev.body.Receive?
    && Prepare(opts.bot, ev.body.msg, env.message).Some? && Prepare(opts.bot, ev.body.msg, other.message).Some?
    && forall id | id in MatrixEvents(opts.bot, ev.body.msg, env.message) ::
         id !in MatrixEvents(opts.bot, ev.body.msg, other.message)
  }

  lemma {:induction false} TwiceIsGoodButFor(opts: Options, chatOf: string -> string, ev: Event, env: HandlerEnv,
                                             other: HandlerEnv,
                                            now: int, states: seq<State>)
    requires ev.body.Receive? && ev.body.msg.chat == chatOf(ev.body.msg.id) && Distinct(opts, ev, env, other)
    requires env.message.insertOk && other.message.insertOk
    requires |states| == 9 && forall k | 0 <= k < 9 :: Valid(states[k].table)
    requires states[1].runs == map[] && states[4].runs == map[] && states[2].matrixIds == {} && states[6].matrixIds == {}
    requires states[6].runs == map[Task(1) := Run(ev, Proceed), Replay(1, 1) := Run(ev, Proceed)]
    requires states[7] == Next(states[6], opts, Twice(ev, env, other, now)[6])
    ensures forall k | 0 <= k < 8 && k != 5 :: GoodStep(states[k], opts, chatOf, Twice(ev, env, other, now)[k])
  {
    hide Next, Valid, Key, Distinct;
    var steps := Twice(ev, env, other, now);
    assert Prepare(opts.bot, ev.body.msg, env.message).Some? && Prepare(opts.bot, ev.body.msg, other.message).Some? by {
      DistinctPrepared(opts, ev, env, other);
    }
    EndIds(states[6], opts, steps[6], Task(1));
    EndRuns(states[6], opts, steps[6], Task(1));
    DeliveredIds(states[6].table, opts, ev, env);
    DeliveredIds(states[7].table, opts, ev, other);
    DistinctApart(opts, ev, env, other, states[7].matrixIds, MatrixIdsOf(StepOutcome(states[7], opts, steps[7]).effects));
    forall k | 0 <= k < 8 && k != 5
      ensures GoodStep(states[k], opts, chatOf, steps[k])
    {
      assert k == 0 || k == 1 || k == 2 || k == 3 || k == 4 || k == 6 || k == 7;
    }
  }

  lemma DistinctPrepared(opts: Options, ev: Event, env: HandlerEnv, other: HandlerEnv)
    requires Distinct(opts, ev, env, other)
    ensures ev.body.Receive?
    ensures Prepare(opts.bot, ev.body.msg, env.message).Some? && Prepare(opts.bot, ev.body.msg, other.message).Some?
  {
  }

  lemma DistinctApart(opts: Options, ev: Event, env: HandlerEnv, other: HandlerEnv, a: set<string>, b: set<string>)
    requires Distinct(opts, ev, env, other)
    requires forall id | id in a :: id in MatrixEvents(opts.bot, ev.body.msg, env.message)
    requires forall id | id in b :: id in MatrixEvents(opts.bot, ev.body.msg, other.message)
    ensures a !! b
  {
  }

  lemma {:induction false} TwiceChain(opts: Options, ev: Event, env: HandlerEnv, other: HandlerEnv, now: int)
    returns (states: seq<State>)
    requires Dispatchable(ev) && Replayable(ev.eventType) && ev.body.Receive?
    ensures |states| == 9 && forall k | 0 <= k < 9 :: Valid(states[k].table)
    ensures forall k | 0 <= k <= 8 :: Exec(opts, Twice(ev, env, other, now)[..k]) == states[k]
    ensures states[1].runs == map[] && states[4].runs == map[] && states[2].matrixIds == {} && states[6].matrixIds == {}
    ensures states[6].runs == map[Task(1) := Run(ev, Proceed), Replay(1, 1) := Run(ev, Proceed)]
    ensures states[6].history == [] && states[6].table == EMPTY
    ensures LetterEvent(states[5], 1) == Some(ev) && Task(1) in states[5].runs && states[5].runs[Task(1)] == Run(ev, Proceed)
    ensures states[7] == Next(states[6], opts, Twice(ev, env, other, now)[6])
    ensures states[8] == Next(states[7], opts, Twice(ev, env, other, now)[7])
  {
    hide Exec, Next, Key, Dispatchable, Replayable, StepOutcome, Valid;
    var steps := Twice(ev, env, other, now);
    FailingRecords(opts, ev, env, now);
    var s1 := Next(INIT, opts, steps[0]);
    var s2 := Next(s1, opts, steps[1]);
    var s4, s5, s6 := TwiceStates(opts, ev, now);
    NextValid(s6, opts, steps[6]);
    var s7 := Next(s6, opts, steps[6]);
    NextValid(s7, opts, steps[7]);
    states := [INIT, s1, s2, Recorded1(ev, now), s4, s5, s6, s7, Next(s7, opts, steps[7])];
    Chain(opts, steps, states);
  }

  /**
   * Without `ReplaysApart` at the start of one replay, and with every other assumption met at every step, this run from
   * the start delivers its message twice although it is never unmapped.
   */
  lemma {:induction false} ReplayAndTaskDeliverTwice(opts: Options, chatOf: string -> string, ev: Event,
                                                     env: HandlerEnv,
                                                    other: HandlerEnv, now: int)
    requires Dispatchable(ev) && Replayable(ev.eventType)
    requires ev.body.Receive? && ev.body.msg.chat == chatOf(ev.body.msg.id) && Distinct(opts, ev, env, other)
    requires CanDeliver(EMPTY, opts.bot, ev.body.msg, env.message) && CanDeliver(EMPTY, opts.bot, ev.body.msg, other.message)
    ensures var steps := Twice(ev, env, other, now);
            && Deliveries(Exec(opts, steps), ev.body.msg.id) == 2
            && (forall k | 0 <= k < |steps| && k != 5 :: GoodStep(Exec(opts, steps[..k]), opts, chatOf, steps[k]))
            && Honest(Exec(opts, steps[..5]), opts, chatOf, steps[5]) && StoreWorks(steps[5])
            && !ReplaysApart(Exec(opts, steps[..5]), steps[5])
  {
    hide Exec, Next, Key, Dispatchable, Replayable, StepOutcome, Valid, CanDeliver, Count, Sound, Distinct, LetterEvent, GoodStep;
    var m := ev.body.msg.id;
    var steps := Twice(ev, env, other, now);
    var states := TwiceChain(opts, ev, env, other, now);
    assert steps[..8] == steps;
    StoresRows(opts, ev, env);
    StoresRows(opts, ev, other);
    TwiceIsGoodButFor(opts, chatOf, ev, env, other, now, states);
    assert Delivers(states[5].runs[Task(1)], m);
    RunSound(opts, steps[..6]);
    CanSucceed(opts, ev, env);
    CanSucceed(opts, ev, other);
    OverlappingRunsDeliverTwice(states[6], opts, steps[6], steps[7], Task(1), Replay(1, 1), m);
    CountNone([], Delivered, m);
    CountNone([], Linked, m);
    LinksNothing(states[6], opts, steps[6], m);
    LinksNothing(states[7], opts, steps[7], m);
  }

  lemma StoresRows(opts: Options, ev: Event, env: HandlerEnv)
    requires ev.body.Receive? && CanDeliver(EMPTY, opts.bot, ev.body.msg, env.message)
    ensures env.message.insertOk
  {
  }

  /** The end of a Feishu-side run makes nothing in Feishu. */
  lemma LinksNothing(s: State, opts: Options, step: Step, m: string)
    requires Valid(s.table) && (step.FinishStep? || step.ReplayFinish?)
    ensures Count(Next(s, opts, step).history, Linked, m) == Count(s.history, Linked, m)
  {
    hide Next, Complete, Count;
    NextByOutcome(s, opts, step);
    var effects := StepOutcome(s, opts, step).effects;
    var id := if step.FinishStep? then Task(step.task) else Replay(step.token, step.letter);
    if id in s.runs {
      CompleteRows(s.table, opts, s.runs[id], step.env);
    }
    CountAppend(s.history, effects, Linked, m);
    CountNone(effects, Linked, m);
  }

  lemma CanSucceed(opts: Options, ev: Event, env: HandlerEnv)
    requires ev.body.Receive? && CanDeliver(EMPTY, opts.bot, ev.body.msg, env.message)
    ensures Prepare(opts.bot, ev.body.msg, env.message).Some? && MatrixEvents(opts.bot, ev.body.msg, env.message) != []
  {
  }

  // ----- A letter replayed with a payload nobody handled -----

  /** While letter 1 is replayed, another event under its key fails and takes its place in the letter. */
  function Replacing(ev: Event, other: Event, env: HandlerEnv, now: int): seq<Step> {
    Failing(ev, env, now) +
    [ReplayStart(1, 1, true, now), DispatchStep(other, true), StartStep(1, false), FinishStep(1, env, true, true, "unread", now),
     ReplayFinish(1, 1, env, true, "", now)]
  }

  lemma ReplacingStates(opts: Options, ev: Event, other: Event, env: HandlerEnv, now: int)
    returns (s4: State, s5: State, s6: State, s7: State)
    requires Dispatchable(ev) && Replayable(ev.eventType) && ev.body.Receive?
    requires Dispatchable(other) && other.body.Receive? && Key(other) == Key(ev)
    ensures s4 == Next(Recorded1(ev, now), opts, ReplayStart(1, 1, true, now)) && Valid(s4.table)
    ensures s5 == Next(s4, opts, DispatchStep(other, true)) && Valid(s5.table)
    ensures s6 == Next(s5, opts, StartStep(1, false)) && Valid(s6.table)
    ensures s7 == Next(s6, opts, FinishStep(1, env, true, true, "unread", now)) && Valid(s7.table)
    ensures s7.runs == map[Replay(1, 1) := Run(ev, Proceed)] && s7.table == EMPTY
    ensures s7.letters == DeadLetters.Letters([DeadLetters.Letter(1, Key(ev), other, "unread", DeadLetters.Pending, 0, now)], 2)
  {
    hide Key, Dispatchable, Replayable, MessageIds;
    var s3 := Recorded1(ev, now);
    LetterOne(ev, now);
    s4 := Next(s3, opts, ReplayStart(1, 1, true, now));
    assert s4 == s3.(runs := map[Replay(1, 1) := Run(ev, Proceed)]);
    s5 := Next(s4, opts, DispatchStep(other, true));
    assert s5 == s4.(queued := map[1 := other], accepted := [ev] + [other], feishuIds := s4.feishuIds + MessageIds(other));
    s6 := Next(s5, opts, StartStep(1, false));
    assert s6 == s5.(queued := map[1 := other] - {1}, runs := s5.runs[Task(1) := Run(other, Fail)]);
    var failing := FinishStep(1, env, true, true, "unread", now);
    s7 := Next(s6, opts, failing);
    EndRuns(s6, opts, failing, Task(1));
    assert s6.runs - {Task(1)} == map[Replay(1, 1) := Run(ev, Proceed)];
    NextLetters(s6, opts, failing);
    assert DeadLetters.IndexOfKey(s6.letters.rows, Key(other)) == Some(0);
  }

  /**
   * Why records must keep apart: in this run letter 1 ends replayed and holds `other`, which no replay of it
   * handled; what
   * was handled is `ev`.
   */
  lemma {:induction false} ReplayedWithoutBeingHandled(opts: Options, ev: Event, other: Event, env: HandlerEnv,
                                                       now: int)
    requires Dispatchable(ev) && Replayable(ev.eventType) && ev.body.Receive?
    requires Dispatchable(other) && other.body.Receive? && Key(other) == Key(ev) && other != ev
    requires CanDeliver(EMPTY, opts.bot, ev.body.msg, env.message)
    ensures var steps := Replacing(ev, other, env, now);
            var row := DeadLetterFacts.RowOf(Exec(opts, steps).letters, 1);
            && row.Some? && row.value.status == DeadLetters.Replayed && row.value.payload == other
            && (forall k | 0 <= k < |steps| :: !Handles(Exec(opts, steps[..k]), opts, steps[k], 1, other))
  {
    hide Exec, Next, Key, Dispatchable, Replayable, StepOutcome, Valid, CanDeliver;
    var steps := Replacing(ev, other, env, now);
    FailingRecords(opts, ev, env, now);
    var s1 := Next(INIT, opts, steps[0]);
    var s2 := Next(s1, opts, steps[1]);
    var s4, s5, s6, s7 := ReplacingStates(opts, ev, other, env, now);
    NextValid(s7, opts, steps[7]);
    var s8 := Next(s7, opts, steps[7]);
    var states := [INIT, s1, s2, Recorded1(ev, now), s4, s5, s6, s7, s8];
    Chain(opts, steps, states);
    assert steps[..8] == steps;
    NextLetters(s7, opts, steps[7]);
    FinishesOk(s7, opts, ev, env, steps[7]);
    DeadLetters1(s7.letters, ev, other, now);
    forall k | 0 <= k < |steps|
      ensures !Handles(Exec(opts, steps[..k]), opts, steps[k], 1, other)
    {
      assert steps[k].ReplayFinish? ==> k == 7;
    }
  }

  lemma FinishesOk(s: State, opts: Options, ev: Event, env: HandlerEnv, step: Step)
    requires Valid(s.table) && s.table == EMPTY && s.runs == map[Replay(1, 1) := Run(ev, Proceed)]
    requires step.ReplayFinish? && step.token == 1 && step.letter == 1 && step.env == env
    requires ev.body.Receive? && CanDeliver(EMPTY, opts.bot, ev.body.msg, env.message)
    ensures StepOutcome(s, opts, step).ok
  {
    hide CanDeliver, Complete;
    DeliversOk(opts, ev, env);
  }

  lemma DeadLetters1(letters: DeadLetters.Letters<Event>, ev: Event, other: Event, now: int)
    requires letters == DeadLetters.Letters([DeadLetters.Letter(1, Key(ev), other, "unread", DeadLetters.Pending, 0, now)], 2)
    ensures var row := DeadLetterFacts.RowOf(DeadLetters.Apply(letters, DeadLetters.Mark(1, true, "", now)), 1);
            row.Some? && row.value.status == DeadLetters.Replayed && row.value.payload == other
  {
    hide Key;
    assert DeadLetters.IndexOfId(letters.rows, 1) == Some(0);
    DeadLetterFacts.MarkRow(letters, DeadLetters.Mark(1, true, "", now), 1);
  }
}
