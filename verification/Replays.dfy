/** What replays do to the dead letters of a run, and what it takes for a replayed letter to stay replayed. */
module Replays {
  import opened Wrappers
  import opened MessageTable
  import opened Bridge
  import opened Protocol
  import opened Runs
  import DeadLetters
  import DeadLetterFacts

  // ----- The dead-letter store of a run -----

  /** What a step does to the dead-letter store. */
  function LetterOp(s: State, opts: Options, step: Step): Option<DeadLetters.Op<Event>>
    requires Valid(s.table)
  {
    match step
    case FinishStep(task, _, _, recordOk, error, now) =>
      if Task(task) in s.runs && !StepOutcome(s, opts, step).ok && recordOk then
        Some(DeadLetters.Record(Key(s.runs[Task(task)].ev), s.runs[Task(task)].ev, error, now))
      else None
    case ReplayStart(_, letter, _, now) =>
      if LetterEvent(s, letter).Some? && !Replayable(LetterEvent(s, letter).value.eventType) then
        Some(DeadLetters.Mark(letter, false, UNSUPPORTED, now))
      else None
    case ReplayFinish(token, letter, _, markOk, error, now) =>
      if Replay(token, letter) in s.runs && markOk then
        Some(DeadLetters.Mark(letter, StepOutcome(s, opts, step).ok, error, now))
      else None
    case CleanStep(status, olderThan, limit) => Some(DeadLetters.Clean(status, olderThan, limit))
    case _ => None
  }

  lemma NextLetters(s: State, opts: Options, step: Step)
    requires Valid(s.table)
    ensures Next(s, opts, step).letters ==
            match LetterOp(s, opts, step) case None => s.letters case Some(op) => DeadLetters.Apply(s.letters, op)
  {
    hide Complete, ProcessMatrix, Begin, LetterEvent, Dispatch, Key, Replayable, DeadLetters.Upsert, DeadLetters.Cleanup,
      DeadLetters.MarkReplayed, DeadLetters.MarkFailed;
  }

  lemma {:induction false} LettersValid(opts: Options, steps: seq<Step>)
    ensures DeadLetters.Valid(Exec(opts, steps).letters)
  {
    hide Next, LetterOp, DeadLetters.Apply;
    if steps != [] {
      var init := steps[..|steps| - 1];
      LettersValid(opts, init);
      NextLetters(Exec(opts, init), opts, steps[|steps| - 1]);
      if LetterOp(Exec(opts, init), opts, steps[|steps| - 1]).Some? {
        DeadLetterFacts.ApplyValid(Exec(opts, init).letters, LetterOp(Exec(opts, init), opts, steps[|steps| - 1]).value);
      }
    }
  }

  predicate IsReplayed(s: State, letter: nat, key: string) {
    DeadLetterFacts.IsReplayed(s.letters, letter, key)
  }

  /**
   * A replay that ends on a replayed letter reopens it iff it failed and its mark is written. It can only have
   * started before the letter became replayed.
   */
  lemma ReplayFinishReopensIff(s: State, opts: Options, step: Step, key: string)
    requires Valid(s.table) && DeadLetters.Valid(s.letters)
    requires step.ReplayFinish? && Replay(step.token, step.letter) in s.runs && IsReplayed(s, step.letter, key)
    ensures IsReplayed(Next(s, opts, step), step.letter, key) <==> !step.markOk || StepOutcome(s, opts, step).ok
  {
    hide Next, StepOutcome;
    NextLetters(s, opts, step);
    if step.markOk {
      DeadLetterFacts.ReplayedUntilReopened(s.letters, LetterOp(s, opts, step).value, step.letter, key);
    }
  }

  // ----- One replay at a time -----

  /** No replay of a letter starts while another one is under way. */
  ghost predicate OneReplayPerLetter(s: State, step: Step) {
    step.ReplayStart? ==> forall r | r in s.runs && r.Replay? :: r.letter != step.letter
  }

  /** Replays under way are of different letters, and these are not replayed yet. */
  ghost predicate Unraced(s: State) {
    && (forall a, b | a in s.runs && b in s.runs && a.Replay? && b.Replay? && a.letter == b.letter :: a == b)
    && (forall r | r in s.runs && r.Replay? :: NotReplayed(s.letters, r.letter))
  }

  predicate NotReplayed(letters: DeadLetters.Letters<Event>, letter: nat) {
    var row := DeadLetterFacts.RowOf(letters, letter);
    row.None? || row.value.status != DeadLetters.Replayed
  }

  /** No operation but a successful mark makes a letter replayed. */
  lemma OnlyMarksReplay(letters: DeadLetters.Letters<Event>, op: DeadLetters.Op<Event>, letter: nat)
    requires DeadLetters.Valid(letters) && NotReplayed(letters, letter)
    requires op.Mark? && op.ok ==> op.id != letter
    ensures NotReplayed(DeadLetters.Apply(letters, op), letter)
  {
    match op
    case Record(key, payload, error, now) => DeadLetterFacts.UpsertRow(letters, key, payload, error, now, letter);
    case Mark(_, _, _, _) => DeadLetterFacts.MarkRow(letters, op, letter);
    case Clean(status, olderThan, limit) =>
      DeadLetterFacts.CleanupRow(letters, DeadLetters.CleanupIds(letters, status, olderThan, limit), letter);
  }

  /** The replays under way after a step: those before it, without one that ended, with one that started. */
  lemma NextReplays(s: State, opts: Options, step: Step, r: RunId)
    requires Valid(s.table) && r.Replay? && r in Next(s, opts, step).runs
    ensures r in s.runs || (step.ReplayStart? && r == Replay(step.token, step.letter))
    ensures r in s.runs ==> Next(s, opts, step).runs[r] == s.runs[r]
    ensures r !in s.runs ==> LetterEvent(s, step.letter) == Some(Next(s, opts, step).runs[r].ev) && LetterOp(s, opts, step) == None
    ensures step.ReplayFinish? ==> r != Replay(step.token, step.letter)
  {
    hide Complete, ProcessMatrix, Begin, LetterEvent, Dispatch, Key, Replayable, Chat, DeadLetters.Upsert,
      DeadLetters.Cleanup, DeadLetters.MarkReplayed, DeadLetters.MarkFailed;
  }

  lemma NextUnraced(s: State, opts: Options, step: Step)
    requires Valid(s.table) && DeadLetters.Valid(s.letters) && Unraced(s) && OneReplayPerLetter(s, step)
    ensures Unraced(Next(s, opts, step))
  {
    hide Next, StepOutcome, NotReplayed, DeadLetters.Apply, DeadLetters.Valid, Replayable;
    var s' := Next(s, opts, step);
    NextLetters(s, opts, step);
    forall r | r in s'.runs && r.Replay?
      ensures NotReplayed(s'.letters, r.letter)
    {
      NextReplays(s, opts, step, r);
      if r !in s.runs {
        PendingNotReplayed(s, r.letter);
      } else if LetterOp(s, opts, step).Some? {
        OnlyMarksReplay(s.letters, LetterOp(s, opts, step).value, r.letter);
      }
    }
    forall a, b | a in s'.runs && b in s'.runs && a.Replay? && b.Replay? && a.letter == b.letter
      ensures a == b
    {
      NextReplays(s, opts, step, a);
      NextReplays(s, opts, step, b);
    }
  }

  lemma PendingNotReplayed(s: State, letter: nat)
    requires LetterEvent(s, letter).Some?
    ensures NotReplayed(s.letters, letter)
  {
  }

  ghost predicate ReplaysOneByOne(opts: Options, steps: seq<Step>) {
    forall k | 0 <= k < |steps| :: OneReplayPerLetter(Exec(opts, steps[..k]), steps[k])
  }

  lemma OneByOneInit(opts: Options, steps: seq<Step>)
    requires ReplaysOneByOne(opts, steps) && steps != []
    ensures ReplaysOneByOne(opts, steps[..|steps| - 1])
    ensures OneReplayPerLetter(Exec(opts, steps[..|steps| - 1]), steps[|steps| - 1])
  {
    hide Exec, OneReplayPerLetter;
    var init := steps[..|steps| - 1];
    forall k | 0 <= k < |init|
      ensures OneReplayPerLetter(Exec(opts, init[..k]), init[k])
    {
      assert init[..k] == steps[..k];
    }
  }

  lemma {:induction false} RunUnraced(opts: Options, steps: seq<Step>)
    requires ReplaysOneByOne(opts, steps)
    ensures Unraced(Exec(opts, steps))
  {
    hide Next, Unraced, OneReplayPerLetter, ReplaysOneByOne;
    if steps == [] {
      NoRace();
    } else {
      OneByOneInit(opts, steps);
      RunUnraced(opts, steps[..|steps| - 1]);
      LettersValid(opts, steps[..|steps| - 1]);
      NextUnraced(Exec(opts, steps[..|steps| - 1]), opts, steps[|steps| - 1]);
    }
  }

  lemma NoRace()
    ensures Unraced(INIT)
  {
  }

  // ----- Replayed letters are final -----

  /** The step records the letter's key anew or cleans the letter up. */
  predicate Renews(s: State, opts: Options, step: Step, letter: nat, key: string)
    requires Valid(s.table)
  {
    match LetterOp(s, opts, step)
    case None => false
    case Some(op) => !op.Mark? && DeadLetterFacts.Reopens(s.letters, op, letter, key)
  }

  lemma StepKeepsReplayed(s: State, opts: Options, step: Step, letter: nat, key: string)
    requires Valid(s.table) && DeadLetters.Valid(s.letters) && Unraced(s) && IsReplayed(s, letter, key)
    ensures IsReplayed(Next(s, opts, step), letter, key) <==> !Renews(s, opts, step, letter, key)
    ensures !Renews(s, opts, step, letter, key) ==>
              DeadLetterFacts.RowOf(Next(s, opts, step).letters, letter) == DeadLetterFacts.RowOf(s.letters, letter)
  {
    hide Next, StepOutcome, DeadLetters.Apply, DeadLetters.Valid, DeadLetterFacts.Reopens, Replayable, Key;
    NextLetters(s, opts, step);
    if LetterOp(s, opts, step).Some? {
      var op := LetterOp(s, opts, step).value;
      if op.Mark? {
        DeadLetterFacts.MarkRow(s.letters, op, letter);
      } else {
        DeadLetterFacts.ReplayedUntilReopened(s.letters, op, letter, key);
      }
    }
  }

  /**
   * Replayed is final: in every run whose replays of one letter do not overlap, a replayed letter stays exactly as it
   * is until its key is recorded anew or the letter is cleaned up.
   */
  lemma {:induction false} ReplayedIsFinal(opts: Options, steps: seq<Step>, k: nat, letter: nat, key: string)
    requires ReplaysOneByOne(opts, steps) && k <= |steps| && IsReplayed(Exec(opts, steps[..k]), letter, key)
    requires forall j | k <= j < |steps| :: !Renews(Exec(opts, steps[..j]), opts, steps[j], letter, key)
    ensures IsReplayed(Exec(opts, steps), letter, key)
    ensures DeadLetterFacts.RowOf(Exec(opts, steps).letters, letter) == DeadLetterFacts.RowOf(Exec(opts, steps[..k]).letters, letter)
  {
    hide Next, Unraced, OneReplayPerLetter, ReplaysOneByOne, Renews, IsReplayed, DeadLetterFacts.RowOf;
    if k == |steps| {
      assert steps[..k] == steps;
    } else {
      var init, last := steps[..|steps| - 1], steps[|steps| - 1];
      assert init[..k] == steps[..k];
      forall j | k <= j < |init|
        ensures !Renews(Exec(opts, init[..j]), opts, init[j], letter, key)
      {
        assert init[..j] == steps[..j];
      }
      OneByOneInit(opts, steps);
      ReplayedIsFinal(opts, init, k, letter, key);
      RunUnraced(opts, init);
      LettersValid(opts, init);
      assert steps[..|steps| - 1] == init;
      StepKeepsReplayed(Exec(opts, init), opts, last, letter, key);
    }
  }

  /**
   * The step answers a replay request with Ok: the letter was replayed already, or its run succeeded and was
   * marked.
   */
  predicate AnswersOk(s: State, opts: Options, step: Step, letter: nat)
    requires Valid(s.table)
  {
    var row := DeadLetterFacts.RowOf(s.letters, letter);
    || (step.ReplayStart? && step.letter == letter && row.Some? && row.value.status == DeadLetters.Replayed)
    || (&& step.ReplayFinish? && step.letter == letter && Replay(step.token, letter) in s.runs
        && step.markOk && StepOutcome(s, opts, step).ok)
  }

  lemma OkMeansReplayed(s: State, opts: Options, step: Step, letter: nat, key: string)
    requires Valid(s.table) && DeadLetters.Valid(s.letters) && AnswersOk(s, opts, step, letter)
    requires var row := DeadLetterFacts.RowOf(s.letters, letter); row.Some? && row.value.key == key
    ensures IsReplayed(Next(s, opts, step), letter, key)
  {
    hide Next, StepOutcome, Replayable;
    NextLetters(s, opts, step);
    if step.ReplayFinish? {
      DeadLetterFacts.MarkRow(s.letters, LetterOp(s, opts, step).value, letter);
    }
  }

  /**
   * A replay answered with Ok, alone or in a batch, leaves its letter replayed to the end of the run, whatever tasks,
   * Matrix events and replays of other letters happen meanwhile, if no replay of the letter overlaps another and the
   * letter is neither recorded anew nor cleaned up.
   */
  lemma OkAnswersHold(opts: Options, steps: seq<Step>, k: nat, letter: nat, key: string)
    requires ReplaysOneByOne(opts, steps) && k < |steps| && AnswersOk(Exec(opts, steps[..k]), opts, steps[k], letter)
    requires var row := DeadLetterFacts.RowOf(Exec(opts, steps[..k]).letters, letter); row.Some? && row.value.key == key
    requires forall j | k < j < |steps| :: !Renews(Exec(opts, steps[..j]), opts, steps[j], letter, key)
    ensures IsReplayed(Exec(opts, steps), letter, key)
  {
    hide Exec, Next, ReplaysOneByOne, Renews, IsReplayed, AnswersOk;
    LettersValid(opts, steps[..k]);
    OkMeansReplayed(Exec(opts, steps[..k]), opts, steps[k], letter, key);
    ExecStep(opts, steps, k);
    ReplayedIsFinal(opts, steps, k + 1, letter, key);
  }

  // ----- Replayed means handled -----

  /** No task records another event under the key of a letter while the letter is being replayed. */
  ghost predicate RecordsApart(s: State, opts: Options, step: Step)
    requires Valid(s.table)
  {
    var op := LetterOp(s, opts, step);
    op.Some? && op.value.Record? ==>
      forall r | r in s.runs && r.Replay? && HasKey(s.letters, r.letter, op.value.key) :: s.runs[r].ev == op.value.payload
  }

  predicate HasKey(letters: DeadLetters.Letters<Event>, letter: nat, key: string) {
    var row := DeadLetterFacts.RowOf(letters, letter);
    row.Some? && row.value.key == key
  }

  /** The step ends a replay of the letter that handled this event with success. */
  predicate Handles(s: State, opts: Options, step: Step, letter: nat, ev: Event)
    requires Valid(s.table)
  {
    && step.ReplayFinish? && step.letter == letter && Replay(step.token, letter) in s.runs
    && s.runs[Replay(step.token, letter)].ev == ev && StepOutcome(s, opts, step).ok
  }

  predicate PayloadIs(letters: DeadLetters.Letters<Event>, letter: nat, ev: Event) {
    var row := DeadLetterFacts.RowOf(letters, letter);
    row.Some? ==> row.value.payload == ev
  }

  /** Each replay under way handles what its letter holds; letters under way have ids given out already. */
  ghost predicate PayloadsKept(s: State) {
    forall r | r in s.runs && r.Replay? :: PayloadIs(s.letters, r.letter, s.runs[r].ev) && r.letter < s.letters.nextId
  }

  lemma PayloadAfter(letters: DeadLetters.Letters<Event>, op: DeadLetters.Op<Event>, letter: nat, ev: Event)
    requires DeadLetters.Valid(letters) && PayloadIs(letters, letter, ev) && letter < letters.nextId
    requires op.Record? && HasKey(letters, letter, op.key) ==> op.payload == ev
    ensures PayloadIs(DeadLetters.Apply(letters, op), letter, ev) && letter < DeadLetters.Apply(letters, op).nextId
  {
    match op
    case Record(key, payload, error, now) =>
      DeadLetterFacts.UpsertRow(letters, key, payload, error, now, letter);
      if DeadLetters.IndexOfKey(letters.rows, key).Some? {
        DeadLetterFacts.RowAt(letters, DeadLetters.IndexOfKey(letters.rows, key).value);
      }
    case Mark(_, _, _, _) => DeadLetterFacts.MarkRow(letters, op, letter);
    case Clean(status, olderThan, limit) =>
      DeadLetterFacts.CleanupRow(letters, DeadLetters.CleanupIds(letters, status, olderThan, limit), letter);
  }

  lemma NextPayloads(s: State, opts: Options, step: Step)
    requires Valid(s.table) && DeadLetters.Valid(s.letters) && PayloadsKept(s) && RecordsApart(s, opts, step)
    ensures PayloadsKept(Next(s, opts, step))
  {
    hide Next, StepOutcome, PayloadIs, HasKey, LetterOp, DeadLetters.Apply, DeadLetters.Valid;
    var s' := Next(s, opts, step);
    NextLetters(s, opts, step);
    forall r | r in s'.runs && r.Replay?
      ensures PayloadIs(s'.letters, r.letter, s'.runs[r].ev) && r.letter < s'.letters.nextId
    {
      NextReplays(s, opts, step, r);
      if r !in s.runs {
        PayloadAtStart(s, r.letter);
      } else if LetterOp(s, opts, step).Some? {
        PayloadAfter(s.letters, LetterOp(s, opts, step).value, r.letter, s.runs[r].ev);
      }
    }
  }

  lemma PayloadAtStart(s: State, letter: nat)
    requires LetterEvent(s, letter).Some? && DeadLetters.Valid(s.letters)
    ensures PayloadIs(s.letters, letter, LetterEvent(s, letter).value) && letter < s.letters.nextId
  {
  }

  ghost predicate AllRecordsApart(opts: Options, steps: seq<Step>) {
    forall k | 0 <= k < |steps| :: RecordsApart(Exec(opts, steps[..k]), opts, steps[k])
  }

  lemma RecordsApartInit(opts: Options, steps: seq<Step>)
    requires AllRecordsApart(opts, steps) && steps != []
    ensures AllRecordsApart(opts, steps[..|steps| - 1])
    ensures RecordsApart(Exec(opts, steps[..|steps| - 1]), opts, steps[|steps| - 1])
  {
    hide Exec, RecordsApart;
    var init := steps[..|steps| - 1];
    forall k | 0 <= k < |init|
      ensures RecordsApart(Exec(opts, init[..k]), opts, init[k])
    {
      assert init[..k] == steps[..k];
    }
  }

  lemma {:induction false} RunPayloads(opts: Options, steps: seq<Step>)
    requires AllRecordsApart(opts, steps)
    ensures PayloadsKept(Exec(opts, steps))
  {
    hide Next, PayloadIs, RecordsApart, AllRecordsApart;
    if steps != [] {
      RecordsApartInit(opts, steps);
      RunPayloads(opts, steps[..|steps| - 1]);
      LettersValid(opts, steps[..|steps| - 1]);
      NextPayloads(Exec(opts, steps[..|steps| - 1]), opts, steps[|steps| - 1]);
    }
  }

  /** A letter that is replayed after a step was so before, with the same payload, or the step handled its payload. */
  lemma StepHandles(s: State, opts: Options, step: Step, letter: nat)
    requires Valid(s.table) && DeadLetters.Valid(s.letters) && PayloadsKept(s)
    requires !NotReplayed(Next(s, opts, step).letters, letter)
    ensures var after := DeadLetterFacts.RowOf(Next(s, opts, step).letters, letter).value.payload;
            || (!NotReplayed(s.letters, letter) && DeadLetterFacts.RowOf(s.letters, letter).value.payload == after)
            || Handles(s, opts, step, letter, after)
  {
    hide Next, StepOutcome, DeadLetters.Apply, DeadLetters.Valid, Replayable, Key;
    NextLetters(s, opts, step);
    if LetterOp(s, opts, step).Some? {
      var op := LetterOp(s, opts, step).value;
      match op
      case Record(key, payload, error, now) => DeadLetterFacts.UpsertRow(s.letters, key, payload, error, now, letter);
        RecordedPending(s.letters, key, payload, error, now, letter);
      case Mark(_, _, _, _) => DeadLetterFacts.MarkRow(s.letters, op, letter);
      case Clean(status, olderThan, limit) =>
        CleanedRow(s.letters, status, olderThan, limit, letter);
    }
  }

  lemma RecordedPending(letters: DeadLetters.Letters<Event>, key: string, payload: Event, error: string, now: int,
                        letter: nat)
    requires DeadLetters.Valid(letters)
    ensures var op := DeadLetters.Record(key, payload, error, now); var row := DeadLetterFacts.RowOf(DeadLetters.Apply(letters, op), letter);
            row == DeadLetterFacts.RowOf(letters, letter) || (row.Some? && row.value.status == DeadLetters.Pending)
  {
    DeadLetterFacts.UpsertRow(letters, key, payload, error, now, letter);
  }

  lemma CleanedRow(letters: DeadLetters.Letters<Event>, status: Option<DeadLetters.Status>, olderThan: Option<int>,
                   limit: int, letter: nat)
    requires DeadLetters.Valid(letters)
    ensures var row := DeadLetterFacts.RowOf(DeadLetters.Apply(letters, DeadLetters.Clean(status, olderThan, limit)), letter);
            row.None? || row == DeadLetterFacts.RowOf(letters, letter)
  {
    DeadLetterFacts.CleanupRow(letters, DeadLetters.CleanupIds(letters, status, olderThan, limit), letter);
  }

  /**
   * Replayed means handled: in every run in which no task records another event under a letter's key while the letter
   * is being replayed, the payload a replayed letter holds is one that a replay of this letter handled with success.
   */
  lemma {:induction false} ReplayedMeansHandled(opts: Options, steps: seq<Step>, letter: nat) returns (k: nat)
    requires AllRecordsApart(opts, steps) && !NotReplayed(Exec(opts, steps).letters, letter)
    ensures k < |steps|
    ensures Handles(Exec(opts, steps[..k]), opts, steps[k], letter, DeadLetterFacts.RowOf(Exec(opts, steps).letters, letter).value.payload)
  {
    hide Next, RecordsApart, AllRecordsApart, Handles, PayloadIs, DeadLetterFacts.RowOf;
    if steps == [] {
      NoLetters(letter);
      assert false;
    } else {
      var init, last := steps[..|steps| - 1], steps[|steps| - 1];
      RecordsApartInit(opts, steps);
      RunPayloads(opts, init);
      LettersValid(opts, init);
      StepHandles(Exec(opts, init), opts, last, letter);
      if Handles(Exec(opts, init), opts, last, letter, DeadLetterFacts.RowOf(Exec(opts, steps).letters, letter).value.payload) {
        k := |init|;
      } else {
        k := ReplayedMeansHandled(opts, init, letter);
        assert steps[..k] == init[..k];
      }
    }
  }

  lemma NoLetters(letter: nat)
    ensures NotReplayed(INIT.letters, letter)
  {
  }
}
