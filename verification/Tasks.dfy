/** What becomes of accepted events: duplicates, dead letters and their replays. */
module Tasks {
  import opened Wrappers
  import opened MessageTable
  import opened Bridge
  import opened Protocol
  import opened Outcomes
  import opened Runs
  import DeadLetters
  import DeadLetterFacts

  // ----- Duplicates -----

  /** Some task of the event with this id returned Ok. */
  predicate HasSucceeded(succeeded: seq<Event>, id: string) {
    exists k | 0 <= k < |succeeded| :: succeeded[k].id == Some(id)
  }

  ghost predicate MarksEarned(s: State) {
    forall id | FEISHU_PREFIX + id in s.processed :: HasSucceeded(s.succeeded, id)
  }

  /** Matrix event ids stay clear of the prefix under which Feishu events are marked. */
  ghost predicate IdsApart(step: Step) {
    step.MatrixStep? && step.matrix.id.Some? ==> !(FEISHU_PREFIX <= step.matrix.id.value)
  }

  lemma MoreSuccesses(s: State, s': State, ev: Event)
    requires MarksEarned(s) && s'.succeeded == s.succeeded + [ev]
    requires s'.processed <= s.processed + if ev.id.Some? then {FEISHU_PREFIX + ev.id.value} else {}
    ensures MarksEarned(s')
  {
    forall id | FEISHU_PREFIX + id in s'.processed
      ensures HasSucceeded(s'.succeeded, id)
    {
      if FEISHU_PREFIX + id in s.processed {
        var k :| 0 <= k < |s.succeeded| && s.succeeded[k].id == Some(id);
        assert s'.succeeded[k].id == Some(id);
      } else {
        assert (FEISHU_PREFIX + id)[|FEISHU_PREFIX|..] == (FEISHU_PREFIX + ev.id.value)[|FEISHU_PREFIX|..];
        assert s'.succeeded[|s.succeeded|].id == Some(id);
      }
    }
  }

  lemma NextMarks(s: State, opts: Options, step: Step)
    requires Valid(s.table) && MarksEarned(s) && IdsApart(step)
    ensures MarksEarned(Next(s, opts, step))
  {
    hide Complete, HandleMatrixKind, Begin, LetterEvent, Dispatch, HasSucceeded, Key, MarksEarned;
    var s' := Next(s, opts, step);
    if step.FinishStep? && Task(step.task) in s.runs
       && Complete(s.table, opts, s.runs[Task(step.task)], step.env).ok {
      MoreSuccesses(s, s', s.runs[Task(step.task)].ev);
    } else {
      NothingMarked(s, opts, step);
      SameMarks(s, s');
    }
  }

  /** Processing a Matrix event marks at most its own id. */
  lemma MatrixMarks(t: Table, processed: set<string>, opts: Options, ev: MatrixEvent, env: MatrixEnv, id: string)
    requires Valid(t) && (ev.id.Some? ==> !(FEISHU_PREFIX <= ev.id.value)) && FEISHU_PREFIX <= id
    ensures id in ProcessMatrix(t, processed, opts, ev, env).1 <==> id in processed
  {
    hide HandleMatrixKind;
  }

  lemma NothingMarked(s: State, opts: Options, step: Step)
    requires Valid(s.table) && IdsApart(step)
    requires step.FinishStep? && Task(step.task) in s.runs ==>
               !Complete(s.table, opts, s.runs[Task(step.task)], step.env).ok
    ensures Next(s, opts, step).succeeded == s.succeeded
    ensures forall id | FEISHU_PREFIX <= id :: id in Next(s, opts, step).processed <==> id in s.processed
  {
    hide Complete, ProcessMatrix, Begin, LetterEvent, Dispatch, Key, MatrixIdsOf, FeishuIdsOf;
    if step.MatrixStep? {
      forall id | FEISHU_PREFIX <= id
        ensures id in Next(s, opts, step).processed <==> id in s.processed
      {
        MatrixMarks(s.table, s.processed, opts, step.matrix, step.matrixEnv, id);
      }
    }
  }

  lemma SameMarks(s: State, s': State)
    requires MarksEarned(s) && s'.succeeded == s.succeeded
    requires forall id | FEISHU_PREFIX <= id :: id in s'.processed <==> id in s.processed
    ensures MarksEarned(s')
  {
  }

  /** In every run an event is answered as a duplicate only after a task with its id has returned Ok. */
  lemma {:induction false} DuplicateOnlyAfterSuccess(opts: Options, steps: seq<Step>, ev: Event, readOk: bool)
    requires forall k | 0 <= k < |steps| :: IdsApart(steps[k])
    ensures MarksEarned(Exec(opts, steps))
    ensures Dispatch(Exec(opts, steps), ev, readOk) == Duplicate ==>
              ev.id.Some? && HasSucceeded(Exec(opts, steps).succeeded, ev.id.value)
  {
    hide Next, IdsApart, HasSucceeded;
    if steps != [] {
      var init := steps[..|steps| - 1];
      DuplicateOnlyAfterSuccess(opts, init, ev, readOk);
      NextMarks(Exec(opts, init), opts, steps[|steps| - 1]);
    }
  }

  // ----- Dead letters -----

  /** The event recorded last under a key. */
  function Latest(recorded: seq<Event>, key: string): Option<Event> {
    if recorded == [] then None
    else if Key(recorded[|recorded| - 1]) == key then Some(recorded[|recorded| - 1])
    else Latest(recorded[..|recorded| - 1], key)
  }

  /** The store holds one letter per recorded key, with the event recorded last under it. */
  ghost predicate Kept(letters: DeadLetters.Letters<Event>, recorded: seq<Event>) {
    && DeadLetters.Valid(letters)
    && (forall i | 0 <= i < |letters.rows| :: Latest(recorded, letters.rows[i].key) == Some(letters.rows[i].payload))
    && (forall k | 0 <= k < |recorded| :: DeadLetters.IndexOfKey(letters.rows, Key(recorded[k])).Some?)
  }

  lemma LatestAfter(recorded: seq<Event>, ev: Event, key: string)
    ensures Latest(recorded + [ev], key) == if Key(ev) == key then Some(ev) else Latest(recorded, key)
  {
    assert (recorded + [ev])[..|recorded|] == recorded;
  }

  /** What an upsert does to keys and payloads, letter by letter. */
  lemma UpsertLetters(letters: DeadLetters.Letters<Event>, key: string, ev: Event, error: string, now: int)
    requires DeadLetters.Valid(letters)
    ensures var letters' := DeadLetters.Upsert(letters, key, ev, error, now);
            && DeadLetters.Valid(letters')
            && |letters.rows| <= |letters'.rows|
            && (forall i | 0 <= i < |letters.rows| :: letters'.rows[i].key == letters.rows[i].key)
            && (forall i | 0 <= i < |letters'.rows| ::
                  if letters'.rows[i].key == key then letters'.rows[i].payload == ev
                  else i < |letters.rows| && letters'.rows[i].payload == letters.rows[i].payload)
            && DeadLetters.IndexOfKey(letters'.rows, key).Some?
  {
    DeadLetterFacts.UpsertRow(letters, key, ev, error, now, 0);
    var letters' := DeadLetters.Upsert(letters, key, ev, error, now);
    var found := DeadLetters.IndexOfKey(letters.rows, key);
    var at := if found.Some? then found.value else |letters.rows|;
    assert letters'.rows[at].key == key;
  }

  lemma UpsertKept(letters: DeadLetters.Letters<Event>, recorded: seq<Event>, ev: Event, error: string, now: int)
    requires Kept(letters, recorded)
    ensures Kept(DeadLetters.Upsert(letters, Key(ev), ev, error, now), recorded + [ev])
  {
    hide Key, Latest, DeadLetters.Upsert, DeadLetters.Valid;
    var letters' := DeadLetters.Upsert(letters, Key(ev), ev, error, now);
    UpsertLetters(letters, Key(ev), ev, error, now);
    forall i | 0 <= i < |letters'.rows|
      ensures Latest(recorded + [ev], letters'.rows[i].key) == Some(letters'.rows[i].payload)
    {
      LatestAfter(recorded, ev, letters'.rows[i].key);
    }
    forall k | 0 <= k <= |recorded|
      ensures DeadLetters.IndexOfKey(letters'.rows, Key((recorded + [ev])[k])).Some?
    {
      if k < |recorded| {
        var i := DeadLetters.IndexOfKey(letters.rows, Key(recorded[k])).value;
        assert letters'.rows[i].key == letters.rows[i].key;
      }
    }
  }

  lemma MarkKept(letters: DeadLetters.Letters<Event>, recorded: seq<Event>, letter: nat, error: string, now: int)
    requires Kept(letters, recorded)
    ensures Kept(DeadLetters.MarkReplayed(letters, letter, now), recorded)
    ensures Kept(DeadLetters.MarkFailed(letters, letter, error, now), recorded)
  {
    hide Key, Latest;
    SameLetters(letters, DeadLetters.MarkReplayed(letters, letter, now), recorded);
    SameLetters(letters, DeadLetters.MarkFailed(letters, letter, error, now), recorded);
  }

  lemma SameLetters(a: DeadLetters.Letters<Event>, b: DeadLetters.Letters<Event>, recorded: seq<Event>)
    requires Kept(a, recorded) && |b.rows| == |a.rows| && b.nextId == a.nextId
    requires forall i | 0 <= i < |a.rows| ::
               b.rows[i].id == a.rows[i].id && b.rows[i].key == a.rows[i].key && b.rows[i].payload == a.rows[i].payload
    ensures Kept(b, recorded)
  {
    hide Key, Latest;
    forall k | 0 <= k < |recorded|
      ensures DeadLetters.IndexOfKey(b.rows, Key(recorded[k])).Some?
    {
      var i := DeadLetters.IndexOfKey(a.rows, Key(recorded[k])).value;
      assert b.rows[i].key == a.rows[i].key;
    }
  }

  lemma {:induction false} NextKept(s: State, opts: Options, step: Step)
    requires Valid(s.table) && Kept(s.letters, s.recorded) && !step.CleanStep?
    ensures Kept(Next(s, opts, step).letters, Next(s, opts, step).recorded)
  {
    hide Complete, HandleMatrixKind, Begin, LetterEvent, Dispatch, Key, Kept, DeadLetters.MarkReplayed,
      DeadLetters.MarkFailed, DeadLetters.Upsert;
    if step.FinishStep? && Task(step.task) in s.runs {
      UpsertKept(s.letters, s.recorded, s.runs[Task(step.task)].ev, step.error, step.now);
    } else if step.ReplayStart? {
      MarkKept(s.letters, s.recorded, step.letter, UNSUPPORTED, step.now);
    } else if step.ReplayFinish? {
      MarkKept(s.letters, s.recorded, step.letter, step.error, step.now);
    }
  }

  /**
   * Nothing that failed is forgotten: until somebody cleans up, every event recorded as a dead letter is in the
   * store, alone under its key, with the payload recorded last. With `AcceptedEventsConserved` no accepted event
   * is lost unless its dead letter could not be written.
   */
  lemma {:induction false} RecordedEventsKept(opts: Options, steps: seq<Step>)
    requires forall k | 0 <= k < |steps| :: !steps[k].CleanStep?
    ensures Kept(Exec(opts, steps).letters, Exec(opts, steps).recorded)
  {
    hide Next, Kept;
    if steps == [] {
      NoneKept();
    } else {
      var init := steps[..|steps| - 1];
      RecordedEventsKept(opts, init);
      NextKept(Exec(opts, init), opts, steps[|steps| - 1]);
    }
  }

  lemma NoneKept()
    ensures Kept(INIT.letters, INIT.recorded)
  {
  }

  /**
   * The dead letters of accepted events can be replayed iff the event type is not the legacy "message"; and replays know
   * no type that is not accepted.
   */
  lemma ReplayableIffNotLegacy(eventType: string)
    ensures Replayable(eventType) <==>
            eventType != "message" && exists body: Body :: Dispatchable(Event(eventType, None, body))
  {
    if Replayable(eventType) {
      var body := if eventType in RECEIVE_TYPES then Receive(Message("", "", "", [], None))
                  else if eventType in CHANGE_TYPES then ChatChange("")
                  else if eventType == "im.chat.disbanded_v1" then Disband("")
                  else Recall("", "");
      assert Dispatchable(Event(eventType, None, body));
    }
  }

  /** A handler run that nothing interrupts is the handler taken as one step. */
  lemma UninterruptedRun(t: Table, opts: Options, ev: Event, readOk: bool, env: HandlerEnv)
    requires Valid(t) && ev.body.Receive?
    ensures Complete(t, opts, Run(ev, Begin(t, ev, readOk)), env) ==
            HandleMessage(t, opts.bot, ev.body.msg, readOk, env.message)
  {
  }

  /**
   * Replay recovers: a message in a dead letter that is not mapped gets delivered, mapped, and its letter marked,
   * when the world has recovered. What was sent and mapped is one and the same event.
   */
  lemma ReplayRecovers(s: State, opts: Options, start: Step, finish: Step, m: string)
    requires Valid(s.table) && DeadLetters.Valid(s.letters) && !HasFeishu(s.table, m)
    requires start.ReplayStart? && finish.ReplayFinish? && finish.token == start.token && finish.letter == start.letter
    requires Replay(start.token, start.letter) !in s.runs && start.readOk && finish.markOk
    requires var ev := LetterEvent(s, start.letter);
             ev.Some? && ev.value.body.Receive? && ev.value.body.msg.id == m && Replayable(ev.value.eventType)
    requires var msg, env := LetterEvent(s, start.letter).value.body.msg, finish.env.message;
             && Prepare(opts.bot, msg, env).Some? && MatrixEvents(opts.bot, msg, env) != []
             && env.insertOk && !HasMatrix(s.table, MatrixEvents(opts.bot, msg, env)[0])
    ensures var mid := Next(s, opts, start);
            && Valid(mid.table)
            && (var end := Next(mid, opts, finish);
                var row := DeadLetterFacts.RowOf(end.letters, start.letter);
                && HasFeishu(end.table, m)
                && HasMatrix(end.table, MatrixEvents(opts.bot, LetterEvent(s, start.letter).value.body.msg, finish.env.message)[0])
                && row.Some? && row.value.status == DeadLetters.Replayed
                && end.runs == s.runs)
  {
    hide Prepare, MatrixEvents, Replayable, HasFeishu, HasMatrix;
    var id := Replay(start.token, start.letter);
    var ev := LetterEvent(s, start.letter).value;
    var env := finish.env.message;
    var mid := Next(s, opts, start);
    var end := Next(mid, opts, finish);
    assert mid.runs[id] == Run(ev, Proceed);
    var o := Deliver(s.table, opts.bot, ev.body.msg, env);
    assert o.effects != [] && o.ok;
    var sends, row := DeliverShape(s.table, opts.bot, ev.body.msg, env);
    InsertMaps(s.table, row, true, m);
    assert end.runs == s.runs;
    DeadLetterFacts.MarkRow(s.letters, DeadLetters.Mark(start.letter, true, "", finish.now), start.letter);
    assert end.letters == DeadLetters.MarkReplayed(s.letters, start.letter, finish.now);
  }

  /**
   * A replay that fails keeps the letter for a later one, whatever its state has become meanwhile, and for a message
   * it has done nothing else.
   */
  lemma ReplayFailureKeepsLetter(s: State, opts: Options, step: Step)
    requires Valid(s.table) && step.ReplayFinish? && step.markOk && Replay(step.token, step.letter) in s.runs
    requires !Complete(s.table, opts, s.runs[Replay(step.token, step.letter)], step.env).ok
    requires DeadLetters.Valid(s.letters) && DeadLetterFacts.RowOf(s.letters, step.letter).Some?
    ensures var before := DeadLetterFacts.RowOf(s.letters, step.letter).value;
            var after := Next(s, opts, step);
            && DeadLetterFacts.RowOf(after.letters, step.letter) ==
               Some(before.(status := DeadLetters.Failed, error := step.error, updatedAt := step.now))
            && LetterEvent(after, step.letter) == Some(before.payload)
            && (s.runs[Replay(step.token, step.letter)].ev.body.Receive? ==>
                  after.table == s.table && after.history == s.history)
  {
    hide Complete, Valid;
    var run := s.runs[Replay(step.token, step.letter)];
    ErrorsSendNothing(s.table, opts, run, step.env);
    DeadLetterFacts.MarkRow(s.letters, DeadLetters.Mark(step.letter, false, step.error, step.now), step.letter);
    assert Next(s, opts, step).letters == DeadLetters.MarkFailed(s.letters, step.letter, step.error, step.now);
    assert s.history + [] == s.history;
  }

  /** A replay that finds its letter replayed does not run it. */
  lemma ReplayedLetterRests(s: State, opts: Options, step: Step)
    requires Valid(s.table) && step.ReplayStart?
    requires DeadLetterFacts.RowOf(s.letters, step.letter).Some?
    requires DeadLetterFacts.RowOf(s.letters, step.letter).value.status == DeadLetters.Replayed
    ensures Next(s, opts, step) == s
  {
  }

  /** A replay of a letter whose type no replay knows marks it failed and does nothing else. */
  lemma UnsupportedLetterFails(s: State, opts: Options, step: Step)
    requires Valid(s.table) && DeadLetters.Valid(s.letters) && step.ReplayStart?
    requires DeadLetterFacts.RowOf(s.letters, step.letter).Some?
    requires var row := DeadLetterFacts.RowOf(s.letters, step.letter).value;
             row.status != DeadLetters.Replayed && !Replayable(row.payload.eventType)
    ensures var before, after := DeadLetterFacts.RowOf(s.letters, step.letter).value, Next(s, opts, step);
            && after == s.(letters := after.letters)
            && DeadLetterFacts.RowOf(after.letters, step.letter) ==
               Some(before.(status := DeadLetters.Failed, error := UNSUPPORTED, updatedAt := step.now))
  {
    hide Replayable, Valid;
    DeadLetterFacts.MarkRow(s.letters, DeadLetters.Mark(step.letter, false, UNSUPPORTED, step.now), step.letter);
  }
}
