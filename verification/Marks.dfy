/**
 * What the marks of processed events and the ends of tasks stand for, in every run: exactly which work, and so which
 * events are answered as duplicates, and that a failed Matrix event gets through when it comes again.
 */
module Marks {
  import opened Wrappers
  import opened MessageTable
  import opened Bridge
  import opened Protocol
  import opened Handlers
  import opened Runs
  import opened Tasks

  // ----- Marks -----

  /** The step ends a task of an event with this id with Ok, and its mark is written. */
  predicate MarksTask(s: State, opts: Options, step: Step, id: string)
    requires Valid(s.table)
  {
    && step.FinishStep? && step.markOk && Task(step.task) in s.runs && s.runs[Task(step.task)].ev.id == Some(id)
    && StepOutcome(s, opts, step).ok
  }

  /** The step answers the Matrix event with this id with Ok. */
  predicate AnswersMatrix(s: State, opts: Options, step: Step, id: string)
    requires Valid(s.table)
  {
    step.MatrixStep? && step.matrix.id == Some(id) && StepOutcome(s, opts, step).ok
  }

  ghost predicate TaskDone(opts: Options, steps: seq<Step>, id: string) {
    exists k | 0 <= k < |steps| :: MarksTask(Exec(opts, steps[..k]), opts, steps[k], id)
  }

  ghost predicate MatrixDone(opts: Options, steps: seq<Step>, id: string) {
    exists k | 0 <= k < |steps| :: AnswersMatrix(Exec(opts, steps[..k]), opts, steps[k], id)
  }

  lemma PrefixInjective(a: string, b: string)
    ensures FEISHU_PREFIX + a == FEISHU_PREFIX + b ==> a == b
  {
    assert (FEISHU_PREFIX + a)[|FEISHU_PREFIX|..] == a && (FEISHU_PREFIX + b)[|FEISHU_PREFIX|..] == b;
  }

  lemma FinishMarks(s: State, opts: Options, step: Step, id: string)
    requires Valid(s.table) && step.FinishStep?
    ensures FEISHU_PREFIX + id in Finished(s, opts, step).processed <==>
            FEISHU_PREFIX + id in s.processed || MarksTask(s, opts, step, id)
    ensures !(FEISHU_PREFIX <= id) ==> (id in Finished(s, opts, step).processed <==> id in s.processed)
  {
    hide Complete, MatrixIdsOf, FeishuIdsOf, Key, DeadLetters.Upsert;
    if Task(step.task) in s.runs && s.runs[Task(step.task)].ev.id.Some? {
      PrefixInjective(s.runs[Task(step.task)].ev.id.value, id);
    }
  }

  lemma OthersMarkNothing(s: State, opts: Options, step: Step)
    requires Valid(s.table) && !step.FinishStep? && !step.MatrixStep?
    ensures Next(s, opts, step).processed == s.processed
  {
    hide Complete, Begin, LetterEvent, Dispatch, MatrixIdsOf, FeishuIdsOf, Replayable, Chat;
  }

  lemma MatrixStepMarks(s: State, opts: Options, step: Step, id: string)
    requires Valid(s.table) && step.MatrixStep?
    ensures id in Next(s, opts, step).processed ==> id in s.processed || step.matrix.id == Some(id)
    ensures id in s.processed ==> id in Next(s, opts, step).processed
    ensures step.matrix.id == Some(id) && id !in s.processed ==>
              (id in Next(s, opts, step).processed <==> AnswersMatrix(s, opts, step, id))
  {
    hide ProcessMatrix, HandleMatrixKind, MatrixIdsOf, FeishuIdsOf;
    ProcessExact(s.table, s.processed, opts, step.matrix, step.matrixEnv);
  }

  lemma FeishuMarksStep(s: State, opts: Options, step: Step, id: string)
    requires Valid(s.table)
    ensures FEISHU_PREFIX + id in s.processed || MarksTask(s, opts, step, id) ==>
              FEISHU_PREFIX + id in Next(s, opts, step).processed
    ensures IdsApart(step) && FEISHU_PREFIX + id in Next(s, opts, step).processed ==>
              FEISHU_PREFIX + id in s.processed || MarksTask(s, opts, step, id)
  {
    hide Finished, StepOutcome, MatrixProcessed;
    if step.FinishStep? {
      FinishMarks(s, opts, step, id);
    } else if step.MatrixStep? {
      MatrixStepMarks(s, opts, step, FEISHU_PREFIX + id);
    } else {
      OthersMarkNothing(s, opts, step);
    }
  }

  lemma MatrixMarksStep(s: State, opts: Options, step: Step, id: string)
    requires Valid(s.table) && !(FEISHU_PREFIX <= id)
    ensures id in Next(s, opts, step).processed <==> id in s.processed || AnswersMatrix(s, opts, step, id)
  {
    hide Finished, StepOutcome, MatrixProcessed;
    if step.FinishStep? {
      FinishMarks(s, opts, step, id);
    } else if step.MatrixStep? {
      MatrixStepMarks(s, opts, step, id);
    } else {
      OthersMarkNothing(s, opts, step);
    }
  }

  lemma DoneSnoc(opts: Options, steps: seq<Step>, id: string)
    requires steps != []
    ensures var init, last := steps[..|steps| - 1], steps[|steps| - 1];
            && (TaskDone(opts, steps, id) <==> TaskDone(opts, init, id) || MarksTask(Exec(opts, init), opts, last, id))
            && (MatrixDone(opts, steps, id) <==>
                  MatrixDone(opts, init, id) || AnswersMatrix(Exec(opts, init), opts, last, id))
  {
    hide Exec, MarksTask, AnswersMatrix;
    var init := steps[..|steps| - 1];
    assert forall k | 0 <= k < |init| :: init[k] == steps[k] && init[..k] == steps[..k];
    assert steps[..|steps| - 1] == init;
    if TaskDone(opts, init, id) {
      var k :| 0 <= k < |init| && MarksTask(Exec(opts, init[..k]), opts, init[k], id);
      assert MarksTask(Exec(opts, steps[..k]), opts, steps[k], id);
    }
    if MatrixDone(opts, init, id) {
      var k :| 0 <= k < |init| && AnswersMatrix(Exec(opts, init[..k]), opts, init[k], id);
      assert AnswersMatrix(Exec(opts, steps[..k]), opts, steps[k], id);
    }
  }

  /**
   * In every run a Feishu event is marked once a task of it ended with Ok and its mark was written, and, as Matrix ids
   * stay clear of the prefix, for no other reason.
   */
  lemma {:induction false} MarkedIffDone(opts: Options, steps: seq<Step>, id: string)
    ensures TaskDone(opts, steps, id) ==> FEISHU_PREFIX + id in Exec(opts, steps).processed
    ensures (forall k | 0 <= k < |steps| :: IdsApart(steps[k])) && FEISHU_PREFIX + id in Exec(opts, steps).processed ==>
              TaskDone(opts, steps, id)
  {
    hide Next, MarksTask, IdsApart, TaskDone;
    if steps == [] {
      NothingDone(opts, id);
    } else {
      MarkedIffDone(opts, steps[..|steps| - 1], id);
      DoneSnoc(opts, steps, id);
      FeishuMarksStep(Exec(opts, steps[..|steps| - 1]), opts, steps[|steps| - 1], id);
    }
  }

  lemma NothingDone(opts: Options, id: string)
    ensures !TaskDone(opts, [], id) && !MatrixDone(opts, [], id)
  {
  }

  /** In every run a Matrix event is marked iff some attempt at it was answered with Ok: failed ones stay unmarked. */
  lemma {:induction false} MatrixMarkedIffDone(opts: Options, steps: seq<Step>, id: string)
    requires !(FEISHU_PREFIX <= id)
    ensures id in Exec(opts, steps).processed <==> MatrixDone(opts, steps, id)
  {
    hide Next, AnswersMatrix, MatrixDone;
    if steps == [] {
      NothingDone(opts, id);
    } else {
      MatrixMarkedIffDone(opts, steps[..|steps| - 1], id);
      DoneSnoc(opts, steps, id);
      MatrixMarksStep(Exec(opts, steps[..|steps| - 1]), opts, steps[|steps| - 1], id);
    }
  }

  // ----- Answers to Feishu -----

  /** Once a task of an event ended with Ok and its mark was written, the event is a duplicate, and changes nothing. */
  lemma DuplicateAfterSuccess(opts: Options, steps: seq<Step>, ev: Event)
    requires ev.id.Some?
    ensures TaskDone(opts, steps, ev.id.value) ==>
              && Dispatch(Exec(opts, steps), ev, true) == Duplicate
              && Next(Exec(opts, steps), opts, DispatchStep(ev, true)) == Exec(opts, steps)
  {
    hide Exec, TaskDone;
    MarkedIffDone(opts, steps, ev.id.value);
  }

  /**
   * The answers of every run. An event is an error iff it has an id and the marks cannot be read; otherwise a duplicate
   * iff an earlier task of its id ended with Ok and was marked; otherwise accepted iff its type is known. An accepted
   * event is queued, and no other answer changes anything.
   */
  lemma AnswersOfEveryRun(opts: Options, steps: seq<Step>, ev: Event, readOk: bool)
    requires forall k | 0 <= k < |steps| :: IdsApart(steps[k])
    ensures var s := Exec(opts, steps); var answer := Dispatch(s, ev, readOk);
            var s' := Next(s, opts, DispatchStep(ev, readOk));
            var known := ev.id.Some? && TaskDone(opts, steps, ev.id.value);
            && (answer == Error <==> ev.id.Some? && !readOk)
            && (answer == Duplicate <==> known && readOk)
            && (answer == Accepted <==> Dispatchable(ev) && (ev.id.Some? ==> readOk && !known))
            && (answer == Accepted ==> s'.accepted == s.accepted + [ev] && OpenEvent(s', |s.accepted|) == Some(ev))
            && (answer != Accepted ==> s' == s)
  {
    hide Exec, TaskDone, IdsApart, Dispatchable, MessageIds;
    if ev.id.Some? {
      MarkedIffDone(opts, steps, ev.id.value);
    }
  }

  // ----- How tasks end -----

  datatype End = Successful | DeadLettered | Dropped

  /** The step ends a task of the event in this way. */
  predicate EndsAs(s: State, opts: Options, step: Step, ev: Event, end: End)
    requires Valid(s.table)
  {
    && step.FinishStep? && Task(step.task) in s.runs && s.runs[Task(step.task)].ev == ev
    && end == if StepOutcome(s, opts, step).ok then Successful else if step.recordOk then DeadLettered else Dropped
  }

  function EndedAs(s: State, end: End): seq<Event> {
    match end
    case Successful => s.succeeded
    case DeadLettered => s.recorded
    case Dropped => s.dropped
  }

  lemma EndsAsStep(s: State, opts: Options, step: Step, ev: Event, end: End)
    requires Valid(s.table)
    ensures ev in EndedAs(Next(s, opts, step), end) <==> ev in EndedAs(s, end) || EndsAs(s, opts, step, ev, end)
  {
    hide Complete, HandleMatrixKind, Begin, LetterEvent, Dispatch, MatrixIdsOf, FeishuIdsOf, Replayable, Chat, Key,
      DeadLetters.Upsert, DeadLetters.Cleanup, ProcessMatrix;
  }

  ghost predicate SomeTaskEnds(opts: Options, steps: seq<Step>, ev: Event, end: End) {
    exists k | 0 <= k < |steps| :: EndsAs(Exec(opts, steps[..k]), opts, steps[k], ev, end)
  }

  lemma EndsSnoc(opts: Options, steps: seq<Step>, ev: Event, end: End)
    requires steps != []
    ensures var init, last := steps[..|steps| - 1], steps[|steps| - 1];
            SomeTaskEnds(opts, steps, ev, end) <==>
              SomeTaskEnds(opts, init, ev, end) || EndsAs(Exec(opts, init), opts, last, ev, end)
  {
    hide Exec, EndsAs;
    var init := steps[..|steps| - 1];
    assert forall k | 0 <= k < |init| :: init[k] == steps[k] && init[..k] == steps[..k];
    if k :| 0 <= k < |init| && EndsAs(Exec(opts, init[..k]), opts, init[k], ev, end) {
      assert EndsAs(Exec(opts, steps[..k]), opts, steps[k], ev, end);
    }
  }

  /**
   * The lists of ended tasks hold, in every run, exactly the events of tasks whose handlers answered so: Ok for the
   * successes, an error for the others, told apart by whether the dead letter was written.
   */
  lemma {:induction false} EndedByOutcome(opts: Options, steps: seq<Step>, ev: Event, end: End)
    ensures ev in EndedAs(Exec(opts, steps), end) <==> SomeTaskEnds(opts, steps, ev, end)
  {
    hide Next, EndsAs, SomeTaskEnds;
    if steps == [] {
      NoTaskEnds(opts, ev, end);
    } else {
      EndedByOutcome(opts, steps[..|steps| - 1], ev, end);
      EndsSnoc(opts, steps, ev, end);
      EndsAsStep(Exec(opts, steps[..|steps| - 1]), opts, steps[|steps| - 1], ev, end);
    }
  }

  lemma NoTaskEnds(opts: Options, ev: Event, end: End)
    ensures !SomeTaskEnds(opts, [], ev, end) && EndedAs(INIT, end) == []
  {
  }

  // ----- Matrix events that failed -----

  function Sends(env: MatrixEnv): nat
    requires env.plan.Forward?
  {
    SendCount(env.plan.out.content, env.plan.out.attachments, env.attachmentSends)
  }

  function MessageAt(env: MatrixEnv, k: nat): Option<string>
    requires env.plan.Forward? && k < Sends(env)
  {
    SendAt(env.plan.out.content, env.textSend, env.plan.out.attachments, env.attachmentSends, k)
  }

  /** A world in which the event gets through: everything works, and it is neither mapped nor a repetition. */
  predicate GetsThrough(t: Table, opts: Options, ev: MatrixEvent, env: MatrixEnv) {
    && Passes(t, opts, ev, env) && env.plan.out.editOf.None? && TextGoesOut(opts, env.plan.out, env)
    && env.processedRead && env.insertOk && env.markOk
    && ev.id.Some? && !HasMatrix(t, ev.id.value)
    && Sends(env) > 0 && !HasFeishu(t, MessageAt(env, 0).value)
  }

  /**
   * A failed event is not lost: however many attempts at it failed, and whatever else happened, in a world where it gets
   * through its text and attachments go to Feishu in order, it is mapped to the first of them in its room, and marked.
   */
  lemma FailedEventGetsThrough(opts: Options, steps: seq<Step>, ev: MatrixEvent, env: MatrixEnv)
    requires ev.id.Some? && !(FEISHU_PREFIX <= ev.id.value)
    ensures GetsThrough(Exec(opts, steps).table, opts, ev, env) && !MatrixDone(opts, steps, ev.id.value) ==>
              var s, after := Exec(opts, steps), Exec(opts, steps + [MatrixStep(ev, env)]);
              && |after.history| == |s.history| + Sends(env) && s.history <= after.history
              && (forall k | 0 <= k < Sends(env) ::
                    && after.history[|s.history| + k].FeishuMessage? && after.history[|s.history| + k].origin == ev.id
                    && Some(after.history[|s.history| + k].message) == MessageAt(env, k))
              && FiledUnder(after.table, ev.id.value, MessageAt(env, 0).value, ev.room)
              && ev.id.value in after.processed
  {
    hide Exec, Next, ProcessMatrix, HandleMatrixKind, MatrixDone, HasMatrix, HasFeishu, FiledUnder, HasHash, Sent,
      AnswersMatrix, IsFeishuReply;
    var s := Exec(opts, steps);
    var step := MatrixStep(ev, env);
    MatrixMarkedIffDone(opts, steps, ev.id.value);
    if GetsThrough(s.table, opts, ev, env) && !MatrixDone(opts, steps, ev.id.value) {
      LastStep(opts, steps, step);
      NextByOutcome(s, opts, step);
      ProcessExact(s.table, s.processed, opts, ev, env);
      AnswerOfEvent(s.table, opts, ev, env);
      MatrixStepMarks(s, opts, step, ev.id.value);
      ProcessedAfter(s, opts, ev, env);
      var o := HandleMatrixKind(s.table, opts, ev, env);
      forall k | 0 <= k < Sends(env)
        ensures k < |o.effects| && o.effects[k].FeishuMessage? && o.effects[k].origin == ev.id
                && Some(o.effects[k].message) == MessageAt(env, k)
      {
        ForwardSends(s.table, opts, ev, env, k);
      }
      ForwardRecord(s.table, opts, ev, env);
      assert Some(o.effects[0].message) == MessageAt(env, 0);
    }
  }

  lemma ProcessedAfter(s: State, opts: Options, ev: MatrixEvent, env: MatrixEnv)
    requires Valid(s.table)
    ensures Next(s, opts, MatrixStep(ev, env)).processed == ProcessMatrix(s.table, s.processed, opts, ev, env).1
  {
    hide ProcessMatrix, MatrixIdsOf, FeishuIdsOf;
  }

  lemma LastStep(opts: Options, steps: seq<Step>, step: Step)
    ensures Exec(opts, steps + [step]) == Next(Exec(opts, steps), opts, step)
  {
    assert (steps + [step])[..|steps|] == steps;
  }

  /** No step edits a Feishu message but a stranger's new edit of the event it is linked to. */
  lemma EditsOfStep(s: State, opts: Options, step: Step, message: string)
    requires Valid(s.table)
    ensures FeishuEdit(message) in StepOutcome(s, opts, step).effects <==>
            && step.MatrixStep? && IsNew(s.processed, step.matrix, step.matrixEnv)
            && Passes(s.table, opts, step.matrix, step.matrixEnv) && step.matrixEnv.plan.out.editOf.Some?
            && opts.edit && step.matrixEnv.targetRead && step.matrixEnv.remoteOk
            && Links(s.table, step.matrixEnv.plan.out.editOf.value, message)
  {
    hide Complete, ProcessMatrix, HandleMatrixKind, Links;
    match step
    case FinishStep(task, env, _, _, _, _) =>
      if Task(task) in s.runs {
        RedactionsOfRun(s.table, opts, s.runs[Task(task)], env, FeishuEdit(message));
      }
    case ReplayFinish(token, letter, env, _, _, _) =>
      if Replay(token, letter) in s.runs {
        RedactionsOfRun(s.table, opts, s.runs[Replay(token, letter)], env, FeishuEdit(message));
      }
    case MatrixStep(ev, env) =>
      ProcessExact(s.table, s.processed, opts, ev, env);
      EditsOfEvent(s.table, opts, ev, env, message);
    case _ =>
  }
}
