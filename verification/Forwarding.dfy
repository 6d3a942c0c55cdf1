/** Why a Matrix event is not forwarded again although marking it as processed failed: the content hash of its row. */
module Forwarding {
  import opened Wrappers
  import opened MessageTable
  import opened Bridge
  import opened Protocol
  import opened Ledger
  import opened Outcomes
  import opened Runs
  import opened Delivery
  import opened Guarantees

  /** The event is mapped by a row with this content hash. */
  predicate RowWithHash(t: Table, e: string, hash: string) {
    exists i | i in t.rows :: t.rows[i].matrixEvent == e && t.rows[i].contentHash == Some(hash)
  }

  /** Whenever the event comes, the message made for it has this hash: equal events have equal hashes. */
  predicate HashesAs(step: Step, e: string, hash: string) {
    step.MatrixStep? && step.matrix.id == Some(e) && step.matrixEnv.plan.Forward? && step.matrixEnv.plan.out.editOf.None?
    ==> step.matrixEnv.plan.out.hash == hash
  }

  /** The rows of the event outlive the step. */
  predicate RowStays(t: Table, t': Table, e: string) {
    forall i | i in t.rows && t.rows[i].matrixEvent == e :: i in t'.rows && t'.rows[i] == t.rows[i]
  }

  lemma SendOutLeavesRow(t: Table, opts: Options, ev: MatrixEvent, out: Outbound, env: MatrixEnv, e: string)
    requires Valid(t) && Count(SendOut(t, opts, ev, out, env).effects, Forwarded, e) == 1
    requires !LosesRow(SendOut(t, opts, ev, out, env).effects)
    ensures RowWithHash(SendOut(t, opts, ev, out, env).table, e, out.hash)
  {
    hide Count, FeishuIds, FeishuMessages, FeishuReplyTarget, OutboundFails;
    SendOutForwards(t, opts, ev, out, env, e);
    if OutboundFails(opts, out, env) {
      CountNone(SendOut(t, opts, ev, out, env).effects, Forwarded, e);
    } else {
      var messages := FeishuIds(opts, out, env);
      FeishuMessagesForward(messages, ev.id, FeishuReplyTarget(t, opts, out), e);
      RecordedLeavesRow(t, FeishuMessages(messages, ev.id, FeishuReplyTarget(t, opts, out)),
                        Row(e, messages[0], ev.room, Some(out.hash)), env.insertOk);
    }
  }

  lemma RecordedLeavesRow(t: Table, sends: seq<Effect>, row: Row, insertOk: bool)
    ensures var o := Recorded(t, sends, row, insertOk);
            !LosesRow(o.effects) ==> row in o.table.rows.Values
  {
    var (t', stored) := Insert(t, row, insertOk);
    if stored {
      assert t'.rows[t.nextId] == row;
    } else {
      var effects := Recorded(t, sends, row, insertOk).effects;
      assert effects[|effects| - 1].RowLost?;
    }
  }

  lemma KindHashed(t: Table, opts: Options, ev: MatrixEvent, env: MatrixEnv, e: string, hash: string)
    requires Valid(t) && HashesAs(MatrixStep(ev, env), e, hash)
    ensures var o := HandleMatrixKind(t, opts, ev, env);
            && (RowWithHash(t, e, hash) ==> Count(o.effects, Forwarded, e) == 0)
            && (Count(o.effects, Forwarded, e) == 1 && !LosesRow(o.effects) ==> RowWithHash(o.table, e, hash))
  {
    hide Count, SendOut, HandleEdit, HandleRedaction, LosesRow;
    KindForwards(t, opts, ev, env, e);
    CountNone([], Forwarded, e);
    match ev.kind
    case MessageEvent =>
      if env.plan.Command? {
        CountNone(Notice(opts.bot, env.plan.reply), Forwarded, e);
      } else if env.plan.Forward? {
        if env.plan.out.editOf.Some? {
          EditForwards(t, opts, env.plan.out.editOf.value, env, e);
        } else {
          var o := SendOut(t, opts, ev, env.plan.out, env);
          SendOutForwards(t, opts, ev, env.plan.out, env, e);
          if Count(o.effects, Forwarded, e) == 1 && !LosesRow(o.effects) {
            SendOutLeavesRow(t, opts, ev, env.plan.out, env, e);
          }
        }
      }
    case RedactionEvent(redacts) => RedactionForwards(t, opts, redacts, env, e);
    case OtherEvent =>
  }

  lemma StepHashed(s: State, opts: Options, step: Step, e: string, hash: string)
    requires Valid(s.table) && HashesAs(step, e, hash)
    ensures var o := StepOutcome(s, opts, step);
            && (RowWithHash(s.table, e, hash) ==> Count(o.effects, Forwarded, e) == 0)
            && (Count(o.effects, Forwarded, e) == 1 && !LosesRow(o.effects) ==> RowWithHash(o.table, e, hash))
  {
    hide Complete, ProcessMatrix, HandleMatrixKind, LosesRow, RowWithHash;
    match step
    case FinishStep(task, env, _, _, _, _) =>
      if Task(task) in s.runs {
        CompleteRows(s.table, opts, s.runs[Task(task)], env);
      }
      CountNone(StepOutcome(s, opts, step).effects, Forwarded, e);
    case ReplayFinish(token, letter, env, _, _, _) =>
      if Replay(token, letter) in s.runs {
        CompleteRows(s.table, opts, s.runs[Replay(token, letter)], env);
      }
      CountNone(StepOutcome(s, opts, step).effects, Forwarded, e);
    case MatrixStep(ev, env) =>
      ProcessShape(s.table, s.processed, opts, ev, env);
      KindHashed(s.table, opts, ev, env, e, hash);
      CountNone([], Forwarded, e);
    case _ => CountNone([], Forwarded, e);
  }

  lemma RowKept(t: Table, t': Table, e: string, hash: string)
    requires RowWithHash(t, e, hash) && RowStays(t, t', e)
    ensures RowWithHash(t', e, hash)
  {
  }

  /**
   * At most once towards Feishu while the row lives: even if marks fail, a Matrix event is forwarded at most once as
   * long as no row is lost and the event's own row is not deleted.
   */
  lemma {:induction false} MatrixForwardedOnceByHash(opts: Options, steps: seq<Step>, e: string, hash: string)
    requires !LosesRow(Exec(opts, steps).history)
    requires forall k | 0 <= k < |steps| :: HashesAs(steps[k], e, hash)
    requires forall k | 0 <= k < |steps| :: RowStays(Exec(opts, steps[..k]).table, Exec(opts, steps[..k + 1]).table, e)
    ensures var n := Count(Exec(opts, steps).history, Forwarded, e);
            n <= 1 && (n == 1 ==> RowWithHash(Exec(opts, steps).table, e, hash))
  {
    hide Next, StepOutcome, Count, LosesRow, HashesAs, RowStays, RowWithHash;
    if steps == [] {
      CountNone([], Forwarded, e);
    } else {
      var init, last := steps[..|steps| - 1], steps[|steps| - 1];
      var s := Exec(opts, init);
      NextByOutcome(s, opts, last);
      LosesRowAppend(s.history, StepOutcome(s, opts, last).effects);
      forall k | 0 <= k < |init|
        ensures HashesAs(init[k], e, hash) && RowStays(Exec(opts, init[..k]).table, Exec(opts, init[..k + 1]).table, e)
      {
        assert init[k] == steps[k] && init[..k] == steps[..k] && init[..k + 1] == steps[..k + 1];
      }
      MatrixForwardedOnceByHash(opts, init, e, hash);
      StepForwards(s, opts, last, e);
      StepHashed(s, opts, last, e, hash);
      CountAppend(s.history, StepOutcome(s, opts, last).effects, Forwarded, e);
      assert steps[..|init|] == init && steps[..|init| + 1] == steps;
      if RowWithHash(s.table, e, hash) {
        RowKept(s.table, Exec(opts, steps).table, e, hash);
      }
    }
  }
}
