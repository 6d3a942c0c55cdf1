/** The delivery guarantees of whole runs. */
module Guarantees {
  import opened Wrappers
  import opened MessageTable
  import opened Bridge
  import opened Protocol
  import opened Ledger
  import opened Outcomes
  import opened Runs
  import opened Delivery
  import Puppet

  // ----- The installation -----

  /** The handlers are configured with the bot and the recogniser of a self-recognising identity. */
  ghost predicate Configured(opts: Options, self: Puppet.Identity) {
    && Puppet.SelfRecognising(self)
    && Puppet.HasPlaceholder(self.usernameTemplate)
    && opts.bot == Puppet.BotMxid(self)
    && (forall sender :: opts.own(sender) <==> Puppet.SenderMatchesBridge(sender, self))
  }

  function SenderOf(step: Step): Option<string> {
    match step
    case FinishStep(_, env, _, _, _, _) => env.message.mapped
    case ReplayFinish(_, _, env, _, _, _) => env.message.mapped
    case _ => None
  }

  /** Feishu users are mapped to the puppets made for them, and user ids are not empty. */
  ghost predicate MapsToPuppets(self: Puppet.Identity, step: Step) {
    SenderOf(step).Some? ==> exists id :: id != "" && SenderOf(step).value == Puppet.PuppetMxid(self, id)
  }

  lemma {:induction false} PuppetsAreOwn(opts: Options, self: Puppet.Identity, step: Step)
    requires Configured(opts, self) && MapsToPuppets(self, step)
    ensures opts.own(opts.bot) && (SenderOf(step).Some? ==> opts.own(SenderOf(step).value))
  {
    Puppet.BotRecognised(self);
    if SenderOf(step).Some? {
      var id :| id != "" && SenderOf(step).value == Puppet.PuppetMxid(self, id);
      Puppet.PuppetRecognised(self, id);
    }
  }

  // ----- No echo loop -----

  /** Everything the bridge ever sent into Matrix carries a sender it recognises. */
  ghost predicate SendersOwn(history: seq<Effect>, opts: Options) {
    forall k | 0 <= k < |history| && history[k].MatrixMessage? :: opts.own(history[k].sender)
  }

  lemma StepSenders(s: State, opts: Options, step: Step)
    requires Valid(s.table) && opts.own(opts.bot) && (SenderOf(step).Some? ==> opts.own(SenderOf(step).value))
    ensures SendersOwn(StepOutcome(s, opts, step).effects, opts)
  {
    hide Complete, ProcessMatrix, HandleMatrixKind;
    match step
    case FinishStep(task, env, _, _, _, _) =>
      if Task(task) in s.runs {
        CompleteSenders(s.table, opts, s.runs[Task(task)], env);
      }
    case ReplayFinish(token, letter, env, _, _, _) =>
      if Replay(token, letter) in s.runs {
        CompleteSenders(s.table, opts, s.runs[Replay(token, letter)], env);
      }
    case MatrixStep(ev, env) =>
      ProcessShape(s.table, s.processed, opts, ev, env);
      MatrixRows(s.table, opts, ev, env);
    case _ =>
  }

  ghost predicate MappedRun(self: Puppet.Identity, steps: seq<Step>) {
    forall k | 0 <= k < |steps| :: MapsToPuppets(self, steps[k])
  }

  lemma {:induction false} SendersOwnInRuns(opts: Options, self: Puppet.Identity, steps: seq<Step>)
    requires Configured(opts, self) && MappedRun(self, steps)
    ensures SendersOwn(Exec(opts, steps).history, opts)
  {
    hide Configured, MapsToPuppets, Next, StepOutcome;
    if steps != [] {
      var init, last := steps[..|steps| - 1], steps[|steps| - 1];
      SendersOwnInRuns(opts, self, init);
      PuppetsAreOwn(opts, self, last);
      StepSenders(Exec(opts, init), opts, last);
      NextByOutcome(Exec(opts, init), opts, last);
    }
  }

  /**
   * No echo loop, Matrix side: whatever a run put into Matrix, its return as a message event makes the bridge do
   * nothing, mapped or not, however often it comes and whatever the world answers.
   */
  lemma {:induction false} MatrixEchoIsSilent(opts: Options, self: Puppet.Identity, steps: seq<Step>,
                                              echo: MatrixEvent, env: MatrixEnv)
    requires Configured(opts, self) && MappedRun(self, steps) && echo.kind.MessageEvent?
    ensures var s := Exec(opts, steps); var o := StepOutcome(s, opts, MatrixStep(echo, env));
            SentBy(s.history, echo.sender) ==> o.effects == [] && o.table == s.table
  {
    hide Configured, MappedRun, Exec;
    SendersOwnInRuns(opts, self, steps);
    if SentBy(Exec(opts, steps).history, echo.sender) {
      assert opts.own(echo.sender);
      assert HandleMatrixKind(Exec(opts, steps).table, opts, echo, env) == Done(Exec(opts, steps).table);
    }
  }

  /** The bridge put a message into Matrix under this sender. */
  predicate SentBy(history: seq<Effect>, sender: string) {
    exists k | 0 <= k < |history| && history[k].MatrixMessage? :: history[k].sender == sender
  }

  /** A run of a mapped message's receive event, as a task or a replay, changes nothing and sends nothing. */
  lemma MappedMessageRests(s: State, opts: Options, ev: Event, readOk: bool, env: HandlerEnv)
    requires Valid(s.table) && ev.body.Receive? && HasFeishu(s.table, ev.body.msg.id)
    ensures var o := Complete(s.table, opts, Run(ev, Begin(s.table, ev, readOk)), env);
            o.effects == [] && o.table == s.table && (o.ok <==> readOk)
  {
  }

  /**
   * The redaction that a recall causes comes back and recalls the message again iff the recall could not delete its
   * row, redactions are bridged, and reading and recalling work.
   */
  lemma RecallBouncesIff(t: Table, opts: Options, message: string, recall: RecallEnv, env: MatrixEnv)
    requires Valid(t) && HasFeishu(t, message) && recall.lookupRead && recall.redactOk
    ensures var event := t.rows[FindFeishu(t, message).value].matrixEvent;
            var o := HandleRecalled(t, message, recall);
            && MatrixRedaction(event) in o.effects && Valid(o.table)
            && (FeishuRecall(message) in HandleRedaction(o.table, opts, Some(event), env).effects <==>
                  !recall.deleteOk && opts.redactions && env.targetRead && env.remoteOk)
            && (recall.deleteOk ==> HandleRedaction(o.table, opts, Some(event), env).effects == [])
  {
    var i := FindFeishu(t, message).value;
    DeleteUnmaps(t, i, message);
    assert HandleRecalled(t, message, recall).effects[0] == MatrixRedaction(t.rows[i].matrixEvent);
    if !recall.deleteOk {
      assert FindMatrix(t, t.rows[i].matrixEvent) == Some(i);
      var after := HandleRedaction(t, opts, Some(t.rows[i].matrixEvent), env);
      assert after.effects != [] ==> after.effects[0] == FeishuRecall(message);
    }
  }

  /** The recall that a redaction causes comes back and redacts again iff the redaction could not delete its row. */
  lemma RedactionBouncesIff(t: Table, opts: Options, event: string, env: MatrixEnv, recall: RecallEnv)
    requires Valid(t) && HandleRedaction(t, opts, Some(event), env).effects != []
    ensures HasMatrix(t, event)
    ensures var message := t.rows[FindMatrix(t, event).value].feishuMessage;
            var o := HandleRedaction(t, opts, Some(event), env);
            && FeishuRecall(message) in o.effects && Valid(o.table)
            && (MatrixRedaction(event) in HandleRecalled(o.table, message, recall).effects <==>
                  !env.deleteOk && recall.lookupRead && recall.redactOk)
            && (env.deleteOk ==> HandleRecalled(o.table, message, recall).effects == [])
  {
    var i := FindMatrix(t, event).value;
    var message := t.rows[i].feishuMessage;
    DeleteUnmaps(t, i, message);
    assert HandleRedaction(t, opts, Some(event), env).effects[0] == FeishuRecall(message);
    if !env.deleteOk {
      assert FindFeishu(t, message) == Some(i);
      var after := HandleRecalled(t, message, recall);
      assert recall.lookupRead && recall.redactOk ==> after.effects[0] == MatrixRedaction(event);
    }
  }

  // ----- At most once -----

  /** The world is honest, the store works and replays keep apart, throughout a run. */
  ghost predicate GoodRun(opts: Options, self: Puppet.Identity, chatOf: string -> string, steps: seq<Step>) {
    && Configured(opts, self)
    && MappedRun(self, steps)
    && forall k | 0 <= k < |steps| :: GoodStep(Exec(opts, steps[..k]), opts, chatOf, steps[k])
  }

  ghost predicate GoodStep(s: State, opts: Options, chatOf: string -> string, step: Step)
    requires Valid(s.table)
  {
    Honest(s, opts, chatOf, step) && StoreWorks(step) && ReplaysApart(s, step)
  }

  ghost predicate Invariant(s: State, opts: Options, chatOf: string -> string) {
    && Sound(s)
    && EventsKnown(s, chatOf)
    && RowsKnown(s)
    && Quiet(s)
    && MappedSettled(s)
    && SendersOwn(s.history, opts)
    && !LosesRow(s.history)
  }

  lemma InMatrixGrows(history: seq<Effect>, effects: seq<Effect>, event: string)
    requires InMatrix(history, event)
    ensures InMatrix(history + effects, event)
  {
    var k :| 0 <= k < |history| && history[k].MatrixMessage? && history[k].event == event;
    assert (history + effects)[k] == history[k];
  }

  lemma InMatrixNew(history: seq<Effect>, effects: seq<Effect>)
    requires effects != [] && effects[0].MatrixMessage?
    ensures InMatrix(history + effects, effects[0].event)
  {
    assert (history + effects)[|history|] == effects[0];
  }

  lemma NextMappedSettled(s: State, opts: Options, step: Step)
    requires Valid(s.table) && MappedSettled(s) && StoreWorks(step)
    ensures MappedSettled(Next(s, opts, step))
  {
    hide Next, StepOutcome, InMatrix;
    var s' := Next(s, opts, step);
    var effects := StepOutcome(s, opts, step).effects;
    NextByOutcome(s, opts, step);
    NextIds(s, opts, step);
    forall i | i in s'.table.rows
      ensures s'.table.rows[i].matrixEvent in s'.processed || InMatrix(s'.history, s'.table.rows[i].matrixEvent)
    {
      StepRow(s, opts, step, i);
      if i in s.table.rows && InMatrix(s.history, s.table.rows[i].matrixEvent) {
        InMatrixGrows(s.history, effects, s.table.rows[i].matrixEvent);
      }
      if effects != [] && effects[0].MatrixMessage? {
        InMatrixNew(s.history, effects);
      }
    }
  }

  /** An event in the mapping table that comes again is either processed or the bridge's own. */
  lemma MappedEventIsOwn(s: State, opts: Options, chatOf: string -> string, ev: MatrixEvent, env: MatrixEnv)
    requires Valid(s.table) && MappedSettled(s) && SendersOwn(s.history, opts)
    requires Honest(s, opts, chatOf, MatrixStep(ev, env))
    ensures ev.id.Some? && HasMatrix(s.table, ev.id.value) && ev.id.value !in s.processed ==> opts.own(ev.sender)
  {
    hide StepOutcome, FeishuIdsOf;
  }

  lemma StepRecords(s: State, opts: Options, chatOf: string -> string, step: Step)
    requires Invariant(s, opts, chatOf) && GoodStep(s, opts, chatOf, step)
    ensures !LosesRow(StepOutcome(s, opts, step).effects)
  {
    hide Complete, ProcessMatrix, HandleMatrixKind, Balance, EventsKnown, SendersOwn, LosesRow, HasFeishu, MatrixIdsOf, FeishuIdsOf, MappedSettled;
    NoRowLost();
    match step
    case FinishStep(task, env, _, _, _, _) =>
      if Task(task) in s.runs {
        RunRecords(s, opts, Task(task), env);
      }
    case ReplayFinish(token, letter, env, _, _, _) =>
      if Replay(token, letter) in s.runs {
        RunRecords(s, opts, Replay(token, letter), env);
      }
    case MatrixStep(ev, env) => MatrixStepRecords(s, opts, chatOf, ev, env);
    case _ =>
  }

  lemma NoRowLost()
    ensures !LosesRow([])
  {
  }

  lemma RunRecords(s: State, opts: Options, id: RunId, env: HandlerEnv)
    requires Valid(s.table) && RowsKnown(s) && Quiet(s) && id in s.runs && env.message.insertOk
    requires MatrixIdsOf(Complete(s.table, opts, s.runs[id], env).effects) !! s.matrixIds
    ensures !LosesRow(Complete(s.table, opts, s.runs[id], env).effects)
  {
    hide Complete, MatrixIdsOf, LosesRow, HasFeishu;
    var run := s.runs[id];
    assert run.phase == Proceed && run.ev.body.Receive? ==> Delivers(run, run.ev.body.msg.id);
    CompleteRecords(s.table, opts, run, env, s.matrixIds);
  }

  lemma MatrixStepRecords(s: State, opts: Options, chatOf: string -> string, ev: MatrixEvent, env: MatrixEnv)
    requires Valid(s.table) && RowsKnown(s) && MappedSettled(s) && SendersOwn(s.history, opts)
    requires Honest(s, opts, chatOf, MatrixStep(ev, env)) && env.insertOk
    ensures !LosesRow(ProcessMatrix(s.table, s.processed, opts, ev, env).0.effects)
  {
    hide ProcessMatrix, HandleMatrixKind, LosesRow, MatrixIdsOf, FeishuIdsOf, MappedSettled, SendersOwn, HasMatrix, InMatrix, SentToMatrix;
    NoRowLost();
    ProcessShape(s.table, s.processed, opts, ev, env);
    MappedEventIsOwn(s, opts, chatOf, ev, env);
    if ProcessMatrix(s.table, s.processed, opts, ev, env).0.effects != [] {
      MatrixRecords(s.table, opts, ev, env, s.feishuIds);
    }
  }

  lemma LosesRowAppend(a: seq<Effect>, b: seq<Effect>)
    ensures LosesRow(a + b) <==> LosesRow(a) || LosesRow(b)
  {
    if k :| 0 <= k < |a| && a[k].RowLost? {
      assert (a + b)[k].RowLost?;
    }
    if k :| 0 <= k < |b| && b[k].RowLost? {
      assert (a + b)[|a| + k].RowLost?;
    }
  }

  lemma {:induction false} NextInvariant(s: State, opts: Options, chatOf: string -> string, step: Step)
    requires Invariant(s, opts, chatOf) && GoodStep(s, opts, chatOf, step)
    requires opts.own(opts.bot) && (SenderOf(step).Some? ==> opts.own(SenderOf(step).value))
    ensures Invariant(Next(s, opts, step), opts, chatOf)
  {
    hide Next, StepOutcome, EventsKnown, RowsKnown, Quiet, MappedSettled, LosesRow, Honest, ReplaysApart, Sound;
    SoundIsValid(s);
    NextSound(s, opts, step);
    NextEventsKnown(s, opts, chatOf, step);
    NextRowsKnown(s, opts, chatOf, step);
    NextQuiet(s, opts, chatOf, step);
    NextMappedSettled(s, opts, step);
    StepSenders(s, opts, step);
    StepRecords(s, opts, chatOf, step);
    NextByOutcome(s, opts, step);
    LosesRowAppend(s.history, StepOutcome(s, opts, step).effects);
  }

  lemma SoundIsValid(s: State)
    requires Sound(s)
    ensures Valid(s.table)
  {
  }

  lemma {:induction false} GoodPrefix(opts: Options, self: Puppet.Identity, chatOf: string -> string,
                                      steps: seq<Step>, k: nat)
    requires k <= |steps| && GoodRun(opts, self, chatOf, steps)
    ensures GoodRun(opts, self, chatOf, steps[..k])
  {
    hide Exec, Configured, GoodStep, MapsToPuppets;
    forall j | 0 <= j < k
      ensures GoodStep(Exec(opts, steps[..k][..j]), opts, chatOf, steps[..k][j])
    {
      assert steps[..k][..j] == steps[..j];
    }
  }

  lemma {:induction false} InvariantInRuns(opts: Options, self: Puppet.Identity, chatOf: string -> string,
                                           steps: seq<Step>)
    requires GoodRun(opts, self, chatOf, steps)
    ensures Invariant(Exec(opts, steps), opts, chatOf)
  {
    hide Configured, MapsToPuppets, Next, GoodStep, Invariant;
    if steps == [] {
      InitInvariant(opts, chatOf);
    } else {
      var init, last := steps[..|steps| - 1], steps[|steps| - 1];
      GoodPrefix(opts, self, chatOf, steps, |steps| - 1);
      InvariantInRuns(opts, self, chatOf, init);
      PuppetsAreOwn(opts, self, last);
      NextInvariant(Exec(opts, init), opts, chatOf, last);
    }
  }

  lemma InitInvariant(opts: Options, chatOf: string -> string)
    ensures Invariant(INIT, opts, chatOf)
  {
    InitSound();
  }

  lemma {:induction false} NoneUnrecorded(history: seq<Effect>, m: string)
    requires !LosesRow(history)
    ensures Count(history, Unrecorded, m) == 0
  {
    CountNone(history, Unrecorded, m);
  }

  /**
   * At most once: in a good run, redeliveries, failures, dead letters, replays, echoes and Matrix traffic included,
   * a message's deliveries are its deletions, plus one if it is mapped. So it is delivered at most once between two
   * deletions of its mapping, and never while it is mapped.
   */
  lemma {:induction false} AtMostOnce(opts: Options, self: Puppet.Identity, chatOf: string -> string,
                                      steps: seq<Step>, k: nat, m: string)
    requires GoodRun(opts, self, chatOf, steps) && k <= |steps|
    ensures var s := Exec(opts, steps); Deliveries(s, m) == Count(s.history, Unmapped, m) + Mapped(s.table, m)
    ensures var a, b := Exec(opts, steps[..k]), Exec(opts, steps);
            Count(a.history, Unmapped, m) == Count(b.history, Unmapped, m) ==>
              && Deliveries(b, m) <= Deliveries(a, m) + 1
              && (HasFeishu(a.table, m) ==> Deliveries(b, m) == Deliveries(a, m))
  {
    hide GoodRun, Exec, Invariant, LosesRow, Count;
    GoodPrefix(opts, self, chatOf, steps, k);
    AllRecorded(opts, self, chatOf, steps, m);
    AllRecorded(opts, self, chatOf, steps[..k], m);
    LedgerOfEveryRun(opts, steps, m);
    LedgerOfEveryRun(opts, steps[..k], m);
    DeliveriesGrow(opts, steps, k, m);
  }

  lemma {:induction false} AllRecorded(opts: Options, self: Puppet.Identity, chatOf: string -> string,
                                       steps: seq<Step>, m: string)
    requires GoodRun(opts, self, chatOf, steps)
    ensures Count(Exec(opts, steps).history, Unrecorded, m) == 0
  {
    hide GoodRun, LosesRow, Count, Exec;
    InvariantInRuns(opts, self, chatOf, steps);
    NoneUnrecorded(Exec(opts, steps).history, m);
  }

  // ----- The Feishu side hears no echo -----

  /** Some Matrix message, be it text or attachment, was made from the Feishu message. */
  predicate Sourced(effects: seq<Effect>, m: string) {
    exists k | 0 <= k < |effects| && effects[k].MatrixMessage? :: effects[k].source == Some(m)
  }

  lemma CountsHead(effects: seq<Effect>, entry: Entry, m: string)
    requires effects != [] && Enters(effects[0], entry, m)
    ensures Count(effects, entry, m) >= 1
  {
    assert effects == [effects[0]] + effects[1..];
    CountAppend([effects[0]], effects[1..], entry, m);
    CountOne(effects[0], entry, m);
  }

  lemma DeliverSourced(t: Table, bot: string, msg: Message, env: MessageEnv, m: string)
    requires Valid(t)
    ensures var effects := Deliver(t, bot, msg, env).effects; Sourced(effects, m) ==> Count(effects, Delivered, m) >= 1
  {
    var effects := Deliver(t, bot, msg, env).effects;
    if effects != [] && msg.id == m {
      CountsHead(effects, Delivered, m);
    }
  }

  /** Whatever is made from a message is made in a run that delivers it. */
  lemma StepSourced(s: State, opts: Options, step: Step, m: string)
    requires Valid(s.table)
    ensures var effects := StepOutcome(s, opts, step).effects; Sourced(effects, m) ==> Count(effects, Delivered, m) >= 1
  {
    hide Complete, ProcessMatrix, HandleMatrixKind, Count;
    match step
    case FinishStep(task, env, _, _, _, _) =>
      if Task(task) in s.runs {
        CompleteSourced(s.table, opts, s.runs[Task(task)], env, m);
      }
    case ReplayFinish(token, letter, env, _, _, _) =>
      if Replay(token, letter) in s.runs {
        CompleteSourced(s.table, opts, s.runs[Replay(token, letter)], env, m);
      }
    case MatrixStep(ev, env) =>
      ProcessShape(s.table, s.processed, opts, ev, env);
      MatrixRows(s.table, opts, ev, env);
    case _ =>
  }

  lemma CompleteSourced(t: Table, opts: Options, run: Run, env: HandlerEnv, m: string)
    requires Valid(t)
    ensures var effects := Complete(t, opts, run, env).effects; Sourced(effects, m) ==> Count(effects, Delivered, m) >= 1
  {
    hide Deliver, Count;
    if run.phase == Proceed {
      match run.ev.body
      case Receive(msg) => DeliverSourced(t, opts.bot, msg, env.message, m);
      case Recall(_, message) =>
      case ChatChange(_) =>
      case Disband(_) =>
        if env.chat.lookup.Room? && env.chat.listRead {
          DeleteRowsEffects(t, NewestOfRoom(t, env.chat.lookup.room, t.nextId, DISBAND_LIMIT), env.chat.failing);
        }
    }
  }

  lemma CountGrows(opts: Options, steps: seq<Step>, k: nat, entry: Entry, m: string)
    requires k <= |steps|
    ensures Exec(opts, steps[..k]).history <= Exec(opts, steps).history
    ensures Count(Exec(opts, steps[..k]).history, entry, m) <= Count(Exec(opts, steps).history, entry, m)
  {
    hide Exec, Count;
    HistoryGrows(opts, steps, k);
    var a, b := Exec(opts, steps[..k]).history, Exec(opts, steps).history;
    assert b == a + b[|a|..];
    CountAppend(a, b[|a|..], entry, m);
  }

  lemma SourcedAppend(a: seq<Effect>, b: seq<Effect>, m: string)
    ensures Sourced(a + b, m) ==> Sourced(a, m) || Sourced(b, m)
  {
    if k :| 0 <= k < |a + b| && (a + b)[k].MatrixMessage? && (a + b)[k].source == Some(m) {
      assert k < |a| ==> a[k] == (a + b)[k];
      assert k >= |a| ==> b[k - |a|] == (a + b)[k];
    }
  }

  /** As long as the count of a message's deliveries stands, nothing at all is made from it. */
  lemma {:induction false} NothingNewSourced(opts: Options, steps: seq<Step>, k: nat, m: string)
    requires k <= |steps|
    requires Count(Exec(opts, steps[..k]).history, Delivered, m) == Count(Exec(opts, steps).history, Delivered, m)
    ensures Exec(opts, steps[..k]).history <= Exec(opts, steps).history
    ensures !Sourced(Exec(opts, steps).history[|Exec(opts, steps[..k]).history|..], m)
  {
    hide Next, StepOutcome, Count, Sourced;
    CountGrows(opts, steps, k, Delivered, m);
    if k == |steps| {
      assert steps[..k] == steps;
      assert Exec(opts, steps).history[|Exec(opts, steps[..k]).history|..] == [];
      NoneSourced(m);
    } else {
      var init, last := steps[..|steps| - 1], steps[|steps| - 1];
      var s := Exec(opts, init);
      var effects := StepOutcome(s, opts, last).effects;
      assert init[..k] == steps[..k];
      NextByOutcome(s, opts, last);
      CountGrows(opts, init, k, Delivered, m);
      CountAppend(s.history, effects, Delivered, m);
      NothingNewSourced(opts, init, k, m);
      StepSourced(s, opts, last, m);
      var cut := |Exec(opts, steps[..k]).history|;
      assert Exec(opts, steps).history[cut..] == s.history[cut..] + effects;
      SourcedAppend(s.history[cut..], effects, m);
    }
  }

  lemma NoneSourced(m: string)
    ensures !Sourced([], m)
  {
  }

  /**
   * No echo loop, Feishu side: in a good run, from a point where a message is mapped until its mapping is deleted,
   * nothing is put into Matrix for it, neither text nor attachments, however often it arrives, fails or is replayed.
   */
  lemma FeishuEchoIsSilent(opts: Options, self: Puppet.Identity, chatOf: string -> string, steps: seq<Step>, k: nat,
                           m: string)
    requires GoodRun(opts, self, chatOf, steps) && k <= |steps|
    ensures Exec(opts, steps[..k]).history <= Exec(opts, steps).history
    ensures HasFeishu(Exec(opts, steps[..k]).table, m)
            && Count(Exec(opts, steps[..k]).history, Unmapped, m) == Count(Exec(opts, steps).history, Unmapped, m) ==>
              !Sourced(Exec(opts, steps).history[|Exec(opts, steps[..k]).history|..], m)
  {
    hide GoodRun, Exec, Count, Sourced, HasFeishu;
    AtMostOnce(opts, self, chatOf, steps, k, m);
    CountGrows(opts, steps, k, Delivered, m);
    CountGrows(opts, steps, k, Linked, m);
    if HasFeishu(Exec(opts, steps[..k]).table, m)
       && Count(Exec(opts, steps[..k]).history, Unmapped, m) == Count(Exec(opts, steps).history, Unmapped, m) {
      NothingNewSourced(opts, steps, k, m);
    }
  }

  // ----- The Matrix side -----

  /** The step's mark of a processed Matrix event is written, if it comes to that. */
  predicate MarksWork(step: Step) {
    step.MatrixStep? ==> step.matrixEnv.markOk
  }

  /** A step forwards at most one Matrix event, unprocessed before and, if its mark is written, processed afterwards. */
  lemma StepForwards(s: State, opts: Options, step: Step, e: string)
    requires Valid(s.table)
    ensures var n := Count(StepOutcome(s, opts, step).effects, Forwarded, e);
            n <= 1 && (n == 1 ==> e !in s.processed && (MarksWork(step) ==> e in Next(s, opts, step).processed))
  {
    hide Complete, ProcessMatrix, HandleMatrixKind, Begin, LetterEvent, Dispatch;
    match step
    case FinishStep(task, env, _, _, _, _) =>
      if Task(task) in s.runs {
        CompleteRows(s.table, opts, s.runs[Task(task)], env);
        CountNone(StepOutcome(s, opts, step).effects, Forwarded, e);
      }
    case ReplayFinish(token, letter, env, _, _, _) =>
      if Replay(token, letter) in s.runs {
        CompleteRows(s.table, opts, s.runs[Replay(token, letter)], env);
        CountNone(StepOutcome(s, opts, step).effects, Forwarded, e);
      }
    case MatrixStep(ev, env) =>
      ProcessShape(s.table, s.processed, opts, ev, env);
      KindForwards(s.table, opts, ev, env, e);
    case _ =>
  }

  lemma KindForwards(t: Table, opts: Options, ev: MatrixEvent, env: MatrixEnv, e: string)
    requires Valid(t)
    ensures var o := HandleMatrixKind(t, opts, ev, env);
            Count(o.effects, Forwarded, e) <= 1 && (Count(o.effects, Forwarded, e) == 1 ==> ev.id == Some(e) && o.ok)
  {
    hide Count, SendOut, HandleEdit, HandleRedaction;
    CountNone([], Forwarded, e);
    match ev.kind
    case MessageEvent =>
      if env.plan.Command? {
        CountNone(Notice(opts.bot, env.plan.reply), Forwarded, e);
      } else if env.plan.Forward? {
        SendOutForwards(t, opts, ev, env.plan.out, env, e);
        if env.plan.out.editOf.Some? {
          EditForwards(t, opts, env.plan.out.editOf.value, env, e);
        }
      }
    case RedactionEvent(redacts) => RedactionForwards(t, opts, redacts, env, e);
    case OtherEvent =>
  }

  lemma EditForwards(t: Table, opts: Options, target: string, env: MatrixEnv, e: string)
    requires Valid(t)
    ensures Count(HandleEdit(t, opts, target, env).effects, Forwarded, e) == 0
  {
    CountNone(HandleEdit(t, opts, target, env).effects, Forwarded, e);
  }

  lemma RedactionForwards(t: Table, opts: Options, redacts: Option<string>, env: MatrixEnv, e: string)
    requires Valid(t)
    ensures Count(HandleRedaction(t, opts, redacts, env).effects, Forwarded, e) == 0
  {
    CountNone(HandleRedaction(t, opts, redacts, env).effects, Forwarded, e);
  }

  lemma FeishuMessagesForward(messages: seq<string>, origin: Option<string>, reply: Option<string>, e: string)
    ensures Count(FeishuMessages(messages, origin, reply), Forwarded, e) ==
            if messages != [] && origin == Some(e) then 1 else 0
  {
    if messages != [] {
      HeadCount(FeishuMessages(messages, origin, reply), Forwarded, e);
    }
  }

  lemma RecordedForward(t: Table, sends: seq<Effect>, row: Row, insertOk: bool, e: string)
    ensures Count(Recorded(t, sends, row, insertOk).effects, Forwarded, e) == Count(sends, Forwarded, e)
  {
    hide Insert, Count;
    CountOne(RowLost(row.feishuMessage), Forwarded, e);
    CountAppend(sends, [RowLost(row.feishuMessage)], Forwarded, e);
    assert sends + [] == sends;
  }

  lemma SendOutForwards(t: Table, opts: Options, ev: MatrixEvent, out: Outbound, env: MatrixEnv, e: string)
    requires Valid(t)
    ensures var o := SendOut(t, opts, ev, out, env);
            Count(o.effects, Forwarded, e) <= 1 && (Count(o.effects, Forwarded, e) == 1 ==> ev.id == Some(e) && o.ok)
  {
    hide Count, Recorded, FeishuIds, FeishuMessages, FeishuReplyTarget, OutboundFails;
    if OutboundFails(opts, out, env) {
      CountNone(SendOut(t, opts, ev, out, env).effects, Forwarded, e);
    } else {
      var messages, reply := FeishuIds(opts, out, env), FeishuReplyTarget(t, opts, out);
      FeishuMessagesForward(messages, ev.id, reply, e);
      if messages != [] && ev.id.Some? {
        var row := Row(ev.id.value, messages[0], ev.room, Some(out.hash));
        RecordedForward(t, FeishuMessages(messages, ev.id, reply), row, env.insertOk, e);
        RecordedOk(t, FeishuMessages(messages, ev.id, reply), row, env.insertOk);
      }
    }
  }

  lemma RecordedOk(t: Table, sends: seq<Effect>, row: Row, insertOk: bool)
    ensures Recorded(t, sends, row, insertOk).ok
  {
  }

  ghost predicate ForwardedSettled(s: State, e: string) {
    Count(s.history, Forwarded, e) <= 1 && (Count(s.history, Forwarded, e) == 1 ==> e in s.processed)
  }

  /**
   * At most once towards Feishu, for good: if the marks of processed events are written, no Matrix event is ever
   * forwarded
   * twice, not even if its row could not be stored or was deleted.
   */
  lemma {:induction false} MatrixForwardedOnce(opts: Options, steps: seq<Step>, e: string)
    requires forall k | 0 <= k < |steps| :: MarksWork(steps[k])
    ensures ForwardedSettled(Exec(opts, steps), e)
  {
    hide Next, StepOutcome, Count;
    if steps == [] {
      CountNone([], Forwarded, e);
    } else {
      var init, last := steps[..|steps| - 1], steps[|steps| - 1];
      var s := Exec(opts, init);
      MatrixForwardedOnce(opts, init, e);
      StepForwards(s, opts, last, e);
      NextByOutcome(s, opts, last);
      NextIds(s, opts, last);
      CountAppend(s.history, StepOutcome(s, opts, last).effects, Forwarded, e);
    }
  }

  // ----- Retractions over time -----

  /** A Matrix event that is settled and not mapped, as after a recall or a redaction. */
  ghost predicate Retracted(s: State, e: string) {
    e in s.matrixIds && (e in s.processed || InMatrix(s.history, e)) && !HasMatrix(s.table, e)
  }

  lemma NextRetracted(s: State, opts: Options, chatOf: string -> string, step: Step, e: string)
    requires Valid(s.table) && Honest(s, opts, chatOf, step) && SendersOwn(s.history, opts) && Retracted(s, e)
    ensures Retracted(Next(s, opts, step), e)
  {
    hide Next, StepOutcome, MatrixIdsOf, FeishuIdsOf, SendersOwn, InMatrix;
    var s' := Next(s, opts, step);
    var effects := StepOutcome(s, opts, step).effects;
    NextByOutcome(s, opts, step);
    NextIds(s, opts, step);
    if InMatrix(s.history, e) {
      InMatrixGrows(s.history, effects, e);
    }
    forall i | i in s'.table.rows
      ensures s'.table.rows[i].matrixEvent != e
    {
      StepRow(s, opts, step, i);
      if effects != [] && effects[0].MatrixMessage? {
        MatrixIdIn(effects);
      }
      if step.MatrixStep? && step.matrix.id == Some(e) {
        EchoIsOwn(s, opts, e, step.matrix.sender);
      }
    }
  }

  lemma EchoIsOwn(s: State, opts: Options, e: string, sender: string)
    requires SendersOwn(s.history, opts) && (InMatrix(s.history, e) ==> SentToMatrix(s.history, e, sender))
    ensures InMatrix(s.history, e) ==> opts.own(sender)
  {
  }

  /**
   * Once recalled or redacted, a Matrix event is never mapped again, so its redaction may come back at any later
   * time, any number of times, and recalls nothing.
   */
  lemma {:induction false} RetractedForGood(opts: Options, self: Puppet.Identity, chatOf: string -> string,
                                            steps: seq<Step>, k: nat, e: string, env: MatrixEnv)
    requires GoodRun(opts, self, chatOf, steps) && k <= |steps|
    ensures Retracted(Exec(opts, steps[..k]), e) ==>
              && Retracted(Exec(opts, steps), e)
              && HandleRedaction(Exec(opts, steps).table, opts, Some(e), env).effects == []
  {
    hide Next, StepOutcome, Retracted, Configured, MapsToPuppets, Honest, StoreWorks, ReplaysApart, SendersOwn;
    if k == |steps| {
      assert steps[..k] == steps;
    } else {
      var init, last := steps[..|steps| - 1], steps[|steps| - 1];
      assert init[..k] == steps[..k];
      GoodPrefix(opts, self, chatOf, steps, |steps| - 1);
      RetractedForGood(opts, self, chatOf, init, k, e, env);
      SendersOwnInRuns(opts, self, init);
      if Retracted(Exec(opts, init), e) {
        NextRetracted(Exec(opts, init), opts, chatOf, last, e);
      }
    }
    RetractedUnmapped(Exec(opts, steps), e);
  }

  lemma RetractedUnmapped(s: State, e: string)
    ensures Retracted(s, e) ==> !HasMatrix(s.table, e)
  {
  }

  // ----- Why replays must keep apart -----

  /** The steps by which run `id` ends. */
  predicate Ends(step: Step, id: RunId) {
    (step.FinishStep? && id == Task(step.task)) || (step.ReplayFinish? && id == Replay(step.token, step.letter))
  }

  /** In this world run `id` reaches Matrix. */
  predicate Succeeds(opts: Options, run: Run, step: Step)
    requires (step.FinishStep? || step.ReplayFinish?) && run.ev.body.Receive?
  {
    var msg, env := run.ev.body.msg, step.env.message;
    Prepare(opts.bot, msg, env).Some? && MatrixEvents(opts.bot, msg, env) != []
  }

  lemma DeliveryCounts(s: State, opts: Options, step: Step, id: RunId, m: string)
    requires Valid(s.table) && id in s.runs && Ends(step, id) && Delivers(s.runs[id], m)
    requires Succeeds(opts, s.runs[id], step)
    ensures Count(Next(s, opts, step).history, Delivered, m) == Count(s.history, Delivered, m) + 1
  {
    hide Next, Prepare, MatrixEvents, Count;
    NextByOutcome(s, opts, step);
    var msg := s.runs[id].ev.body.msg;
    var env := step.env.message;
    var o := Deliver(s.table, opts.bot, msg, env);
    var sends, row := DeliverShape(s.table, opts.bot, msg, env);
    var events := MatrixEvents(opts.bot, msg, env);
    CountAppend(s.history, o.effects, Delivered, m);
    HeadCount(o.effects, Delivered, m);
  }

  /**
   * Two runs that both found a message unmapped deliver it twice, in any order and even though the second row is
   * refused. With `ReplayStartQuiet` this makes `ReplaysApart` the exact condition at the start of a replay.
   */
  lemma OverlappingRunsDeliverTwice(s: State, opts: Options, first: Step, second: Step, a: RunId, b: RunId, m: string)
    requires Sound(s) && a != b && a in s.runs && b in s.runs && Delivers(s.runs[a], m) && Delivers(s.runs[b], m)
    requires Ends(first, a) && Ends(second, b)
    requires Succeeds(opts, s.runs[a], first) && Succeeds(opts, s.runs[b], second)
    ensures Valid(Next(s, opts, first).table)
    ensures Count(Next(Next(s, opts, first), opts, second).history, Delivered, m) == Count(s.history, Delivered, m) + 2
  {
    hide Next, Succeeds, Count;
    NextSound(s, opts, first);
    DeliveryCounts(s, opts, first, a, m);
    EndRuns(s, opts, first, a);
    DeliveryCounts(Next(s, opts, first), opts, second, b, m);
  }
}
