/**
 * The delivery protocol as a state machine: events are dispatched into per-chat queues, run under the chat's lock,
 * and end as processed events or dead letters; dead letters are replayed outside the lock; Matrix events come in
 * between. A handler run reads the mapping table when it starts and acts when it finishes, so runs can overlap.
 */
module Protocol {
  import opened Wrappers
  import opened MessageTable
  import opened Bridge
  import DeadLetters

  datatype Body = Receive(msg: Message) | Recall(recallChat: string, message: string) | ChatChange(changedChat: string)
                | Disband(disbandedChat: string)

  datatype Event = Event(eventType: string, id: Option<string>, body: Body)

  const RECEIVE_TYPES := ["im.message.receive_v1", "message.receive_v1", "message"]
  const CHANGE_TYPES := ["im.chat.member.user.added_v1", "im.chat.member.user.deleted_v1", "im.chat.updated_v1"]

  /** The event types `dispatch_event_payload` turns into tasks. */
  predicate Dispatchable(ev: Event) {
    match ev.body
    case Receive(_) => ev.eventType in RECEIVE_TYPES
    case Recall(_, _) => ev.eventType == "im.message.recalled_v1"
    case ChatChange(_) => ev.eventType in CHANGE_TYPES
    case Disband(_) => ev.eventType == "im.chat.disbanded_v1"
  }

  /** The event types `replay_dead_letter_payload` knows. */
  predicate Replayable(eventType: string) {
    || eventType == "im.message.receive_v1"
    || eventType == "message.receive_v1"
    || eventType == "im.message.recalled_v1"
    || eventType in CHANGE_TYPES
    || eventType == "im.chat.disbanded_v1"
  }

  function Chat(ev: Event): string {
    match ev.body
    case Receive(msg) => msg.chat
    case Recall(chat, _) => chat
    case ChatChange(chat) => chat
    case Disband(chat) => chat
  }

  /** The dedupe key: the event id, or the message or chat when the event has none. */
  function Key(ev: Event): string {
    ev.eventType + ":" +
    match ev.id
    case Some(id) => id
    case None =>
      match ev.body
      case Receive(msg) => msg.id
      case Recall(_, message) => message
      case _ => Chat(ev)
  }

  /** The processed-events table keeps Feishu ids apart from Matrix ids by a prefix. */
  const FEISHU_PREFIX := "feishu:"

  datatype Phase = Fail | Skip | Proceed

  datatype Run = Run(ev: Event, phase: Phase)

  datatype RunId = Task(task: nat) | Replay(token: nat, letter: nat)

  datatype HandlerEnv = HandlerEnv(message: MessageEnv, recall: RecallEnv, chat: ChatEnv)

  /** Task numbers are positions in `accepted`; `dropped` holds the events whose dead letter could not be written. */
  datatype State = State(
    table: Table,
    processed: set<string>,
    history: seq<Effect>,
    letters: DeadLetters.Letters<Event>,
    queued: map<nat, Event>,
    accepted: seq<Event>,
    runs: map<RunId, Run>,
    succeeded: seq<Event>,
    recorded: seq<Event>,
    dropped: seq<Event>,
    feishuIds: set<string>,
    matrixIds: set<string>)

  const INIT := State(EMPTY, {}, [], DeadLetters.Letters([], 1), map[], [], map[], [], [], [], {}, {})

  // ----- A handler run -----

  function Begin(t: Table, ev: Event, readOk: bool): Phase {
    match ev.body
    case Receive(msg) => if !readOk then Fail else if HasFeishu(t, msg.id) then Skip else Proceed
    case _ => Proceed
  }

  function Complete(t: Table, opts: Options, run: Run, env: HandlerEnv): Outcome
    requires Valid(t)
  {
    match run.phase
    case Fail => Failed(t)
    case Skip => Done(t)
    case Proceed =>
      match run.ev.body
      case Receive(msg) => Deliver(t, opts.bot, msg, env.message)
      case Recall(_, message) => HandleRecalled(t, message, env.recall)
      case ChatChange(_) => HandleChatChange(t, opts.bot, env.chat)
      case Disband(_) => HandleDisbanded(t, opts.bot, env.chat)
  }

  function MatrixIdsOf(effects: seq<Effect>): set<string> {
    set i | 0 <= i < |effects| && effects[i].MatrixMessage? :: effects[i].event
  }

  function FeishuIdsOf(effects: seq<Effect>): set<string> {
    set i | 0 <= i < |effects| && effects[i].FeishuMessage? :: effects[i].message
  }

  function WithOutcome(s: State, o: Outcome): State {
    s.(table := o.table, history := s.history + o.effects,
       matrixIds := s.matrixIds + MatrixIdsOf(o.effects), feishuIds := s.feishuIds + FeishuIdsOf(o.effects))
  }

  // ----- Steps -----

  datatype Step =
    | DispatchStep(ev: Event, readOk: bool)
    | StartStep(task: nat, readOk: bool)
    | FinishStep(task: nat, env: HandlerEnv, markOk: bool, recordOk: bool, error: string, now: int)
    | ReplayStart(token: nat, letter: nat, readOk: bool, now: int)
    | ReplayFinish(token: nat, letter: nat, env: HandlerEnv, markOk: bool, error: string, now: int)
    | MatrixStep(matrix: MatrixEvent, matrixEnv: MatrixEnv)
    | CleanStep(status: Option<DeadLetters.Status>, olderThan: Option<int>, limit: int)

  datatype Reply = Accepted | Duplicate | Ignored | Error

  /** The answer given to Feishu. */
  function Dispatch(s: State, ev: Event, readOk: bool): Reply {
    if ev.id.Some? && !readOk then Error
    else if ev.id.Some? && FEISHU_PREFIX + ev.id.value in s.processed then Duplicate
    else if Dispatchable(ev) then Accepted
    else Reply.Ignored
  }

  function MessageIds(ev: Event): set<string> {
    if ev.body.Receive? then {ev.body.msg.id} else {}
  }

  function Dispatched(s: State, ev: Event, readOk: bool): State {
    if Dispatch(s, ev, readOk) == Accepted then Enqueued(s, ev) else s
  }

  function Enqueued(s: State, ev: Event): State {
    s.(queued := s.queued[|s.accepted| := ev], accepted := s.accepted + [ev], feishuIds := s.feishuIds + MessageIds(ev))
  }

  /** The chat's lock is free: no task of the chat is running. Replays do not take it. */
  predicate LockFree(s: State, chat: string) {
    forall r | r in s.runs :: r.Task? ==> Chat(s.runs[r].ev) != chat
  }

  function Started(s: State, task: nat, readOk: bool): State {
    if task !in s.queued || Task(task) in s.runs || !LockFree(s, Chat(s.queued[task])) then s
    else Taken(s, task, Begin(s.table, s.queued[task], readOk))
  }

  function Taken(s: State, task: nat, phase: Phase): State
    requires task in s.queued
  {
    s.(queued := s.queued - {task}, runs := s.runs[Task(task) := Run(s.queued[task], phase)])
  }

  function Settled(s: State, ev: Event, ok: bool, markOk: bool, recordOk: bool, error: string, now: int): State {
    if ok then
      s.(succeeded := s.succeeded + [ev],
         processed := if ev.id.Some? && markOk then s.processed + {FEISHU_PREFIX + ev.id.value} else s.processed)
    else if recordOk then
      s.(recorded := s.recorded + [ev], letters := DeadLetters.Upsert(s.letters, Key(ev), ev, error, now))
    else s.(dropped := s.dropped + [ev])
  }

  function Finished(s: State, opts: Options, step: Step): State
    requires step.FinishStep? && Valid(s.table)
  {
    if Task(step.task) !in s.runs then s
    else
      var run := s.runs[Task(step.task)];
      var o := Complete(s.table, opts, run, step.env);
      Settled(WithOutcome(s, o).(runs := s.runs - {Task(step.task)}), run.ev, o.ok, step.markOk, step.recordOk,
              step.error, step.now)
  }

  function LetterEvent(s: State, letter: nat): Option<Event> {
    match DeadLetters.IndexOfId(s.letters.rows, letter)
    case None => None
    case Some(i) => if s.letters.rows[i].status == DeadLetters.Replayed then None else Some(s.letters.rows[i].payload)
  }

  const UNSUPPORTED := "unsupported dead-letter event_type"

  function ReplayStarted(s: State, step: Step): State
    requires step.ReplayStart?
  {
    var id := Replay(step.token, step.letter);
    match LetterEvent(s, step.letter)
    case None => s
    case Some(ev) =>
      if !Replayable(ev.eventType) then
        s.(letters := DeadLetters.MarkFailed(s.letters, step.letter, UNSUPPORTED, step.now))
      else if id in s.runs then s
      else s.(runs := s.runs[id := Run(ev, Begin(s.table, ev, step.readOk))])
  }

  function ReplayFinished(s: State, opts: Options, step: Step): State
    requires step.ReplayFinish? && Valid(s.table)
  {
    var id := Replay(step.token, step.letter);
    if id !in s.runs then s
    else
      var o := Complete(s.table, opts, s.runs[id], step.env);
      WithOutcome(s, o).(runs := s.runs - {id},
        letters := if !step.markOk then s.letters
                   else if o.ok then DeadLetters.MarkReplayed(s.letters, step.letter, step.now)
                   else DeadLetters.MarkFailed(s.letters, step.letter, step.error, step.now))
  }

  function MatrixProcessed(s: State, opts: Options, ev: MatrixEvent, env: MatrixEnv): State
    requires Valid(s.table)
  {
    var (o, processed) := ProcessMatrix(s.table, s.processed, opts, ev, env);
    var s' := WithOutcome(s, o).(processed := processed);
    if ev.id.Some? then s'.(matrixIds := s'.matrixIds + {ev.id.value}) else s'
  }

  function Next(s: State, opts: Options, step: Step): State
    requires Valid(s.table)
  {
    match step
    case DispatchStep(ev, readOk) => Dispatched(s, ev, readOk)
    case StartStep(task, readOk) => Started(s, task, readOk)
    case FinishStep(_, _, _, _, _, _) => Finished(s, opts, step)
    case ReplayStart(_, _, _, _) => ReplayStarted(s, step)
    case ReplayFinish(_, _, _, _, _, _) => ReplayFinished(s, opts, step)
    case MatrixStep(ev, env) => MatrixProcessed(s, opts, ev, env)
    case CleanStep(status, olderThan, limit) =>
      s.(letters := DeadLetters.Cleanup(s.letters, status, olderThan, limit))
  }
}
