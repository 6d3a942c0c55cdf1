/**
 * The message handlers of both directions. Each handler is given the answers of the outside world for one run
 * (its `Env`), and yields the new mapping table, the effects in the order they happen, and whether it returned Ok.
 */
module Bridge {
  import opened Wrappers
  import opened Text
  import opened MessageTable

  /** What a handler does to the outside world, and what becomes of mapping rows. */
  datatype Effect =
    | MatrixMessage(event: string, sender: string, source: Option<string>, primary: bool, matrixReply: Option<string>)
    | FeishuMessage(message: string, origin: Option<string>, linked: bool, feishuReply: Option<string>)
    | MatrixRedaction(redacted: string)
    | FeishuRecall(recalled: string)
    | FeishuEdit(edited: string)
    | RowDeleted(unmapped: string)
    | RowLost(unrecorded: string)

  datatype Outcome = Outcome(table: Table, effects: seq<Effect>, ok: bool)

  function Failed(t: Table): Outcome {
    Outcome(t, [], false)
  }

  function Done(t: Table): Outcome {
    Outcome(t, [], true)
  }

  /** The configuration: `bot` is the bot's identifier and `own` the test for the bridge's own senders. */
  datatype Options = Options(bot: string, own: string -> bool, reply: bool, edit: bool, redactions: bool,
                             degrade: bool, noticeTemplate: string)

  /** The identifiers of the first `n` sends that succeeded, in order; a missing answer is a failed send. */
  function Sent(answers: seq<Option<string>>, n: nat): seq<string> {
    if n == 0 then []
    else Sent(answers, n - 1) + if n <= |answers| && answers[n - 1].Some? then [answers[n - 1].value] else []
  }

  // ----- Feishu to Matrix -----

  datatype Message = Message(id: string, chat: string, content: string, attachments: seq<string>, parent: Option<string>)

  /** `mapped` is the Matrix user mapped to the sender, if any; `room` is the Matrix room resolved for the chat. */
  datatype MessageEnv = MessageEnv(mapped: Option<string>, joined: bool, botRegistered: bool, roomRead: bool,
                                   room: string, parentRead: bool, textSend: Option<string>,
                                   attachmentSends: seq<Option<string>>, insertOk: bool)

  /** The Matrix sender finally used, or None when registering the bot fails. */
  function EffectiveSender(bot: string, env: MessageEnv): Option<string> {
    if env.mapped.Some? && env.mapped.value != bot && env.joined then env.mapped
    else if env.botRegistered then Some(bot)
    else None
  }

  function MatrixMessages(events: seq<string>, sender: string, source: string, reply: Option<string>): seq<Effect> {
    seq(|events|, i requires 0 <= i < |events| =>
      MatrixMessage(events[i], sender, Some(source), i == 0, if i == 0 then reply else None))
  }

  /** The Matrix event that `parent` is mapped to. */
  function ReplyTarget(t: Table, parent: Option<string>): Option<string>
    requires Valid(t)
  {
    if parent.None? then None else
    match FindFeishu(t, parent.value)
    case None => None
    case Some(i) => Some(t.rows[i].matrixEvent)
  }

  predicate HasText(msg: Message) {
    !IsBlank(msg.content)
  }

  /** Everything that can fail before Matrix holds a message: None is an error, Some the sender to use. */
  function Prepare(bot: string, msg: Message, env: MessageEnv): (r: Option<string>)
    ensures r.Some? ==> EffectiveSender(bot, env) == r && (HasText(msg) ==> env.textSend.Some?)
  {
    if !env.roomRead then None
    else if EffectiveSender(bot, env).None? then None
    else if msg.parent.Some? && !env.parentRead then None
    else if HasText(msg) && env.textSend.None? then None
    else EffectiveSender(bot, env)
  }

  /** The Matrix events created for `msg`: its text, then each attachment that could be forwarded. */
  function MatrixEvents(bot: string, msg: Message, env: MessageEnv): seq<string>
    requires Prepare(bot, msg, env).Some?
  {
    (if HasText(msg) then [env.textSend.value] else []) + Sent(env.attachmentSends, |msg.attachments|)
  }

  /** The part of `handle_feishu_message` after the duplicate check. */
  function Deliver(t: Table, bot: string, msg: Message, env: MessageEnv): Outcome
    requires Valid(t)
  {
    match Prepare(bot, msg, env)
    case None => Failed(t)
    case Some(sender) =>
      var events := MatrixEvents(bot, msg, env);
      if events == [] then Done(t) else
      Recorded(t, MatrixMessages(events, sender, msg.id, ReplyTarget(t, msg.parent)),
               Row(events[0], msg.id, env.room, None), env.insertOk)
  }

  /** Sends, then records the row; a failed insert is only logged. */
  function Recorded(t: Table, sends: seq<Effect>, row: Row, insertOk: bool): Outcome {
    var (t', stored) := Insert(t, row, insertOk);
    Outcome(t', sends + if stored then [] else [RowLost(row.feishuMessage)], true)
  }

  /** `handle_feishu_message`. */
  function HandleMessage(t: Table, bot: string, msg: Message, dedupeRead: bool, env: MessageEnv): Outcome
    requires Valid(t)
  {
    if !dedupeRead then Failed(t)
    else if HasFeishu(t, msg.id) then Done(t)
    else Deliver(t, bot, msg, env)
  }

  datatype RecallEnv = RecallEnv(lookupRead: bool, redactOk: bool, deleteOk: bool)

  /** `handle_feishu_message_recalled`. */
  function HandleRecalled(t: Table, message: string, env: RecallEnv): Outcome
    requires Valid(t)
  {
    if !env.lookupRead then Failed(t) else
    match FindFeishu(t, message)
    case None => Done(t)
    case Some(i) =>
      var redaction := if env.redactOk then [MatrixRedaction(t.rows[i].matrixEvent)] else [];
      if env.deleteOk then Outcome(Delete(t, i), redaction + [RowDeleted(message)], true)
      else Outcome(t, redaction, true)
  }

  datatype RoomLookup = ReadFailed | NoRoom | Room(room: string)

  /** `failing` holds the rows whose deletion fails; `writeOk` answers the room table's own write. */
  datatype ChatEnv = ChatEnv(lookup: RoomLookup, listRead: bool, failing: set<nat>, writeOk: bool, notice: Option<string>)

  const DISBAND_LIMIT: nat := 2000

  function DeleteRows(t: Table, ids: seq<nat>, failing: set<nat>): (o: Outcome)
    requires forall k | 0 <= k < |ids| :: ids[k] in t.rows
    requires forall k, l | 0 <= k < l < |ids| :: ids[l] < ids[k]
    ensures o.ok
    decreases |ids|
  {
    if ids == [] then Done(t)
    else if ids[0] in failing then DeleteRows(t, ids[1..], failing)
    else
      var rest := DeleteRows(Delete(t, ids[0]), ids[1..], failing);
      Outcome(rest.table, [RowDeleted(t.rows[ids[0]].feishuMessage)] + rest.effects, true)
  }

  /** A notice the bot posts in Matrix, when that send succeeds. */
  function Notice(bot: string, notice: Option<string>): seq<Effect> {
    match notice
    case None => []
    case Some(event) => [MatrixMessage(event, bot, None, false, None)]
  }

  /** `handle_feishu_chat_disbanded`. */
  function HandleDisbanded(t: Table, bot: string, env: ChatEnv): Outcome {
    match env.lookup
    case ReadFailed => Failed(t)
    case NoRoom => Done(t)
    case Room(room) =>
      if !env.listRead then Failed(t) else
      var deleted := DeleteRows(t, NewestOfRoom(t, room, t.nextId, DISBAND_LIMIT), env.failing);
      if !env.writeOk then deleted.(ok := false)
      else Outcome(deleted.table, deleted.effects + Notice(bot, env.notice), true)
  }

  /** The member and chat-update handlers: no mapping changes, at most a notice. */
  function HandleChatChange(t: Table, bot: string, env: ChatEnv): Outcome {
    match env.lookup
    case ReadFailed => Failed(t)
    case NoRoom => Done(t)
    case Room(_) => if !env.writeOk then Failed(t) else Outcome(t, Notice(bot, env.notice), true)
  }

  // ----- Matrix to Feishu -----

  datatype Kind = MessageEvent | RedactionEvent(redacts: Option<string>) | OtherEvent

  datatype MatrixEvent = MatrixEvent(id: Option<string>, kind: Kind, room: string, sender: string)

  /** The message built for Feishu, with its content hash. */
  datatype Outbound = Outbound(content: string, hash: string, replyTo: Option<string>, editOf: Option<string>,
                               attachments: seq<string>)

  /**
   * How content, policies, rate limit and room lookup dispose of a message from a stranger: it is ignored, it is a
   * command, the room cannot be read, or it is to be forwarded. A command that is done may be answered by the bot.
   */
  datatype Plan = Ignored | Command(done: bool, reply: Option<string>) | RoomReadFailed | Forward(out: Outbound)

  datatype MatrixEnv = MatrixEnv(processedRead: bool, plan: Plan, hashRead: bool, targetRead: bool,
                                 textSend: Option<string>, attachmentSends: seq<Option<string>>,
                                 notice: Option<string>, remoteOk: bool, insertOk: bool, deleteOk: bool, markOk: bool)

  function FeishuMessages(messages: seq<string>, origin: Option<string>, reply: Option<string>): seq<Effect> {
    seq(|messages|, i requires 0 <= i < |messages| =>
      FeishuMessage(messages[i], origin, i == 0 && origin.Some?, if i == 0 then reply else None))
  }

  function FeishuReplyTarget(t: Table, opts: Options, out: Outbound): Option<string>
    requires Valid(t)
  {
    if !opts.reply || out.replyTo.None? || IsBlank(out.content) then None else
    match FindMatrix(t, out.replyTo.value)
    case None => None
    case Some(i) => Some(t.rows[i].feishuMessage)
  }

  /** The failure path: an error without degradation, otherwise an unmapped notice in the Feishu chat. */
  function Degraded(t: Table, opts: Options, env: MatrixEnv): Outcome {
    if !opts.degrade then Failed(t)
    else if IsBlank(opts.noticeTemplate) || env.notice.None? then Done(t)
    else Outcome(t, [FeishuMessage(env.notice.value, None, false, None)], true)
  }

  /** The text send fails when reading its reply target or the send itself does. */
  predicate OutboundFails(opts: Options, out: Outbound, env: MatrixEnv) {
    !IsBlank(out.content) && (env.textSend.None? || (opts.reply && out.replyTo.Some? && !env.targetRead))
  }

  /** The Feishu messages created for `out`: its text, then each attachment that could be forwarded. */
  function FeishuIds(opts: Options, out: Outbound, env: MatrixEnv): seq<string>
    requires !OutboundFails(opts, out, env)
  {
    (if !IsBlank(out.content) then [env.textSend.value] else []) + Sent(env.attachmentSends, |out.attachments|)
  }

  function SendOut(t: Table, opts: Options, ev: MatrixEvent, out: Outbound, env: MatrixEnv): Outcome
    requires Valid(t)
  {
    if OutboundFails(opts, out, env) then Degraded(t, opts, env) else
    var messages := FeishuIds(opts, out, env);
    var sends := FeishuMessages(messages, ev.id, FeishuReplyTarget(t, opts, out));
    if messages == [] || ev.id.None? then Outcome(t, sends, true)
    else Recorded(t, sends, Row(ev.id.value, messages[0], ev.room, Some(out.hash)), env.insertOk)
  }

  function HandleEdit(t: Table, opts: Options, target: string, env: MatrixEnv): Outcome
    requires Valid(t)
  {
    if !opts.edit then Done(t) else
    if !env.targetRead then Failed(t) else
    match FindMatrix(t, target)
    case None => Done(t)
    case Some(i) => if env.remoteOk then Outcome(t, [FeishuEdit(t.rows[i].feishuMessage)], true) else Failed(t)
  }

  /** `handle_message_event`. */
  function HandleMatrixMessage(t: Table, opts: Options, ev: MatrixEvent, env: MatrixEnv): Outcome
    requires Valid(t)
  {
    if opts.own(ev.sender) then Done(t) else
    match env.plan
    case Ignored => Done(t)
    case Command(done, reply) => if done then Outcome(t, Notice(opts.bot, reply), true) else Failed(t)
    case RoomReadFailed => Failed(t)
    case Forward(out) => HandleForward(t, opts, ev, out, env)
  }

  /** The part of `handle_message_event` from the content-hash check on. */
  function HandleForward(t: Table, opts: Options, ev: MatrixEvent, out: Outbound, env: MatrixEnv): Outcome
    requires Valid(t)
  {
    if !env.hashRead then Failed(t)
    else if HasHash(t, out.hash) then Done(t)
    else if out.editOf.Some? then HandleEdit(t, opts, out.editOf.value, env)
    else SendOut(t, opts, ev, out, env)
  }

  /** `handle_redaction_event`. */
  function HandleRedaction(t: Table, opts: Options, redacts: Option<string>, env: MatrixEnv): Outcome
    requires Valid(t)
  {
    if !opts.redactions || redacts.None? then Done(t) else
    if !env.targetRead then Failed(t) else
    match FindMatrix(t, redacts.value)
    case None => Done(t)
    case Some(i) =>
      if !env.remoteOk then Failed(t) else
      var message := t.rows[i].feishuMessage;
      if env.deleteOk then Outcome(Delete(t, i), [FeishuRecall(message), RowDeleted(message)], true)
      else Outcome(t, [FeishuRecall(message)], true)
  }

  function HandleMatrixKind(t: Table, opts: Options, ev: MatrixEvent, env: MatrixEnv): Outcome
    requires Valid(t)
  {
    match ev.kind
    case MessageEvent => HandleMatrixMessage(t, opts, ev, env)
    case RedactionEvent(redacts) => HandleRedaction(t, opts, redacts, env)
    case OtherEvent => Done(t)
  }

  /** `process_event`: the outcome, and the processed-event ids afterwards. */
  function ProcessMatrix(t: Table, processed: set<string>, opts: Options, ev: MatrixEvent, env: MatrixEnv)
    : (Outcome, set<string>)
    requires Valid(t)
  {
    if ev.id.None? then (HandleMatrixKind(t, opts, ev, env), processed) else
    if !env.processedRead then (Failed(t), processed) else
    if ev.id.value in processed then (Done(t), processed) else
    var o := HandleMatrixKind(t, opts, ev, env);
    if !o.ok then (o, processed)
    else if env.markOk then (o, processed + {ev.id.value})
    else (o.(ok := false), processed)
  }
}
