/**
 * What the handlers of both directions do, said of the ids a mapping links: when each effect happens and under which
 * name, which rows come and go, and when the answer is Ok. Everything here holds on every path of the handlers.
 */
module Handlers {
  import opened Wrappers
  import opened Text
  import opened MessageTable
  import opened Bridge
  import opened Protocol
  import opened Outcomes

  // ----- Lists of sends -----

  /** The sends that succeeded are all there, once each and in order; `at` are their positions. */
  lemma {:induction false} SentInOrder(answers: seq<Option<string>>, n: nat) returns (at: seq<nat>)
    ensures |at| == |Sent(answers, n)|
    ensures forall k | 0 <= k < |at| :: at[k] < n && at[k] < |answers| && answers[at[k]] == Some(Sent(answers, n)[k])
    ensures forall j, k | 0 <= j < k < |at| :: at[j] < at[k]
    ensures forall i | 0 <= i < n && i < |answers| && answers[i].Some? :: i in at
  {
    at := [];
    if n > 0 {
      var before := SentInOrder(answers, n - 1);
      at := before + if n <= |answers| && answers[n - 1].Some? then [n - 1] else [];
      forall i | 0 <= i < n && i < |answers| && answers[i].Some?
        ensures i in at
      {
        assert i < n - 1 ==> i in before;
      }
    }
  }

  function Texts(content: string): nat {
    if IsBlank(content) then 0 else 1
  }

  /** How many of the sends of a text and its attachments succeed, if the text does. */
  function SendCount(content: string, attachments: seq<string>, answers: seq<Option<string>>): nat {
    Texts(content) + |Sent(answers, |attachments|)|
  }

  /** The identifier made by the `k`-th of them: the text comes first. */
  function SendAt(content: string, text: Option<string>, attachments: seq<string>, answers: seq<Option<string>>, k: nat)
    : Option<string>
    requires k < SendCount(content, attachments, answers)
  {
    if k < Texts(content) then text else Some(Sent(answers, |attachments|)[k - Texts(content)])
  }

  lemma ReplyTargetExact(t: Table, parent: Option<string>, event: string)
    requires Valid(t)
    ensures ReplyTarget(t, parent) == Some(event) <==> parent.Some? && Links(t, event, parent.value)
  {
    if parent.Some? && Links(t, event, parent.value) {
      LinkFound(t, event, parent.value);
    }
  }

  lemma FeishuReplyTargetExact(t: Table, opts: Options, out: Outbound, message: string)
    requires Valid(t)
    ensures FeishuReplyTarget(t, opts, out) == Some(message) <==>
            opts.reply && out.replyTo.Some? && !IsBlank(out.content) && Links(t, out.replyTo.value, message)
  {
    if out.replyTo.Some? && Links(t, out.replyTo.value, message) {
      LinkFound(t, out.replyTo.value, message);
    }
  }

  // ----- A Feishu message -----

  predicate MappedUserJoins(bot: string, env: MessageEnv) {
    env.mapped.Some? && env.mapped.value != bot && env.joined
  }

  ghost predicate IsReply(t: Table, parent: Option<string>, reply: Option<string>) {
    forall event :: reply == Some(event) <==> parent.Some? && Links(t, event, parent.value)
  }

  /**
   * The k-th effect of a delivery: its text, then its attachments, all from the mapped user if he can join, else from
   * the bot; the first of them, and no other, is a reply, to the event its parent is linked to.
   */
  lemma DeliverySends(t: Table, bot: string, msg: Message, env: MessageEnv, k: nat)
    requires Valid(t) && Deliver(t, bot, msg, env).ok
    requires k < SendCount(msg.content, msg.attachments, env.attachmentSends)
    ensures var o := Deliver(t, bot, msg, env);
            && k < |o.effects| && o.effects[k].MatrixMessage?
            && Some(o.effects[k].event) == SendAt(msg.content, env.textSend, msg.attachments, env.attachmentSends, k)
            && o.effects[k].sender == (if MappedUserJoins(bot, env) then env.mapped.value else bot)
            && o.effects[k].source == Some(msg.id) && (o.effects[k].primary <==> k == 0)
            && if k == 0 then IsReply(t, msg.parent, o.effects[k].matrixReply) else o.effects[k].matrixReply == None
  {
    hide Sent, ReplyTarget, Insert, Valid;
    forall event
      ensures ReplyTarget(t, msg.parent) == Some(event) <==> msg.parent.Some? && Links(t, event, msg.parent.value)
    {
      ReplyTargetExact(t, msg.parent, event);
    }
  }

  /** A delivery that sent something is recorded under the chat's room, or its row is lost and the table stays. */
  lemma DeliveryRecord(t: Table, bot: string, msg: Message, env: MessageEnv)
    requires Valid(t) && Deliver(t, bot, msg, env).ok
    ensures var o := Deliver(t, bot, msg, env);
            var sends := SendCount(msg.content, msg.attachments, env.attachmentSends);
            if sends == 0 then o == Done(t)
            else
              && sends <= |o.effects| && o.effects[0].MatrixMessage?
              && if env.insertOk && !HasFeishu(t, msg.id) && !HasMatrix(t, o.effects[0].event)
                 then FiledUnder(o.table, o.effects[0].event, msg.id, env.room) && |o.effects| == sends
                 else o.table == t && o.effects[sends..] == [RowLost(msg.id)]
  {
    hide Sent, ReplyTarget, Valid, HasFeishu, HasMatrix, FiledUnder;
    if SendCount(msg.content, msg.attachments, env.attachmentSends) != 0 {
      var events := MatrixEvents(bot, msg, env);
      Stores(t, Row(events[0], msg.id, env.room, None), env.insertOk);
    }
  }

  lemma Stores(t: Table, row: Row, insertOk: bool)
    ensures Insert(t, row, insertOk).1 ==>
              FiledUnder(Insert(t, row, insertOk).0, row.matrixEvent, row.feishuMessage, row.room)
  {
    if Insert(t, row, insertOk).1 {
      assert Insert(t, row, insertOk).0.rows[t.nextId] == row;
    }
  }

  // ----- All Feishu events -----

  /**
   * When a handler run of the Feishu side answers Ok: `before` is the table at its start, where a message already mapped
   * ends the run, and `t` the one at its end.
   */
  lemma AnswerOfRun(before: Table, t: Table, opts: Options, ev: Event, readOk: bool, env: HandlerEnv)
    requires Valid(t)
    ensures Complete(t, opts, Run(ev, Begin(before, ev, readOk)), env).ok <==>
            match ev.body
            case Receive(msg) =>
              && readOk
              && (|| HasFeishu(before, msg.id)
                  || (&& env.message.roomRead && (MappedUserJoins(opts.bot, env.message) || env.message.botRegistered)
                      && (msg.parent.Some? ==> env.message.parentRead)
                      && (IsBlank(msg.content) || env.message.textSend.Some?)))
            case Recall(_, _) => env.recall.lookupRead
            case ChatChange(_) => env.chat.lookup.NoRoom? || (env.chat.lookup.Room? && env.chat.writeOk)
            case Disband(_) => env.chat.lookup.NoRoom? || (env.chat.lookup.Room? && env.chat.listRead && env.chat.writeOk)
  {
    hide Sent, ReplyTarget, Insert, DeleteRows, NewestOfRoom, Notice, HasFeishu;
  }

  /** A recall redacts the event its message is linked to; nothing else of the Feishu side redacts, edits or recalls. */
  lemma RedactionsOfRun(t: Table, opts: Options, run: Run, env: HandlerEnv, effect: Effect)
    requires Valid(t) && (effect.MatrixRedaction? || effect.FeishuEdit? || effect.FeishuRecall? || effect.FeishuMessage?)
    ensures effect in Complete(t, opts, run, env).effects <==>
            && run.phase == Proceed && run.ev.body.Recall? && env.recall.lookupRead && env.recall.redactOk
            && effect.MatrixRedaction? && Links(t, effect.redacted, run.ev.body.message)
  {
    hide Deliver, HandleDisbanded, FindFeishu;
    if run.phase == Proceed {
      match run.ev.body
      case Receive(msg) => NotInDelivery(t, opts.bot, msg, env.message, effect);
      case Recall(_, message) => RecallRedacts(t, message, env.recall, effect);
      case ChatChange(_) =>
      case Disband(_) => DisbandedEffects(t, opts.bot, env.chat, effect);
    }
  }

  lemma NotInDelivery(t: Table, bot: string, msg: Message, env: MessageEnv, effect: Effect)
    requires Valid(t) && !effect.MatrixMessage? && !effect.RowLost?
    ensures effect !in Deliver(t, bot, msg, env).effects
  {
    if Deliver(t, bot, msg, env).effects != [] {
      var sends, row := DeliverShape(t, bot, msg, env);
      RecordedShape(t, sends, row, env.insertOk);
    }
  }

  lemma RecallRedacts(t: Table, message: string, env: RecallEnv, effect: Effect)
    requires Valid(t) && !effect.RowDeleted?
    ensures effect in HandleRecalled(t, message, env).effects <==>
            env.lookupRead && env.redactOk && effect.MatrixRedaction? && Links(t, effect.redacted, message)
  {
    var o := HandleRecalled(t, message, env);
    var found := FindFeishu(t, message);
    if env.lookupRead && found.Some? {
      if env.redactOk {
        assert o.effects[0] == MatrixRedaction(t.rows[found.value].matrixEvent);
      }
      if effect.MatrixRedaction? && Links(t, effect.redacted, message) {
        LinkFound(t, effect.redacted, message);
      }
    }
  }

  lemma DisbandedEffects(t: Table, bot: string, env: ChatEnv, effect: Effect)
    requires Valid(t) && !effect.RowDeleted?
    ensures effect in HandleDisbanded(t, bot, env).effects <==>
            && env.lookup.Room? && env.listRead && env.writeOk
            && env.notice.Some? && effect == MatrixMessage(env.notice.value, bot, None, false, None)
  {
    hide DeleteRows, NewestOfRoom;
    if env.lookup.Room? && env.listRead {
      var ids := NewestOfRoom(t, env.lookup.room, t.nextId, DISBAND_LIMIT);
      DeleteRowsEffects(t, ids, env.failing);
      var deleted := DeleteRows(t, ids, env.failing).effects;
      assert effect !in deleted;
      if env.writeOk && env.notice.Some? {
        var notice := MatrixMessage(env.notice.value, bot, None, false, None);
        assert (deleted + [notice])[|deleted|] == notice;
      }
    }
  }

  /** A message of no Feishu message's making is the bot's notice about a chat, after the room's own write. */
  lemma NoticesOfRun(t: Table, opts: Options, run: Run, env: HandlerEnv, effect: Effect)
    requires Valid(t) && effect.MatrixMessage? && effect.source.None?
    ensures effect in Complete(t, opts, run, env).effects <==>
            && run.phase == Proceed && (run.ev.body.ChatChange? || (run.ev.body.Disband? && env.chat.listRead))
            && env.chat.lookup.Room? && env.chat.writeOk
            && env.chat.notice.Some? && effect == MatrixMessage(env.chat.notice.value, opts.bot, None, false, None)
  {
    hide Deliver, HandleDisbanded, FindFeishu;
    if run.phase == Proceed {
      match run.ev.body
      case Receive(msg) => NoNoticeInDelivery(t, opts.bot, msg, env.message, effect);
      case Recall(_, message) =>
      case ChatChange(_) =>
        if env.chat.notice.Some? {
          assert Notice(opts.bot, env.chat.notice)[0] == MatrixMessage(env.chat.notice.value, opts.bot, None, false, None);
        }
      case Disband(_) => DisbandedEffects(t, opts.bot, env.chat, effect);
    }
  }

  lemma NoNoticeInDelivery(t: Table, bot: string, msg: Message, env: MessageEnv, effect: Effect)
    requires Valid(t) && effect.MatrixMessage? && effect.source.None?
    ensures effect !in Deliver(t, bot, msg, env).effects
  {
    hide Sent, ReplyTarget, Insert;
  }

  /** The row belongs to the disbanded room, has fewer than `DISBAND_LIMIT` newer rows there, and can be deleted. */
  predicate DisbandTakes(t: Table, env: ChatEnv, i: nat)
    requires i in t.rows
  {
    && env.lookup.Room? && env.listRead && i !in env.failing && t.rows[i].room == env.lookup.room
    && |NewerRows(t, env.lookup.room, i, t.nextId)| < DISBAND_LIMIT
  }

  /** The row goes: its message is recalled, or it is among the newest `DISBAND_LIMIT` of a disbanded room. */
  predicate Forgets(t: Table, run: Run, env: HandlerEnv, i: nat)
    requires i in t.rows
  {
    && run.phase == Proceed
    && match run.ev.body
       case Recall(_, message) =>
         env.recall.lookupRead && env.recall.deleteOk && t.rows[i].feishuMessage == message
       case Disband(_) => DisbandTakes(t, env.chat, i)
       case _ => false
  }

  /**
   * Which rows a run of the Feishu side forgets: whether the event could be redacted, or the room's mapping be deleted
   * afterwards, plays no part.
   */
  lemma RowsForgotten(t: Table, opts: Options, run: Run, env: HandlerEnv, i: nat)
    requires Valid(t) && i in t.rows
    ensures var rows := Complete(t, opts, run, env).table.rows;
            (i in rows <==> !Forgets(t, run, env, i)) && (i in rows ==> rows[i] == t.rows[i])
  {
    hide Deliver, HandleDisbanded, FindFeishu, DisbandTakes;
    if run.phase == Proceed {
      match run.ev.body
      case Receive(msg) => DeliveryKeeps(t, opts.bot, msg, env.message, i);
      case Recall(_, message) => RecallForgets(t, message, env.recall, i);
      case ChatChange(_) =>
      case Disband(_) => DisbandForgets(t, opts.bot, env.chat, i);
    }
  }

  lemma DeliveryKeeps(t: Table, bot: string, msg: Message, env: MessageEnv, i: nat)
    requires Valid(t) && i in t.rows
    ensures var rows := Deliver(t, bot, msg, env).table.rows; i in rows && rows[i] == t.rows[i]
  {
    hide Sent, ReplyTarget, MatrixMessages, HasFeishu, HasMatrix;
  }

  lemma RecallForgets(t: Table, message: string, env: RecallEnv, i: nat)
    requires Valid(t) && i in t.rows
    ensures var rows := HandleRecalled(t, message, env).table.rows;
            && (i in rows <==> !(env.lookupRead && env.deleteOk && t.rows[i].feishuMessage == message))
            && (i in rows ==> rows[i] == t.rows[i])
  {
  }

  lemma DisbandForgets(t: Table, bot: string, env: ChatEnv, i: nat)
    requires Valid(t) && i in t.rows
    ensures var rows := HandleDisbanded(t, bot, env).table.rows;
            (i in rows <==> !DisbandTakes(t, env, i)) && (i in rows ==> rows[i] == t.rows[i])
  {
    hide DeleteRows, NewestOfRoom, NewerRows;
    if env.lookup.Room? && env.listRead {
      DeleteRowsEffects(t, NewestOfRoom(t, env.lookup.room, t.nextId, DISBAND_LIMIT), env.failing);
      NewestOfRoomExact(t, env.lookup.room, t.nextId, DISBAND_LIMIT, i);
    }
  }

  // ----- Matrix events -----

  /** The event is to be forwarded as `out`: a stranger's message whose content was not forwarded before. */
  predicate Passes(t: Table, opts: Options, ev: MatrixEvent, env: MatrixEnv) {
    && ev.kind.MessageEvent? && !opts.own(ev.sender) && env.plan.Forward?
    && env.hashRead && !HasHash(t, env.plan.out.hash)
  }

  /**
   * A Feishu message is edited exactly for a stranger's new edit of the event it is linked to, with edits on and Feishu
   * willing.
   */
  lemma EditsOfEvent(t: Table, opts: Options, ev: MatrixEvent, env: MatrixEnv, message: string)
    requires Valid(t)
    ensures FeishuEdit(message) in HandleMatrixKind(t, opts, ev, env).effects <==>
            && Passes(t, opts, ev, env) && env.plan.out.editOf.Some?
            && opts.edit && env.targetRead && env.remoteOk && Links(t, env.plan.out.editOf.value, message)
  {
    hide SendOut, HandleEdit, FindMatrix, HasHash;
    if Passes(t, opts, ev, env) {
      if env.plan.out.editOf.Some? {
        EditOnly(t, opts, env.plan.out.editOf.value, env, message);
      } else {
        OnlyFeishuMessages(t, opts, ev, env.plan.out, env, FeishuEdit(message));
      }
    }
  }

  lemma EditOnly(t: Table, opts: Options, target: string, env: MatrixEnv, message: string)
    requires Valid(t)
    ensures FeishuEdit(message) in HandleEdit(t, opts, target, env).effects <==>
            opts.edit && env.targetRead && env.remoteOk && Links(t, target, message)
  {
    if Links(t, target, message) {
      LinkFound(t, target, message);
    }
    if HasMatrix(t, target) && opts.edit && env.targetRead && env.remoteOk {
      var i := FindMatrix(t, target).value;
      assert HandleEdit(t, opts, target, env).effects == [FeishuEdit(t.rows[i].feishuMessage)];
    }
  }

  lemma OnlyFeishuMessages(t: Table, opts: Options, ev: MatrixEvent, out: Outbound, env: MatrixEnv, effect: Effect)
    requires Valid(t) && !effect.FeishuMessage? && !effect.RowLost?
    ensures effect !in SendOut(t, opts, ev, out, env).effects
  {
    hide Sent, FeishuReplyTarget, Insert;
  }

  /** A Feishu message is recalled exactly for a redaction of the event it is linked to. */
  lemma RecallsOfEvent(t: Table, opts: Options, ev: MatrixEvent, env: MatrixEnv, message: string)
    requires Valid(t)
    ensures FeishuRecall(message) in HandleMatrixKind(t, opts, ev, env).effects <==>
            && ev.kind.RedactionEvent? && ev.kind.redacts.Some? && opts.redactions
            && env.targetRead && env.remoteOk && Links(t, ev.kind.redacts.value, message)
  {
    hide SendOut, HandleRedaction, FindMatrix, HasHash;
    match ev.kind
    case MessageEvent =>
      if env.plan.Forward? {
        OnlyFeishuMessages(t, opts, ev, env.plan.out, env, FeishuRecall(message));
      }
    case RedactionEvent(redacts) => RedactionRecalls(t, opts, redacts, env, message);
    case OtherEvent =>
  }

  lemma RedactionRecalls(t: Table, opts: Options, redacts: Option<string>, env: MatrixEnv, message: string)
    requires Valid(t)
    ensures FeishuRecall(message) in HandleRedaction(t, opts, redacts, env).effects <==>
            redacts.Some? && opts.redactions && env.targetRead && env.remoteOk && Links(t, redacts.value, message)
  {
    if redacts.Some? && Links(t, redacts.value, message) {
      LinkFound(t, redacts.value, message);
    }
    if redacts.Some? && opts.redactions && env.targetRead && env.remoteOk && HasMatrix(t, redacts.value) {
      var i := FindMatrix(t, redacts.value).value;
      assert HandleRedaction(t, opts, redacts, env).effects[0] == FeishuRecall(t.rows[i].feishuMessage);
    }
  }

  /** A row goes on the Matrix side exactly when its event is redacted, its message recalled, and the store works. */
  lemma RowsRedacted(t: Table, opts: Options, ev: MatrixEvent, env: MatrixEnv, i: nat)
    requires Valid(t) && i in t.rows
    ensures var rows := HandleMatrixKind(t, opts, ev, env).table.rows;
            && (i in rows <==> !(&& ev.kind == RedactionEvent(Some(t.rows[i].matrixEvent)) && opts.redactions
                                 && env.targetRead && env.remoteOk && env.deleteOk))
            && (i in rows ==> rows[i] == t.rows[i])
  {
    hide Sent, FeishuReplyTarget, FeishuMessages, HasHash, Notice, HasFeishu;
    if ev.kind.RedactionEvent? && ev.kind.redacts.Some? {
      RedactionForgets(t, opts, ev.kind.redacts, env, i);
    }
  }

  lemma RedactionForgets(t: Table, opts: Options, redacts: Option<string>, env: MatrixEnv, i: nat)
    requires Valid(t) && i in t.rows
    ensures var rows := HandleRedaction(t, opts, redacts, env).table.rows;
            && (i in rows <==> !(redacts == Some(t.rows[i].matrixEvent) && opts.redactions
                                 && env.targetRead && env.remoteOk && env.deleteOk))
            && (i in rows ==> rows[i] == t.rows[i])
  {
  }

  /** The text of `out` gets into Feishu, if it has one. */
  predicate TextGoesOut(opts: Options, out: Outbound, env: MatrixEnv) {
    IsBlank(out.content) || (env.textSend.Some? && (opts.reply && out.replyTo.Some? ==> env.targetRead))
  }

  /** When a handler run of the Matrix side answers Ok. */
  lemma AnswerOfEvent(t: Table, opts: Options, ev: MatrixEvent, env: MatrixEnv)
    requires Valid(t)
    ensures HandleMatrixKind(t, opts, ev, env).ok <==>
            match ev.kind
            case OtherEvent => true
            case RedactionEvent(redacts) =>
              !opts.redactions || redacts.None? || (env.targetRead && (HasMatrix(t, redacts.value) ==> env.remoteOk))
            case MessageEvent =>
              opts.own(ev.sender) ||
              match env.plan
              case Ignored => true
              case Command(done, _) => done
              case RoomReadFailed => false
              case Forward(out) =>
                && env.hashRead
                && (|| HasHash(t, out.hash)
                    || if out.editOf.Some?
                       then !opts.edit || (env.targetRead && (HasMatrix(t, out.editOf.value) ==> env.remoteOk))
                       else opts.degrade || TextGoesOut(opts, out, env))
  {
    hide Sent, FeishuReplyTarget, FeishuMessages, HasHash, HasMatrix, Insert;
  }

  ghost predicate IsFeishuReply(t: Table, replyTo: Option<string>, reply: Option<string>) {
    forall message :: reply == Some(message) <==> replyTo.Some? && Links(t, replyTo.value, message)
  }

  /**
   * The k-th effect of a forwarded message: its text, then its attachments; the text, and nothing else, is a reply, to
   * the message its target is linked to, if replies are bridged.
   */
  lemma ForwardSends(t: Table, opts: Options, ev: MatrixEvent, env: MatrixEnv, k: nat)
    requires Valid(t) && Passes(t, opts, ev, env) && env.plan.out.editOf.None? && TextGoesOut(opts, env.plan.out, env)
    requires k < SendCount(env.plan.out.content, env.plan.out.attachments, env.attachmentSends)
    ensures var o := HandleMatrixKind(t, opts, ev, env); var out := env.plan.out;
            && k < |o.effects| && o.effects[k].FeishuMessage?
            && Some(o.effects[k].message) == SendAt(out.content, env.textSend, out.attachments, env.attachmentSends, k)
            && o.effects[k].origin == ev.id && (o.effects[k].linked <==> k == 0 && ev.id.Some?)
            && if k < Texts(out.content) && opts.reply then IsFeishuReply(t, out.replyTo, o.effects[k].feishuReply)
               else o.effects[k].feishuReply == None
  {
    hide Sent, FeishuReplyTarget, Insert, Valid, HasHash;
    var out := env.plan.out;
    forall message
      ensures FeishuReplyTarget(t, opts, out) == Some(message) <==>
              opts.reply && out.replyTo.Some? && !IsBlank(out.content) && Links(t, out.replyTo.value, message)
    {
      FeishuReplyTargetExact(t, opts, out, message);
    }
    if IsBlank(out.content) || !opts.reply {
      assert FeishuReplyTarget(t, opts, out).None? by {
        var reply := FeishuReplyTarget(t, opts, out);
        if reply.Some? {
          FeishuReplyTargetExact(t, opts, out, reply.value);
        }
      }
    }
  }

  /** A forwarded message is recorded under the event's room and content hash, or its row is lost. */
  lemma ForwardRecord(t: Table, opts: Options, ev: MatrixEvent, env: MatrixEnv)
    requires Valid(t) && Passes(t, opts, ev, env) && env.plan.out.editOf.None? && TextGoesOut(opts, env.plan.out, env)
    ensures var o := HandleMatrixKind(t, opts, ev, env); var out := env.plan.out;
            var sends := SendCount(out.content, out.attachments, env.attachmentSends);
            if sends == 0 then o == Done(t)
            else
              && sends <= |o.effects| && o.effects[0].FeishuMessage?
              && if ev.id.None? then o.table == t && |o.effects| == sends
                 else if env.insertOk && !HasFeishu(t, o.effects[0].message) && !HasMatrix(t, ev.id.value)
                 then
                   && FiledUnder(o.table, ev.id.value, o.effects[0].message, ev.room) && HasHash(o.table, out.hash)
                   && |o.effects| == sends
                 else o.table == t && o.effects[sends..] == [RowLost(o.effects[0].message)]
  {
    hide Sent, FeishuReplyTarget, Valid, HasFeishu, HasMatrix, FiledUnder, HasHash;
    var out := env.plan.out;
    assert HandleMatrixKind(t, opts, ev, env) == SendOut(t, opts, ev, out, env);
    if FeishuIds(opts, out, env) != [] && ev.id.Some? {
      var row := Row(ev.id.value, FeishuIds(opts, out, env)[0], ev.room, Some(out.hash));
      Stores(t, row, env.insertOk);
      StoresHash(t, row, env.insertOk, out.hash);
    }
  }

  lemma StoresHash(t: Table, row: Row, insertOk: bool, hash: string)
    requires row.contentHash == Some(hash)
    ensures Insert(t, row, insertOk).1 ==> HasHash(Insert(t, row, insertOk).0, hash)
  {
    if Insert(t, row, insertOk).1 {
      assert Insert(t, row, insertOk).0.rows[t.nextId] == row;
    }
  }

  /**
   * A message whose text does not go out sends nothing of itself and maps nothing. With degradation on, the chat gets a
   * notice, if there is a text for it and Feishu takes it.
   */
  lemma FailureNotice(t: Table, opts: Options, ev: MatrixEvent, env: MatrixEnv)
    requires Valid(t) && Passes(t, opts, ev, env) && env.plan.out.editOf.None? && !TextGoesOut(opts, env.plan.out, env)
    ensures var o := HandleMatrixKind(t, opts, ev, env);
            && o.table == t && o.ok == opts.degrade
            && (forall effect :: effect in o.effects <==>
                  && opts.degrade && !IsBlank(opts.noticeTemplate) && env.notice.Some?
                  && effect == FeishuMessage(env.notice.value, None, false, None))
  {
    hide Sent, FeishuReplyTarget, Insert, HasHash;
    var o := HandleMatrixKind(t, opts, ev, env);
    if opts.degrade && !IsBlank(opts.noticeTemplate) && env.notice.Some? {
      assert o.effects == [FeishuMessage(env.notice.value, None, false, None)];
    } else {
      assert o.effects == [];
    }
  }

  /** The Matrix side puts into Matrix nothing but the bot's answer to a stranger's command that was carried out. */
  lemma AnswersToCommands(t: Table, opts: Options, ev: MatrixEvent, env: MatrixEnv, effect: Effect)
    requires Valid(t) && (effect.MatrixMessage? || effect.MatrixRedaction?)
    ensures effect in HandleMatrixKind(t, opts, ev, env).effects <==>
            && ev.kind.MessageEvent? && !opts.own(ev.sender) && env.plan.Command? && env.plan.done
            && env.plan.reply.Some? && effect == MatrixMessage(env.plan.reply.value, opts.bot, None, false, None)
  {
    hide SendOut, HasHash, FindMatrix;
    if ev.kind.MessageEvent? && !opts.own(ev.sender) {
      if env.plan.Forward? {
        OnlyFeishuMessages(t, opts, ev, env.plan.out, env, effect);
      } else if env.plan.Command? && env.plan.reply.Some? {
        assert Notice(opts.bot, env.plan.reply)[0] == MatrixMessage(env.plan.reply.value, opts.bot, None, false, None);
      }
    }
  }

  /** Nothing goes to Feishu for an event that is not to be forwarded, and it is not mapped. */
  lemma NotForwarded(t: Table, opts: Options, ev: MatrixEvent, env: MatrixEnv)
    requires Valid(t) && !(Passes(t, opts, ev, env) && env.plan.out.editOf.None?)
    ensures var o := HandleMatrixKind(t, opts, ev, env);
            && (forall k | 0 <= k < |o.effects| :: !o.effects[k].FeishuMessage? && !o.effects[k].RowLost?)
            && (forall i | i in o.table.rows :: i in t.rows && o.table.rows[i] == t.rows[i])
  {
    hide SendOut, HasHash, HasMatrix;
  }

  // ----- Processing a Matrix event -----

  /** The event is looked at: it has no id, or the store can tell that it was not processed before. */
  predicate IsNew(processed: set<string>, ev: MatrixEvent, env: MatrixEnv) {
    ev.id.Some? ==> env.processedRead && ev.id.value !in processed
  }

  /**
   * The handler acts on new events only. Of the marks at most the event's own changes, an error never marks, and Ok is
   * answered exactly when the event stands marked in the end, as far as the store could be asked.
   */
  lemma ProcessExact(t: Table, processed: set<string>, opts: Options, ev: MatrixEvent, env: MatrixEnv)
    requires Valid(t)
    ensures var (o, processed') := ProcessMatrix(t, processed, opts, ev, env); var h := HandleMatrixKind(t, opts, ev, env);
            && o.effects == (if IsNew(processed, ev, env) then h.effects else [])
            && o.table == (if IsNew(processed, ev, env) then h.table else t)
            && (!o.ok ==> processed' == processed)
            && processed <= processed' <= processed + (if ev.id.Some? then {ev.id.value} else {})
            && (o.ok <==> if ev.id.None? then h.ok else env.processedRead && ev.id.value in processed')
            && (ev.id.Some? && IsNew(processed, ev, env) ==> (ev.id.value in processed' <==> h.ok && env.markOk))
  {
    hide HandleMatrixKind;
    UnhandledIsEmpty(t);
  }

  lemma UnhandledIsEmpty(t: Table)
    ensures Failed(t).effects == Done(t).effects == []
  {
  }
}
