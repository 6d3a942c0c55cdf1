/**
 * The handlers step by step, over the bridge's stores and the history of its sends. Every method is proved to do
 * what the functions of `Bridge` say, so what is proved of those holds of it.
 */
module Service {
  import opened Wrappers
  import opened Text
  import opened MessageTable
  import opened Bridge

  /** Attachments sent after other messages, or first of all when `primary`. */
  function AttachmentMessages(events: seq<string>, sender: string, source: string, primary: bool, reply: Option<string>)
    : seq<Effect>
  {
    seq(|events|, i requires 0 <= i < |events| =>
      MatrixMessage(events[i], sender, Some(source), primary && i == 0, if i == 0 then reply else None))
  }

  lemma TextThenAttachments(text: seq<string>, events: seq<string>, sender: string, source: string,
                            reply: Option<string>)
    requires |text| <= 1
    ensures MatrixMessages(text + events, sender, source, reply) ==
            MatrixMessages(text, sender, source, reply) +
            AttachmentMessages(events, sender, source, text == [], if text == [] then reply else None)
  {
  }

  lemma NoMessages(sender: string, source: string, reply: Option<string>)
    ensures MatrixMessages([], sender, source, reply) == []
  {
  }

  function AttachmentSends(messages: seq<string>, origin: Option<string>, primary: bool): seq<Effect> {
    seq(|messages|, i requires 0 <= i < |messages| =>
      FeishuMessage(messages[i], origin, primary && i == 0 && origin.Some?, None))
  }

  lemma TextThenAttachmentSends(text: seq<string>, messages: seq<string>, origin: Option<string>, reply: Option<string>)
    requires |text| <= 1 && (text == [] ==> reply == None)
    ensures FeishuMessages(text + messages, origin, reply) ==
            FeishuMessages(text, origin, reply) + AttachmentSends(messages, origin, text == [])
  {
  }

  class FeishuBridge {
    const opts: Options
    var rows: map<nat, Row>
    var nextId: nat
    var processed: set<string>
    var history: seq<Effect>

    constructor (opts: Options)
      ensures this.opts == opts && Contents() == EMPTY && processed == {} && history == []
    {
      this.opts := opts;
      rows, nextId, processed, history := map[], 1, {}, [];
    }

    function Contents(): Table
      reads this
    {
      Table(rows, nextId)
    }

    /** The state after an outcome computed from the state before. */
    twostate predicate Did(o: Outcome, ok: bool)
      reads this
    {
      Contents() == o.table && history == old(history) + o.effects && ok == o.ok
    }

    method CreateMessageMapping(row: Row, storeOk: bool)
      requires Valid(Contents())
      modifies this`rows, this`nextId, this`history
      ensures Contents() == Insert(old(Contents()), row, storeOk).0
      ensures history == old(history) + if Insert(old(Contents()), row, storeOk).1 then [] else [RowLost(row.feishuMessage)]
    {
      if storeOk && !HasMatrix(Contents(), row.matrixEvent) && !HasFeishu(Contents(), row.feishuMessage) {
        rows := rows[nextId := row];
        nextId := nextId + 1;
      } else {
        history := history + [RowLost(row.feishuMessage)];
      }
    }

    /** `forward_feishu_attachments_to_matrix`: a failed attachment is skipped, the first success takes the reply. */
    method ForwardFeishuAttachmentsToMatrix(sender: string, msg: Message, answers: seq<Option<string>>, primary: bool,
                                            reply: Option<string>)
      returns (events: seq<string>)
      modifies this`history
      ensures events == Sent(answers, |msg.attachments|)
      ensures history == old(history) + AttachmentMessages(events, sender, msg.id, primary, reply)
    {
      events := [];
      var pendingReply := reply;
      var i := 0;
      while i < |msg.attachments|
        invariant 0 <= i <= |msg.attachments|
        invariant events == Sent(answers, i)
        invariant pendingReply == if events == [] then reply else None
        invariant history == old(history) + AttachmentMessages(events, sender, msg.id, primary, reply)
      {
        if i < |answers| && answers[i].Some? {
          var event := answers[i].value;
          history := history + [MatrixMessage(event, sender, Some(msg.id), primary && events == [], pendingReply)];
          events := events + [event];
          pendingReply := None;
        }
        i := i + 1;
      }
    }

    /** The mapped user, or the bot when there is none or it cannot join the room. */
    method SelectSender(env: MessageEnv) returns (sender: Option<string>)
      ensures sender == EffectiveSender(opts.bot, env)
    {
      var user := if env.mapped.Some? then env.mapped.value else opts.bot;
      if user == opts.bot || !env.joined {
        if !env.botRegistered {
          return None;
        }
        user := opts.bot;
      }
      return Some(user);
    }

    /** `send_matrix_text_message`, then the attachments: all that goes to Matrix for one message. */
    method SendToMatrix(sender: string, msg: Message, env: MessageEnv, reply: Option<string>)
      returns (ok: bool, events: seq<string>)
      modifies this`history
      ensures ok == (HasText(msg) ==> env.textSend.Some?)
      ensures !ok ==> history == old(history)
      ensures ok ==> events == (if HasText(msg) then [env.textSend.value] else []) + Sent(env.attachmentSends, |msg.attachments|)
      ensures ok ==> history == old(history) + MatrixMessages(events, sender, msg.id, reply)
    {
      var text: seq<string> := [];
      if HasText(msg) {
        if env.textSend.None? {
          return false, [];
        }
        history := history + [MatrixMessage(env.textSend.value, sender, Some(msg.id), true, reply)];
        text := [env.textSend.value];
      }
      var attachments := ForwardFeishuAttachmentsToMatrix(sender, msg, env.attachmentSends, text == [],
                                                          if text == [] then reply else None);
      TextThenAttachments(text, attachments, sender, msg.id, reply);
      assert history == old(history) + MatrixMessages(text + attachments, sender, msg.id, reply);
      return true, text + attachments;
    }

    /** `handle_feishu_message`. */
    method HandleFeishuMessage(msg: Message, dedupeRead: bool, env: MessageEnv) returns (ok: bool)
      requires Valid(Contents())
      modifies this`rows, this`nextId, this`history
      ensures Did(HandleMessage(old(Contents()), opts.bot, msg, dedupeRead, env), ok)
    {
      hide HasFeishu, HasMatrix, HasText, MatrixMessages, Valid;
      if !dedupeRead {
        return false;
      }
      if HasFeishu(Contents(), msg.id) {
        return true;
      }
      if !env.roomRead {
        return false;
      }
      var sender := SelectSender(env);
      if sender.None? {
        return false;
      }
      var reply: Option<string> := None;
      if msg.parent.Some? {
        if !env.parentRead {
          return false;
        }
        var found := FindFeishu(Contents(), msg.parent.value);
        if found.Some? {
          reply := Some(rows[found.value].matrixEvent);
        }
      }
      assert reply == ReplyTarget(Contents(), msg.parent);
      var sent, events := SendToMatrix(sender.value, msg, env, reply);
      if !sent {
        return false;
      }
      if events == [] {
        NoMessages(sender.value, msg.id, reply);
        return true;
      }
      CreateMessageMapping(Row(events[0], msg.id, env.room, None), env.insertOk);
      return true;
    }

    method DeleteMessageMapping(id: nat, storeOk: bool)
      requires id in rows
      modifies this`rows, this`history
      ensures Contents() == if storeOk then Delete(old(Contents()), id) else old(Contents())
      ensures history == old(history) + if storeOk then [RowDeleted(old(rows[id].feishuMessage))] else []
    {
      if storeOk {
        history := history + [RowDeleted(rows[id].feishuMessage)];
        rows := rows - {id};
      }
    }

    /** `handle_feishu_message_recalled`. */
    method HandleFeishuMessageRecalled(message: string, env: RecallEnv) returns (ok: bool)
      requires Valid(Contents())
      modifies this`rows, this`history
      ensures Did(HandleRecalled(old(Contents()), message, env), ok)
    {
      if !env.lookupRead {
        return false;
      }
      var found := FindFeishu(Contents(), message);
      if found.None? {
        return true;
      }
      if env.redactOk {
        history := history + [MatrixRedaction(rows[found.value].matrixEvent)];
      }
      DeleteMessageMapping(found.value, env.deleteOk);
      return true;
    }

    /** Deletes one row after the other; a row that cannot be deleted stays. */
    method DeleteMessageMappings(ids: seq<nat>, failing: set<nat>)
      requires forall k | 0 <= k < |ids| :: ids[k] in rows
      requires forall k, l | 0 <= k < l < |ids| :: ids[l] < ids[k]
      modifies this`rows, this`history
      ensures Did(DeleteRows(old(Contents()), ids, failing), true)
    {
      ghost var deleted := DeleteRows(Contents(), ids, failing);
      var k := 0;
      while k < |ids|
        invariant 0 <= k <= |ids|
        invariant forall l | k <= l < |ids| :: ids[l] in rows
        invariant deleted.table == DeleteRows(Contents(), ids[k..], failing).table && deleted.ok
        invariant old(history) + deleted.effects == history + DeleteRows(Contents(), ids[k..], failing).effects
      {
        assert ids[k..][1..] == ids[k + 1..];
        DeleteMessageMapping(ids[k], ids[k] !in failing);
        k := k + 1;
      }
    }

    /** `handle_feishu_chat_disbanded`. */
    method HandleFeishuChatDisbanded(env: ChatEnv) returns (ok: bool)
      modifies this`rows, this`history
      ensures Did(HandleDisbanded(old(Contents()), opts.bot, env), ok)
    {
      hide NewestOfRoom, DeleteRows, Notice;
      if env.lookup.ReadFailed? {
        return false;
      }
      if env.lookup.NoRoom? {
        return true;
      }
      if !env.listRead {
        return false;
      }
      var ids := NewestOfRoom(Contents(), env.lookup.room, nextId, DISBAND_LIMIT);
      DeleteMessageMappings(ids, env.failing);
      if !env.writeOk {
        return false;
      }
      history := history + Notice(opts.bot, env.notice);
      return true;
    }

    /** The member and chat-update handlers, as far as mappings and messages go. */
    method HandleFeishuChatChange(env: ChatEnv) returns (ok: bool)
      modifies this`history
      ensures Did(HandleChatChange(old(Contents()), opts.bot, env), ok)
    {
      match env.lookup
      case ReadFailed => return false;
      case NoRoom => return true;
      case Room(_) =>
        if !env.writeOk {
          return false;
        }
        if env.notice.Some? {
          history := history + [MatrixMessage(env.notice.value, opts.bot, None, false, None)];
        }
        return true;
    }

    /** `send_outbound_message`: the text part; None when there is no text. */
    method SendOutboundMessage(origin: Option<string>, out: Outbound, env: MatrixEnv) returns (ok: bool,
                               sent: seq<string>)
      requires Valid(Contents())
      modifies this`history
      ensures ok == !OutboundFails(opts, out, env)
      ensures !ok ==> history == old(history)
      ensures ok ==> sent == (if !IsBlank(out.content) then [env.textSend.value] else [])
      ensures ok ==> history == old(history) + FeishuMessages(sent, origin, FeishuReplyTarget(Contents(), opts, out))
    {
      sent := [];
      if IsBlank(out.content) {
        return true, sent;
      }
      var reply: Option<string> := None;
      if opts.reply && out.replyTo.Some? {
        if !env.targetRead {
          return false, sent;
        }
        var found := FindMatrix(Contents(), out.replyTo.value);
        if found.Some? {
          reply := Some(rows[found.value].feishuMessage);
        }
      }
      if env.textSend.None? {
        return false, sent;
      }
      history := history + [FeishuMessage(env.textSend.value, origin, origin.Some?, reply)];
      return true, [env.textSend.value];
    }

    /** `forward_attachments_to_feishu`. */
    method ForwardAttachmentsToFeishu(origin: Option<string>, attachments: seq<string>, answers: seq<Option<string>>,
                                      primary: bool)
      returns (messages: seq<string>)
      modifies this`history
      ensures messages == Sent(answers, |attachments|)
      ensures history == old(history) + AttachmentSends(messages, origin, primary)
    {
      messages := [];
      var i := 0;
      while i < |attachments|
        invariant 0 <= i <= |attachments|
        invariant messages == Sent(answers, i)
        invariant history == old(history) + AttachmentSends(messages, origin, primary)
      {
        if i < |answers| && answers[i].Some? {
          var message := answers[i].value;
          history := history + [FeishuMessage(message, origin, primary && messages == [] && origin.Some?, None)];
          messages := messages + [message];
        }
        i := i + 1;
      }
    }

    /** `send_failure_degrade_notice`, or the error itself when degradation is off. */
    method Degrade(env: MatrixEnv) returns (ok: bool)
      modifies this`history
      ensures Did(Degraded(old(Contents()), opts, env), ok)
    {
      if !opts.degrade {
        return false;
      }
      if !IsBlank(opts.noticeTemplate) && env.notice.Some? {
        history := history + [FeishuMessage(env.notice.value, None, false, None)];
      }
      return true;
    }

    /** `handle_edit_message`. */
    method HandleEditMessage(target: string, env: MatrixEnv) returns (ok: bool)
      requires Valid(Contents())
      modifies this`history
      ensures Did(HandleEdit(old(Contents()), opts, target, env), ok)
    {
      if !opts.edit {
        return true;
      }
      if !env.targetRead {
        return false;
      }
      var found := FindMatrix(Contents(), target);
      if found.None? {
        return true;
      }
      if !env.remoteOk {
        return false;
      }
      history := history + [FeishuEdit(rows[found.value].feishuMessage)];
      return true;
    }

    /** `handle_message_event`, from the send to the mapping. */
    method SendAndRecord(ev: MatrixEvent, out: Outbound, env: MatrixEnv) returns (ok: bool)
      requires Valid(Contents())
      modifies this`rows, this`nextId, this`history
      ensures Did(SendOut(old(Contents()), opts, ev, out, env), ok)
    {
      var sent, text := SendOutboundMessage(ev.id, out, env);
      if !sent {
        ok := Degrade(env);
        return;
      }
      ghost var reply := FeishuReplyTarget(Contents(), opts, out);
      var attachments := ForwardAttachmentsToFeishu(ev.id, out.attachments, env.attachmentSends, text == []);
      TextThenAttachmentSends(text, attachments, ev.id, reply);
      assert history == old(history) + FeishuMessages(text + attachments, ev.id, reply);
      if text + attachments != [] && ev.id.Some? {
        CreateMessageMapping(Row(ev.id.value, (text + attachments)[0], ev.room, Some(out.hash)), env.insertOk);
      }
      return true;
    }

    /** `handle_message_event`. */
    method HandleMessageEvent(ev: MatrixEvent, env: MatrixEnv) returns (ok: bool)
      requires Valid(Contents())
      modifies this`rows, this`nextId, this`history
      ensures Did(HandleMatrixMessage(old(Contents()), opts, ev, env), ok)
    {
      if opts.own(ev.sender) {
        return true;
      }
      match env.plan
      case Ignored => return true;
      case Command(done, reply) =>
        if done && reply.Some? {
          history := history + [MatrixMessage(reply.value, opts.bot, None, false, None)];
        }
        return done;
      case RoomReadFailed => return false;
      case Forward(out) =>
        if !env.hashRead {
          return false;
        }
        if HasHash(Contents(), out.hash) {
          return true;
        }
        if out.editOf.Some? {
          ok := HandleEditMessage(out.editOf.value, env);
        } else {
          ok := SendAndRecord(ev, out, env);
        }
    }

    /** `handle_redaction_event`. */
    method HandleRedactionEvent(redacts: Option<string>, env: MatrixEnv) returns (ok: bool)
      requires Valid(Contents())
      modifies this`rows, this`history
      ensures Did(HandleRedaction(old(Contents()), opts, redacts, env), ok)
    {
      if !opts.redactions || redacts.None? {
        return true;
      }
      if !env.targetRead {
        return false;
      }
      var found := FindMatrix(Contents(), redacts.value);
      if found.None? {
        return true;
      }
      if !env.remoteOk {
        return false;
      }
      history := history + [FeishuRecall(rows[found.value].feishuMessage)];
      DeleteMessageMapping(found.value, env.deleteOk);
      return true;
    }

    /** `process_event`. */
    method ProcessEvent(ev: MatrixEvent, env: MatrixEnv) returns (ok: bool)
      requires Valid(Contents())
      modifies this
      ensures Did(ProcessMatrix(old(Contents()), old(processed), opts, ev, env).0, ok)
      ensures processed == ProcessMatrix(old(Contents()), old(processed), opts, ev, env).1
    {
      if ev.id.Some? {
        if !env.processedRead {
          return false;
        }
        if ev.id.value in processed {
          return true;
        }
      }
      match ev.kind {
        case MessageEvent => ok := HandleMessageEvent(ev, env);
        case RedactionEvent(redacts) => ok := HandleRedactionEvent(redacts, env);
        case OtherEvent => ok := true;
      }
      if ok && ev.id.Some? {
        if env.markOk {
          processed := processed + {ev.id.value};
        } else {
          ok := false;
        }
      }
    }
  }
}
