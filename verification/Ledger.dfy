/**
 * Book-keeping over the effects of handlers: what each run adds to a Feishu message's deliveries, and how that
 * balances with the mapping table.
 */
module Ledger {
  import opened Wrappers
  import opened MessageTable
  import opened Bridge

  datatype Entry = Delivered | Linked | Unmapped | Unrecorded | Forwarded

  /**
   * `Delivered`: the first Matrix message made for a Feishu message. `Linked`: a Feishu message made for a Matrix
   * event that a row is to record. `Unmapped`, `Unrecorded`: a row deleted, a row that could not be inserted.
   * `Forwarded`, under a Matrix event id: the first Feishu message made for that event.
   */
  predicate Enters(effect: Effect, entry: Entry, message: string) {
    match entry
    case Delivered => effect.MatrixMessage? && effect.primary && effect.source == Some(message)
    case Linked => effect.FeishuMessage? && effect.linked && effect.message == message
    case Unmapped => effect == RowDeleted(message)
    case Unrecorded => effect == RowLost(message)
    case Forwarded => effect.FeishuMessage? && effect.linked && effect.origin == Some(message)
  }

  function Count(effects: seq<Effect>, entry: Entry, message: string): nat {
    if effects == [] then 0
    else Count(effects[..|effects| - 1], entry, message) +
         if Enters(effects[|effects| - 1], entry, message) then 1 else 0
  }

  function Balance(effects: seq<Effect>, message: string): int {
    Count(effects, Delivered, message) + Count(effects, Linked, message)
    - Count(effects, Unmapped, message) - Count(effects, Unrecorded, message)
  }

  lemma {:induction false} CountAppend(a: seq<Effect>, b: seq<Effect>, entry: Entry, message: string)
    ensures Count(a + b, entry, message) == Count(a, entry, message) + Count(b, entry, message)
    decreases |b|
  {
    if b == [] {
      assert a + b == a;
    } else {
      assert (a + b)[..|a + b| - 1] == a + b[..|b| - 1];
      CountAppend(a, b[..|b| - 1], entry, message);
    }
  }

  lemma BalanceAppend(a: seq<Effect>, b: seq<Effect>, message: string)
    ensures Balance(a + b, message) == Balance(a, message) + Balance(b, message)
  {
    forall entry: Entry
      ensures Count(a + b, entry, message) == Count(a, entry, message) + Count(b, entry, message)
    {
      CountAppend(a, b, entry, message);
    }
  }

  lemma {:induction false} CountNone(effects: seq<Effect>, entry: Entry, message: string)
    requires forall k | 0 <= k < |effects| :: !Enters(effects[k], entry, message)
    ensures Count(effects, entry, message) == 0
    decreases |effects|
  {
    if effects != [] {
      CountNone(effects[..|effects| - 1], entry, message);
    }
  }

  lemma CountOne(effect: Effect, entry: Entry, message: string)
    ensures Count([effect], entry, message) == if Enters(effect, entry, message) then 1 else 0
  {
    assert [effect][..0] == [];
  }

  lemma HeadCount(effects: seq<Effect>, entry: Entry, message: string)
    requires effects != []
    requires forall k | 1 <= k < |effects| :: !Enters(effects[k], entry, message)
    ensures Count(effects, entry, message) == if Enters(effects[0], entry, message) then 1 else 0
  {
    assert effects == [effects[0]] + effects[1..];
    CountAppend([effects[0]], effects[1..], entry, message);
    CountOne(effects[0], entry, message);
    CountNone(effects[1..], entry, message);
  }

  /** Only the first effect of a list of sends is entered in the ledger. */
  lemma SendsBalance(sends: seq<Effect>, message: string)
    requires sends != []
    requires forall k, entry | 1 <= k < |sends| :: !Enters(sends[k], entry, message)
    ensures forall entry :: Count(sends, entry, message) == if Enters(sends[0], entry, message) then 1 else 0
  {
    forall entry: Entry
      ensures Count(sends, entry, message) == if Enters(sends[0], entry, message) then 1 else 0
    {
      HeadCount(sends, entry, message);
    }
  }

  /** A handler's effects account for exactly the change of the mapping table. */
  ghost predicate Balanced(before: Table, o: Outcome, message: string) {
    Balance(o.effects, message) == Mapped(o.table, message) - Mapped(before, message)
  }

  lemma NothingBalanced(t: Table, ok: bool, message: string)
    ensures Balanced(t, Outcome(t, [], ok), message)
  {
  }

  /** A list of sends whose first enters `row.feishuMessage` once is balanced by recording `row`. */
  lemma RecordedBalanced(t: Table, sends: seq<Effect>, row: Row, insertOk: bool, message: string)
    requires Valid(t)
    requires Balance(sends, message) == if message == row.feishuMessage then 1 else 0
    ensures Balanced(t, Recorded(t, sends, row, insertOk), message)
  {
    InsertMaps(t, row, insertOk, message);
    if !Insert(t, row, insertOk).1 {
      BalanceAppend(sends, [RowLost(row.feishuMessage)], message);
      forall entry: Entry
        ensures Count([RowLost(row.feishuMessage)], entry, message) ==
                if entry == Unrecorded && message == row.feishuMessage then 1 else 0
      {
        CountOne(RowLost(row.feishuMessage), entry, message);
      }
    } else {
      assert sends + [] == sends;
    }
  }

  lemma MatrixMessagesBalance(events: seq<string>, sender: string, source: string, reply: Option<string>,
                              message: string)
    requires events != []
    ensures Balance(MatrixMessages(events, sender, source, reply), message) == if message == source then 1 else 0
  {
    SendsBalance(MatrixMessages(events, sender, source, reply), message);
  }

  lemma DeliverBalanced(t: Table, bot: string, msg: Message, env: MessageEnv, message: string)
    requires Valid(t)
    ensures Balanced(t, Deliver(t, bot, msg, env), message)
    ensures Valid(Deliver(t, bot, msg, env).table)
  {
    var sender := Prepare(bot, msg, env);
    if sender.Some? && MatrixEvents(bot, msg, env) != [] {
      var events := MatrixEvents(bot, msg, env);
      var reply := ReplyTarget(t, msg.parent);
      MatrixMessagesBalance(events, sender.value, msg.id, reply, message);
      RecordedBalanced(t, MatrixMessages(events, sender.value, msg.id, reply), Row(events[0], msg.id, env.room, None),
                       env.insertOk, message);
    }
  }

  lemma RecalledBalanced(t: Table, recalled: string, env: RecallEnv, message: string)
    requires Valid(t)
    ensures Balanced(t, HandleRecalled(t, recalled, env), message)
    ensures Valid(HandleRecalled(t, recalled, env).table)
  {
    if env.lookupRead && FindFeishu(t, recalled).Some? {
      var i := FindFeishu(t, recalled).value;
      var redaction := if env.redactOk then [MatrixRedaction(t.rows[i].matrixEvent)] else [];
      forall entry: Entry
        ensures Count(redaction, entry, message) == 0
        ensures Count([RowDeleted(recalled)], entry, message) == if entry == Unmapped && message == recalled then 1 else 0
      {
        CountNone(redaction, entry, message);
        CountOne(RowDeleted(recalled), entry, message);
      }
      BalanceAppend(redaction, [RowDeleted(recalled)], message);
      DeleteUnmaps(t, i, message);
    }
  }

  lemma {:induction false} DeleteRowsBalanced(t: Table, ids: seq<nat>, failing: set<nat>, message: string)
    requires Valid(t)
    requires forall k | 0 <= k < |ids| :: ids[k] in t.rows
    requires forall k, l | 0 <= k < l < |ids| :: ids[l] < ids[k]
    ensures Balanced(t, DeleteRows(t, ids, failing), message)
    ensures Valid(DeleteRows(t, ids, failing).table)
    decreases |ids|
  {
    if ids != [] {
      if ids[0] in failing {
        DeleteRowsBalanced(t, ids[1..], failing, message);
      } else {
        DeleteRowsBalanced(Delete(t, ids[0]), ids[1..], failing, message);
        var first := RowDeleted(t.rows[ids[0]].feishuMessage);
        var rest := DeleteRows(Delete(t, ids[0]), ids[1..], failing);
        BalanceAppend([first], rest.effects, message);
        forall entry: Entry
          ensures Count([first], entry, message) == if entry == Unmapped && message == t.rows[ids[0]].feishuMessage then 1 else 0
        {
          CountOne(first, entry, message);
        }
        DeleteUnmaps(t, ids[0], message);
      }
    }
  }

  lemma NoticeBalanced(bot: string, notice: Option<string>, message: string)
    ensures Balance(Notice(bot, notice), message) == 0
  {
    forall entry: Entry
      ensures Count(Notice(bot, notice), entry, message) == 0
    {
      CountNone(Notice(bot, notice), entry, message);
    }
  }

  lemma DisbandedBalanced(t: Table, bot: string, env: ChatEnv, message: string)
    requires Valid(t)
    ensures Balanced(t, HandleDisbanded(t, bot, env), message)
    ensures Valid(HandleDisbanded(t, bot, env).table)
  {
    if env.lookup.Room? {
      var ids := NewestOfRoom(t, env.lookup.room, t.nextId, DISBAND_LIMIT);
      DeleteRowsBalanced(t, ids, env.failing, message);
      NoticeBalanced(bot, env.notice, message);
      BalanceAppend(DeleteRows(t, ids, env.failing).effects, Notice(bot, env.notice), message);
    }
  }

  lemma ChatChangeBalanced(t: Table, bot: string, env: ChatEnv, message: string)
    requires Valid(t)
    ensures Balanced(t, HandleChatChange(t, bot, env), message)
    ensures HandleChatChange(t, bot, env).table == t
  {
    NoticeBalanced(bot, env.notice, message);
  }

  lemma FeishuMessagesBalance(messages: seq<string>, origin: Option<string>, reply: Option<string>, message: string)
    ensures Balance(FeishuMessages(messages, origin, reply), message) ==
            if messages != [] && origin.Some? && message == messages[0] then 1 else 0
  {
    if messages != [] {
      SendsBalance(FeishuMessages(messages, origin, reply), message);
    }
  }

  lemma DegradedBalanced(t: Table, opts: Options, env: MatrixEnv, message: string)
    ensures Balanced(t, Degraded(t, opts, env), message)
  {
    if env.notice.Some? {
      SendsBalance([FeishuMessage(env.notice.value, None, false, None)], message);
    }
  }

  lemma SendOutBalanced(t: Table, opts: Options, ev: MatrixEvent, out: Outbound, env: MatrixEnv, message: string)
    requires Valid(t)
    ensures Balanced(t, SendOut(t, opts, ev, out, env), message)
    ensures Valid(SendOut(t, opts, ev, out, env).table)
  {
    if OutboundFails(opts, out, env) {
      DegradedBalanced(t, opts, env, message);
    } else {
      var messages := FeishuIds(opts, out, env);
      var reply := FeishuReplyTarget(t, opts, out);
      FeishuMessagesBalance(messages, ev.id, reply, message);
      if messages != [] && ev.id.Some? {
        RecordedBalanced(t, FeishuMessages(messages, ev.id, reply),
                         Row(ev.id.value, messages[0], ev.room, Some(out.hash)), env.insertOk, message);
      }
    }
  }

  lemma EditBalanced(t: Table, opts: Options, target: string, env: MatrixEnv, message: string)
    requires Valid(t)
    ensures Balanced(t, HandleEdit(t, opts, target, env), message)
  {
    var o := HandleEdit(t, opts, target, env);
    forall entry: Entry
      ensures Count(o.effects, entry, message) == 0
    {
      CountNone(o.effects, entry, message);
    }
  }

  lemma ForwardBalanced(t: Table, opts: Options, ev: MatrixEvent, out: Outbound, env: MatrixEnv, message: string)
    requires Valid(t)
    ensures Balanced(t, HandleForward(t, opts, ev, out, env), message)
    ensures Valid(HandleForward(t, opts, ev, out, env).table)
  {
    if out.editOf.Some? {
      EditBalanced(t, opts, out.editOf.value, env, message);
    } else {
      SendOutBalanced(t, opts, ev, out, env, message);
    }
  }

  lemma MatrixKindBalanced(t: Table, opts: Options, ev: MatrixEvent, env: MatrixEnv, message: string)
    requires Valid(t)
    ensures Balanced(t, HandleMatrixKind(t, opts, ev, env), message)
    ensures Valid(HandleMatrixKind(t, opts, ev, env).table)
  {
    NothingBalanced(t, true, message);
    match ev.kind
    case MessageEvent =>
      NothingBalanced(t, false, message);
      if env.plan.Command? {
        NoticeBalanced(opts.bot, env.plan.reply, message);
      } else if env.plan.Forward? {
        ForwardBalanced(t, opts, ev, env.plan.out, env, message);
      }
    case RedactionEvent(redacts) => RedactionBalanced(t, opts, redacts, env, message);
    case OtherEvent =>
  }

  lemma RedactionBalanced(t: Table, opts: Options, redacts: Option<string>, env: MatrixEnv, message: string)
    requires Valid(t)
    ensures Balanced(t, HandleRedaction(t, opts, redacts, env), message)
    ensures Valid(HandleRedaction(t, opts, redacts, env).table)
  {
    var o := HandleRedaction(t, opts, redacts, env);
    if o.effects != [] {
      var i := FindMatrix(t, redacts.value).value;
      var recall, deletion := FeishuRecall(t.rows[i].feishuMessage), RowDeleted(t.rows[i].feishuMessage);
      forall entry: Entry
        ensures Count([recall], entry, message) == 0
        ensures Count([recall] + [deletion], entry, message) == if Enters(deletion, entry, message) then 1 else 0
      {
        CountOne(recall, entry, message);
        CountOne(deletion, entry, message);
        CountAppend([recall], [deletion], entry, message);
      }
      assert [recall, deletion] == [recall] + [deletion];
      DeleteUnmaps(t, i, message);
    }
  }
}
