/** What a single handler run can put into the world and into the mapping table. */
module Outcomes {
  import opened Wrappers
  import opened MessageTable
  import opened Bridge
  import opened Protocol

  // ----- Errors leave no message behind -----

  /**
   * A handler run that returns an error has sent no message and mapped nothing: replaying it cannot repeat a send.
   * For messages and recalls it has done nothing at all.
   */
  lemma ErrorsSendNothing(t: Table, opts: Options, run: Run, env: HandlerEnv)
    requires Valid(t) && !Complete(t, opts, run, env).ok
    ensures forall k | 0 <= k < |Complete(t, opts, run, env).effects| :: Complete(t, opts, run, env).effects[k].RowDeleted?
    ensures forall m :: HasFeishu(Complete(t, opts, run, env).table, m) ==> HasFeishu(t, m)
    ensures !run.ev.body.Disband? ==> Complete(t, opts, run, env) == Failed(t)
  {
    if run.phase == Proceed && run.ev.body.Disband? && env.chat.lookup.Room? && env.chat.listRead {
      var ids := NewestOfRoom(t, env.chat.lookup.room, t.nextId, DISBAND_LIMIT);
      DeleteRowsEffects(t, ids, env.chat.failing);
    }
  }

  lemma {:induction false} DeleteRowsEffects(t: Table, ids: seq<nat>, failing: set<nat>)
    requires Valid(t)
    requires forall k | 0 <= k < |ids| :: ids[k] in t.rows
    requires forall k, l | 0 <= k < l < |ids| :: ids[l] < ids[k]
    ensures var o := DeleteRows(t, ids, failing);
            && o.ok
            && (forall k | 0 <= k < |o.effects| :: o.effects[k].RowDeleted?)
            && (forall i :: i in o.table.rows <==> i in t.rows && (i in failing || i !in ids))
            && (forall i | i in o.table.rows :: o.table.rows[i] == t.rows[i])
    decreases |ids|
  {
    if ids != [] {
      assert forall i :: i in ids <==> i == ids[0] || i in ids[1..];
      if ids[0] in failing {
        DeleteRowsEffects(t, ids[1..], failing);
      } else {
        DeleteRowsEffects(Delete(t, ids[0]), ids[1..], failing);
      }
    }
  }

  /**
   * Disbanding a chat forgets the whole room iff the room has at most `DISBAND_LIMIT` mapped messages: only the
   * newest ones are listed.
   */
  lemma DisbandClearsRoom(t: Table, bot: string, env: ChatEnv)
    requires Valid(t) && env.lookup.Room? && env.listRead && env.failing == {}
    ensures RoomRows(HandleDisbanded(t, bot, env).table, env.lookup.room, t.nextId) == {} <==>
            |RoomRows(t, env.lookup.room, t.nextId)| <= DISBAND_LIMIT
  {
    var room := env.lookup.room;
    var ids := NewestOfRoom(t, room, t.nextId, DISBAND_LIMIT);
    var t' := HandleDisbanded(t, bot, env).table;
    DeleteRowsEffects(t, ids, {});
    NewestOfRoomCount(t, room, t.nextId, DISBAND_LIMIT);
    if |RoomRows(t, room, t.nextId)| <= DISBAND_LIMIT {
      forall i | i in RoomRows(t, room, t.nextId)
        ensures i in ids
      {
        NewestOfRoomComplete(t, room, t.nextId, DISBAND_LIMIT, i);
      }
    }
    if RoomRows(t', room, t.nextId) == {} {
      forall i | i in RoomRows(t, room, t.nextId)
        ensures i in ids
      {
        assert i in t'.rows ==> i in RoomRows(t', room, t.nextId);
      }
      ElementsBound(RoomRows(t, room, t.nextId), ids);
    }
  }

  lemma {:induction false} ElementsBound(s: set<nat>, q: seq<nat>)
    requires forall i | i in s :: i in q
    ensures |s| <= |q|
    decreases |q|
  {
    if q == [] {
      assert s == {};
    } else {
      var s' := s - {q[0]};
      forall i | i in s'
        ensures i in q[1..]
      {
      }
      ElementsBound(s', q[1..]);
      assert |s| <= |s'| + 1 by {
        if q[0] in s { assert s == s' + {q[0]}; } else { assert s == s'; }
      }
    }
  }

  // ----- Senders -----

  /** The messages put into Matrix are sent by the bot or by the user mapped to the Feishu sender. */
  predicate SentAs(effects: seq<Effect>, bot: string, mapped: Option<string>) {
    forall k | 0 <= k < |effects| && effects[k].MatrixMessage? ::
      effects[k].sender == bot || mapped == Some(effects[k].sender)
  }

  /** A delivery that sends anything is a list of Matrix messages, the first of which the row records. */
  lemma DeliverShape(t: Table, bot: string, msg: Message, env: MessageEnv) returns (sends: seq<Effect>, row: Row)
    requires Valid(t) && Deliver(t, bot, msg, env).effects != []
    ensures Deliver(t, bot, msg, env) == Recorded(t, sends, row, env.insertOk)
    ensures Prepare(bot, msg, env).Some? && MatrixEvents(bot, msg, env) != []
    ensures row.matrixEvent == MatrixEvents(bot, msg, env)[0]
    ensures forall k | 0 <= k < |sends| :: sends[k].MatrixMessage? && sends[k].sender == Prepare(bot, msg, env).value
    ensures sends != [] && row.feishuMessage == msg.id && row.matrixEvent == sends[0].event
    ensures row.room == env.room && row.contentHash == None
  {
    var events := MatrixEvents(bot, msg, env);
    sends := MatrixMessages(events, Prepare(bot, msg, env).value, msg.id, ReplyTarget(t, msg.parent));
    row := Row(events[0], msg.id, env.room, None);
  }

  /** A Matrix event forwarded and recorded is a list of Feishu messages, the first of which the row records. */
  lemma SendOutShape(t: Table, opts: Options, ev: MatrixEvent, out: Outbound, env: MatrixEnv)
    returns (sends: seq<Effect>, row: Row)
    requires Valid(t) && !OutboundFails(opts, out, env) && FeishuIds(opts, out, env) != [] && ev.id.Some?
    ensures SendOut(t, opts, ev, out, env) == Recorded(t, sends, row, env.insertOk)
    ensures forall k | 0 <= k < |sends| :: sends[k].FeishuMessage?
    ensures sends != [] && row.matrixEvent == ev.id.value && row.feishuMessage == sends[0].message
    ensures row.room == ev.room && row.contentHash == Some(out.hash)
  {
    var messages := FeishuIds(opts, out, env);
    sends := FeishuMessages(messages, ev.id, FeishuReplyTarget(t, opts, out));
    row := Row(ev.id.value, messages[0], ev.room, Some(out.hash));
  }

  /** The rows after recording are the old ones and possibly `row`; all effects but a loss are the sends. */
  lemma RecordedShape(t: Table, sends: seq<Effect>, row: Row, insertOk: bool)
    requires sends != []
    ensures var o := Recorded(t, sends, row, insertOk);
            && o.ok && o.effects != [] && o.effects[0] == sends[0]
            && (forall i | i in o.table.rows :: (i in t.rows && o.table.rows[i] == t.rows[i]) || o.table.rows[i] == row)
            && (forall k | 0 <= k < |o.effects| :: o.effects[k].RowLost? || o.effects[k] in sends)
            && (insertOk && !HasFeishu(t, row.feishuMessage) && !HasMatrix(t, row.matrixEvent) ==> o.effects == sends)
  {
    assert sends + [] == sends;
  }

  lemma DeliverSenders(t: Table, bot: string, msg: Message, env: MessageEnv)
    requires Valid(t)
    ensures SentAs(Deliver(t, bot, msg, env).effects, bot, env.mapped)
  {
    if Deliver(t, bot, msg, env).effects != [] {
      var sends, row := DeliverShape(t, bot, msg, env);
      RecordedShape(t, sends, row, env.insertOk);
    }
  }

  lemma CompleteSenders(t: Table, opts: Options, run: Run, env: HandlerEnv)
    requires Valid(t)
    ensures SentAs(Complete(t, opts, run, env).effects, opts.bot, env.message.mapped)
  {
    if run.phase == Proceed {
      match run.ev.body
      case Receive(msg) => DeliverSenders(t, opts.bot, msg, env.message);
      case Recall(_, message) =>
      case ChatChange(_) =>
      case Disband(_) =>
        if env.chat.lookup.Room? && env.chat.listRead {
          DeleteRowsEffects(t, NewestOfRoom(t, env.chat.lookup.room, t.nextId, DISBAND_LIMIT), env.chat.failing);
        }
    }
  }

  // ----- New rows -----

  /** A run of the Feishu side maps at most its own message, to the first event it created, in the chat's Matrix room. */
  lemma CompleteRows(t: Table, opts: Options, run: Run, env: HandlerEnv)
    requires Valid(t)
    ensures var o := Complete(t, opts, run, env);
            forall i | i in o.table.rows ::
              || (i in t.rows && o.table.rows[i] == t.rows[i])
              || (&& run.phase == Proceed && run.ev.body.Receive?
                  && o.table.rows[i].feishuMessage == run.ev.body.msg.id
                  && o.table.rows[i].room == env.message.room && o.table.rows[i].contentHash == None
                  && o.effects != [] && o.effects[0].MatrixMessage? && o.table.rows[i].matrixEvent == o.effects[0].event)
    ensures var o := Complete(t, opts, run, env); forall k | 0 <= k < |o.effects| :: !o.effects[k].FeishuMessage?
  {
    hide Deliver, HandleRecalled, HandleDisbanded;
    if run.phase == Proceed {
      match run.ev.body
      case Receive(msg) => DeliverRows(t, opts.bot, msg, env.message);
      case Recall(_, message) => RecalledRows(t, message, env.recall);
      case ChatChange(_) =>
      case Disband(_) => DisbandedRows(t, opts.bot, env.chat);
    }
  }

  lemma RecalledRows(t: Table, message: string, env: RecallEnv)
    requires Valid(t)
    ensures var o := HandleRecalled(t, message, env);
            && (forall i | i in o.table.rows :: i in t.rows && o.table.rows[i] == t.rows[i])
            && (forall k | 0 <= k < |o.effects| :: !o.effects[k].FeishuMessage?)
  {
  }

  lemma DisbandedRows(t: Table, bot: string, env: ChatEnv)
    requires Valid(t)
    ensures var o := HandleDisbanded(t, bot, env);
            && (forall i | i in o.table.rows :: i in t.rows && o.table.rows[i] == t.rows[i])
            && (forall k | 0 <= k < |o.effects| :: !o.effects[k].FeishuMessage?)
  {
    hide DeleteRows, NewestOfRoom;
    if env.lookup.Room? && env.listRead {
      DeleteRowsEffects(t, NewestOfRoom(t, env.lookup.room, t.nextId, DISBAND_LIMIT), env.failing);
    }
  }

  lemma DeliverRows(t: Table, bot: string, msg: Message, env: MessageEnv)
    requires Valid(t)
    ensures var o := Deliver(t, bot, msg, env);
            forall i | i in o.table.rows ::
              || (i in t.rows && o.table.rows[i] == t.rows[i])
              || (&& o.table.rows[i].feishuMessage == msg.id
                  && o.table.rows[i].room == env.room && o.table.rows[i].contentHash == None
                  && o.effects != [] && o.effects[0].MatrixMessage? && o.table.rows[i].matrixEvent == o.effects[0].event)
    ensures var o := Deliver(t, bot, msg, env); forall k | 0 <= k < |o.effects| :: !o.effects[k].FeishuMessage?
  {
    if Deliver(t, bot, msg, env).effects != [] {
      var sends, row := DeliverShape(t, bot, msg, env);
      RecordedShape(t, sends, row, env.insertOk);
    }
  }

  /** Whatever these effects put into Matrix is the bot's own word, not a delivery. */
  predicate OnlyNotices(effects: seq<Effect>, bot: string) {
    forall k | 0 <= k < |effects| && effects[k].MatrixMessage? ::
      effects[k].sender == bot && effects[k].source.None? && !effects[k].primary
  }

  /** Where a row that a Matrix event adds comes from; the Matrix side puts only answers to commands into Matrix. */
  lemma {:induction false} MatrixRows(t: Table, opts: Options, ev: MatrixEvent, env: MatrixEnv)
    requires Valid(t)
    ensures var o := HandleMatrixKind(t, opts, ev, env);
            forall i | i in o.table.rows ::
              || (i in t.rows && o.table.rows[i] == t.rows[i])
              || (&& ev.id.Some? && !opts.own(ev.sender)
                  && o.table.rows[i].matrixEvent == ev.id.value && o.ok && o.table.rows[i].room == ev.room
                  && env.plan.Forward? && o.table.rows[i].contentHash == Some(env.plan.out.hash)
                  && o.effects != [] && o.effects[0].FeishuMessage? && o.table.rows[i].feishuMessage == o.effects[0].message)
    ensures OnlyNotices(HandleMatrixKind(t, opts, ev, env).effects, opts.bot)
  {
    hide SendOut, HasHash;
    if ev.kind.MessageEvent? && !opts.own(ev.sender) && env.plan.Forward? {
      if env.plan.out.editOf.None? {
        SendOutRows(t, opts, ev, env.plan.out, env);
      } else {
        assert HandleForward(t, opts, ev, env.plan.out, env).table == t;
      }
    }
  }

  lemma SendOutRows(t: Table, opts: Options, ev: MatrixEvent, out: Outbound, env: MatrixEnv)
    requires Valid(t)
    ensures var o := SendOut(t, opts, ev, out, env);
            forall i | i in o.table.rows ::
              || (i in t.rows && o.table.rows[i] == t.rows[i])
              || (&& ev.id.Some? && o.table.rows[i].matrixEvent == ev.id.value && o.ok
                  && o.table.rows[i].room == ev.room && o.table.rows[i].contentHash == Some(out.hash)
                  && o.effects != [] && o.effects[0].FeishuMessage? && o.table.rows[i].feishuMessage == o.effects[0].message)
    ensures var o := SendOut(t, opts, ev, out, env); forall k | 0 <= k < |o.effects| :: !o.effects[k].MatrixMessage?
  {
    if !OutboundFails(opts, out, env) && FeishuIds(opts, out, env) != [] && ev.id.Some? {
      var sends, row := SendOutShape(t, opts, ev, out, env);
      RecordedShape(t, sends, row, env.insertOk);
    }
  }

  // ----- Recording succeeds -----

  predicate LosesRow(effects: seq<Effect>) {
    exists k | 0 <= k < |effects| :: effects[k].RowLost?
  }

  /** A delivery is recorded when the store works, the message is not mapped meanwhile, and its event id is new. */
  lemma CompleteRecords(t: Table, opts: Options, run: Run, env: HandlerEnv, known: set<string>)
    requires Valid(t) && env.message.insertOk
    requires run.phase == Proceed && run.ev.body.Receive? ==> !HasFeishu(t, run.ev.body.msg.id)
    requires forall i | i in t.rows :: t.rows[i].matrixEvent in known
    requires MatrixIdsOf(Complete(t, opts, run, env).effects) !! known
    ensures !LosesRow(Complete(t, opts, run, env).effects)
  {
    if run.phase == Proceed {
      match run.ev.body
      case Receive(msg) => DeliverRecords(t, opts.bot, msg, env.message, known);
      case Recall(_, message) =>
      case ChatChange(_) =>
      case Disband(_) =>
        if env.chat.lookup.Room? && env.chat.listRead {
          DeleteRowsEffects(t, NewestOfRoom(t, env.chat.lookup.room, t.nextId, DISBAND_LIMIT), env.chat.failing);
        }
    }
  }

  lemma DeliverRecords(t: Table, bot: string, msg: Message, env: MessageEnv, known: set<string>)
    requires Valid(t) && env.insertOk && !HasFeishu(t, msg.id)
    requires forall i | i in t.rows :: t.rows[i].matrixEvent in known
    requires MatrixIdsOf(Deliver(t, bot, msg, env).effects) !! known
    ensures !LosesRow(Deliver(t, bot, msg, env).effects)
  {
    if Deliver(t, bot, msg, env).effects != [] {
      var sends, row := DeliverShape(t, bot, msg, env);
      RecordedShape(t, sends, row, true);
      MatrixIdIn(Deliver(t, bot, msg, env).effects);
      assert !HasMatrix(t, row.matrixEvent);
    }
  }

  lemma MatrixIdIn(effects: seq<Effect>)
    requires effects != [] && effects[0].MatrixMessage?
    ensures effects[0].event in MatrixIdsOf(effects)
  {
  }

  lemma FeishuIdIn(effects: seq<Effect>)
    requires effects != [] && effects[0].FeishuMessage?
    ensures effects[0].message in FeishuIdsOf(effects)
  {
  }

  /** Likewise for a Matrix event forwarded to Feishu. */
  lemma MatrixRecords(t: Table, opts: Options, ev: MatrixEvent, env: MatrixEnv, known: set<string>)
    requires Valid(t) && env.insertOk
    requires forall i | i in t.rows :: t.rows[i].feishuMessage in known
    requires FeishuIdsOf(HandleMatrixKind(t, opts, ev, env).effects) !! known
    requires ev.id.Some? && HasMatrix(t, ev.id.value) ==> opts.own(ev.sender)
    ensures !LosesRow(HandleMatrixKind(t, opts, ev, env).effects)
  {
    if ev.kind.MessageEvent? && !opts.own(ev.sender)
       && env.plan.Forward? && env.plan.out.editOf.None? && env.hashRead && !HasHash(t, env.plan.out.hash) {
      SendOutRecords(t, opts, ev, env.plan.out, env, known);
    }
  }

  lemma SendOutRecords(t: Table, opts: Options, ev: MatrixEvent, out: Outbound, env: MatrixEnv, known: set<string>)
    requires Valid(t) && env.insertOk
    requires forall i | i in t.rows :: t.rows[i].feishuMessage in known
    requires FeishuIdsOf(SendOut(t, opts, ev, out, env).effects) !! known
    requires ev.id.Some? ==> !HasMatrix(t, ev.id.value)
    ensures !LosesRow(SendOut(t, opts, ev, out, env).effects)
  {
    if !OutboundFails(opts, out, env) && FeishuIds(opts, out, env) != [] && ev.id.Some? {
      var sends, row := SendOutShape(t, opts, ev, out, env);
      RecordedShape(t, sends, row, true);
      FeishuIdIn(SendOut(t, opts, ev, out, env).effects);
      assert !HasFeishu(t, row.feishuMessage);
    }
  }
}
