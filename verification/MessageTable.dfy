/**
 * The `message_mappings` table: AUTOINCREMENT ids, and UNIQUE columns for the Matrix event and the Feishu message.
 */
module MessageTable {
  import opened Wrappers

  datatype Row = Row(matrixEvent: string, feishuMessage: string, room: string, contentHash: Option<string>)

  datatype Table = Table(rows: map<nat, Row>, nextId: nat)

  const EMPTY := Table(map[], 1)

  /** Ids are below the counter, and rows are one-to-one in both id columns. */
  ghost predicate Valid(t: Table) {
    && (forall i | i in t.rows :: i < t.nextId)
    && (forall i, j | i in t.rows && j in t.rows && i != j ::
          t.rows[i].matrixEvent != t.rows[j].matrixEvent && t.rows[i].feishuMessage != t.rows[j].feishuMessage)
  }

  predicate HasFeishu(t: Table, message: string) {
    exists i | i in t.rows :: t.rows[i].feishuMessage == message
  }

  predicate HasMatrix(t: Table, event: string) {
    exists i | i in t.rows :: t.rows[i].matrixEvent == event
  }

  predicate HasHash(t: Table, hash: string) {
    exists i | i in t.rows :: t.rows[i].contentHash == Some(hash)
  }

  /** A row maps the two ids to each other. */
  predicate Links(t: Table, event: string, message: string) {
    exists i | i in t.rows :: t.rows[i].matrixEvent == event && t.rows[i].feishuMessage == message
  }

  /** Such a row belongs to this room. */
  predicate FiledUnder(t: Table, event: string, message: string, room: string) {
    exists i | i in t.rows ::
      t.rows[i].matrixEvent == event && t.rows[i].feishuMessage == message && t.rows[i].room == room
  }

  function FindFeishu(t: Table, message: string): (r: Option<nat>)
    requires Valid(t)
    ensures r.Some? ==> r.value in t.rows && t.rows[r.value].feishuMessage == message
    ensures r.Some? <==> HasFeishu(t, message)
  {
    if HasFeishu(t, message) then
      var i :| i in t.rows && t.rows[i].feishuMessage == message;
      Some(i)
    else None
  }

  function FindMatrix(t: Table, event: string): (r: Option<nat>)
    requires Valid(t)
    ensures r.Some? ==> r.value in t.rows && t.rows[r.value].matrixEvent == event
    ensures r.Some? <==> HasMatrix(t, event)
  {
    if HasMatrix(t, event) then
      var i :| i in t.rows && t.rows[i].matrixEvent == event;
      Some(i)
    else None
  }

  /** The linked ids find each other. */
  lemma LinkFound(t: Table, event: string, m: string)
    requires Valid(t) && Links(t, event, m)
    ensures HasMatrix(t, event) && t.rows[FindMatrix(t, event).value].feishuMessage == m
    ensures HasFeishu(t, m) && t.rows[FindFeishu(t, m).value].matrixEvent == event
  {
    var i :| i in t.rows && t.rows[i].matrixEvent == event && t.rows[i].feishuMessage == m;
    assert FindMatrix(t, event) == Some(i) && FindFeishu(t, m) == Some(i);
  }

  /** An insert fails when the store does, or when a UNIQUE column would repeat. */
  function Insert(t: Table, row: Row, storeOk: bool): (r: (Table, bool))
    ensures Valid(t) ==> Valid(r.0)
    ensures !r.1 ==> r.0 == t
    ensures r.1 ==> HasFeishu(r.0, row.feishuMessage) && !HasFeishu(t, row.feishuMessage)
    ensures r.1 <==> storeOk && !HasFeishu(t, row.feishuMessage) && !HasMatrix(t, row.matrixEvent)
  {
    if storeOk && !HasMatrix(t, row.matrixEvent) && !HasFeishu(t, row.feishuMessage) then
      var rows := t.rows[t.nextId := row];
      assert t.nextId in rows;
      (Table(rows, t.nextId + 1), true)
    else
      (t, false)
  }

  function Delete(t: Table, id: nat): (r: Table)
    ensures Valid(t) ==> Valid(r)
  {
    Table(t.rows - {id}, t.nextId)
  }

  /** The ids of the newest rows of `room` among those below `below`, newest first and at most `limit` of them. */
  function NewestOfRoom(t: Table, room: string, below: nat, limit: nat): (r: seq<nat>)
    ensures |r| <= limit
    ensures forall k | 0 <= k < |r| :: r[k] in t.rows && t.rows[r[k]].room == room && r[k] < below
    ensures forall k, l | 0 <= k < l < |r| :: r[l] < r[k]
    decreases below
  {
    if below == 0 || limit == 0 then []
    else if below - 1 in t.rows && t.rows[below - 1].room == room then
      [below - 1] + NewestOfRoom(t, room, below - 1, limit - 1)
    else
      NewestOfRoom(t, room, below - 1, limit)
  }

  function RoomRows(t: Table, room: string, below: nat): set<nat> {
    set i | i in t.rows && i < below && t.rows[i].room == room
  }

  lemma RoomRowsStep(t: Table, room: string, below: nat)
    ensures RoomRows(t, room, below + 1) ==
            RoomRows(t, room, below) + if below in t.rows && t.rows[below].room == room then {below} else {}
  {
  }

  /** The listing takes every row of the room up to the limit. */
  lemma {:induction false} NewestOfRoomCount(t: Table, room: string, below: nat, limit: nat)
    ensures |NewestOfRoom(t, room, below, limit)| ==
            if |RoomRows(t, room, below)| <= limit then |RoomRows(t, room, below)| else limit
    decreases below
  {
    if below == 0 {
      assert RoomRows(t, room, below) == {};
    } else if limit > 0 {
      RoomRowsStep(t, room, below - 1);
      var listed := below - 1 in t.rows && t.rows[below - 1].room == room;
      NewestOfRoomCount(t, room, below - 1, if listed then limit - 1 else limit);
    }
  }

  /** The listing is complete if the room's rows fit the limit. */
  lemma {:induction false} NewestOfRoomComplete(t: Table, room: string, below: nat, limit: nat, i: nat)
    requires |RoomRows(t, room, below)| <= limit && i in RoomRows(t, room, below)
    ensures i in NewestOfRoom(t, room, below, limit)
    decreases below
  {
    RoomRowsStep(t, room, below - 1);
    var listed := below - 1 in t.rows && t.rows[below - 1].room == room;
    if i != below - 1 {
      NewestOfRoomComplete(t, room, below - 1, if listed then limit - 1 else limit, i);
    }
  }

  function NewerRows(t: Table, room: string, i: nat, below: nat): set<nat> {
    set j | j in t.rows && i < j < below && t.rows[j].room == room
  }

  /** The listing takes exactly the rows of the room that have fewer than `limit` newer ones. */
  lemma {:induction false} NewestOfRoomExact(t: Table, room: string, below: nat, limit: nat, i: nat)
    requires i < below
    ensures i in NewestOfRoom(t, room, below, limit) <==>
            i in t.rows && t.rows[i].room == room && |NewerRows(t, room, i, below)| < limit
    decreases below
  {
    var newer := NewerRows(t, room, i, below - 1);
    if i == below - 1 {
      assert NewerRows(t, room, i, below) == {};
    } else {
      var listed := below - 1 in t.rows && t.rows[below - 1].room == room;
      assert NewerRows(t, room, i, below) == newer + if listed then {below - 1} else {};
      if limit > 0 {
        NewestOfRoomExact(t, room, below - 1, if listed then limit - 1 else limit, i);
      }
    }
  }

  /** 1 for a mapped Feishu message, 0 otherwise. */
  function Mapped(t: Table, message: string): nat {
    if HasFeishu(t, message) then 1 else 0
  }

  lemma InsertMaps(t: Table, row: Row, storeOk: bool, message: string)
    requires Valid(t)
    ensures Insert(t, row, storeOk).1 ==>
            Mapped(Insert(t, row, storeOk).0, message) == Mapped(t, message) + if message == row.feishuMessage then 1 else 0
    ensures Insert(t, row, storeOk).1 ==>
            forall event :: HasMatrix(Insert(t, row, storeOk).0, event) <==> HasMatrix(t, event) || event == row.matrixEvent
  {
    var (t', ok) := Insert(t, row, storeOk);
    if ok {
      assert forall i | i in t.rows :: i in t'.rows && t'.rows[i] == t.rows[i];
      assert t'.rows[t.nextId] == row;
    }
  }

  lemma DeleteUnmaps(t: Table, id: nat, message: string)
    requires Valid(t) && id in t.rows
    ensures Mapped(t, message) == Mapped(Delete(t, id), message) + if message == t.rows[id].feishuMessage then 1 else 0
    ensures !HasMatrix(Delete(t, id), t.rows[id].matrixEvent)
    ensures forall event :: HasMatrix(Delete(t, id), event) ==> HasMatrix(t, event)
  {
    var t' := Delete(t, id);
    assert forall i | i in t'.rows :: i in t.rows && t'.rows[i] == t.rows[i];
    if i :| i in t.rows && i != id && t.rows[i].feishuMessage == message {
      assert i in t'.rows;
    }
  }
}
