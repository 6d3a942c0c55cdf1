/**
 * The room-mapping table with the LRU row cache in front of it. Lookups fill the cache; creating, updating and
 * deleting rows leave it alone.
 */
module RoomStore {
  import opened Wrappers

  datatype Room = Room(id: nat, matrix: string, feishu: string, name: Option<string>, kind: string)

  datatype Item = Item(key: string, room: Room)

  /** `cache` lists the cached rows from the most to the least recently used. */
  datatype State = State(rows: map<nat, Room>, nextId: nat, cache: seq<Item>)

  const INIT := State(map[], 1, [])
  const CAPACITY: nat := 1000

  function MatrixKey(matrix: string): string {
    "mx:" + matrix
  }

  function FeishuKey(feishu: string): string {
    "fs:" + feishu
  }

  predicate ForKey(key: string, room: Room) {
    key == MatrixKey(room.matrix) || key == FeishuKey(room.feishu)
  }

  /** Rows stand under their id, below the counter, and are UNIQUE in both columns. */
  ghost predicate Valid(rows: map<nat, Room>, nextId: nat) {
    && (forall i | i in rows :: rows[i].id == i && i < nextId)
    && (forall i, j | i in rows && j in rows && i != j ::
          rows[i].matrix != rows[j].matrix && rows[i].feishu != rows[j].feishu)
  }

  // ----- The table alone -----

  datatype Answer = Failed | Absent | Found(room: Room)

  predicate Stored(rows: map<nat, Room>, key: string) {
    exists i | i in rows :: ForKey(key, rows[i])
  }

  ghost function TableAnswer(rows: map<nat, Room>, key: string): (r: Answer)
    ensures r.Found? <==> Stored(rows, key)
    ensures r.Found? ==> r.room in rows.Values && ForKey(key, r.room)
    ensures !r.Failed?
  {
    if Stored(rows, key) then
      var i :| i in rows && ForKey(key, rows[i]);
      Found(rows[i])
    else Absent
  }

  lemma OneRowPerKey(rows: map<nat, Room>, nextId: nat, key: string, i: nat)
    requires Valid(rows, nextId) && i in rows && ForKey(key, rows[i])
    ensures TableAnswer(rows, key) == Found(rows[i])
  {
    var room := TableAnswer(rows, key).room;
    KeysTellApart(rows[i], room);
    KeysTellApart(room, rows[i]);
  }

  lemma KeysTellApart(a: Room, b: Room)
    ensures MatrixKey(a.matrix) != FeishuKey(b.feishu)
    ensures MatrixKey(a.matrix) == MatrixKey(b.matrix) ==> a.matrix == b.matrix
    ensures FeishuKey(a.feishu) == FeishuKey(b.feishu) ==> a.feishu == b.feishu
  {
    assert MatrixKey(a.matrix)[0] != FeishuKey(b.feishu)[0];
    assert MatrixKey(a.matrix)[3..] == a.matrix && MatrixKey(b.matrix)[3..] == b.matrix;
    assert FeishuKey(a.feishu)[3..] == a.feishu && FeishuKey(b.feishu)[3..] == b.feishu;
  }

  // ----- The LRU cache -----

  function IndexOf(cache: seq<Item>, key: string): (r: Option<nat>)
    ensures r.Some? ==> r.value < |cache| && cache[r.value].key == key
    ensures r.None? ==> forall i | 0 <= i < |cache| :: cache[i].key != key
  {
    if cache == [] then None
    else if cache[|cache| - 1].key == key then Some(|cache| - 1)
    else IndexOf(cache[..|cache| - 1], key)
  }

  function Promoted(cache: seq<Item>, i: nat): seq<Item>
    requires i < |cache|
  {
    [cache[i]] + cache[..i] + cache[i + 1..]
  }

  /** Puts a key that is not cached in front, dropping the least recently used item of a full cache. */
  function Put(cache: seq<Item>, item: Item): seq<Item> {
    var grown := [item] + cache;
    if |grown| > CAPACITY then grown[..CAPACITY] else grown
  }

  // ----- The operations -----

  datatype Op =
    | Lookup(key: string, readOk: bool)
    | Create(matrix: string, feishu: string, name: Option<string>, kind: string, storeOk: bool)
    | Update(room: Room, storeOk: bool)
    | Delete(id: nat, storeOk: bool)

  ghost function LookupAt(s: State, key: string, readOk: bool): (State, Answer) {
    match IndexOf(s.cache, key)
    case Some(i) => (s.(cache := Promoted(s.cache, i)), Found(s.cache[i].room))
    case None =>
      if !readOk then (s, Failed)
      else
        var answer := TableAnswer(s.rows, key);
        if answer.Found? then (s.(cache := Put(s.cache, Item(key, answer.room))), answer) else (s, answer)
  }

  predicate Taken(rows: map<nat, Room>, matrix: string, feishu: string, except: Option<nat>) {
    exists i | i in rows && except != Some(i) :: rows[i].matrix == matrix || rows[i].feishu == feishu
  }

  function CreateAt(s: State, matrix: string, feishu: string, name: Option<string>, kind: string,
                    storeOk: bool): State {
    if !storeOk || Taken(s.rows, matrix, feishu, None) then s
    else s.(rows := s.rows[s.nextId := Room(s.nextId, matrix, feishu, name, kind)], nextId := s.nextId + 1)
  }

  /** An absent name leaves the stored one as it is. */
  function Changed(before: Room, room: Room): Room {
    if room.name.None? then room.(name := before.name) else room
  }

  function UpdateAt(s: State, room: Room, storeOk: bool): State {
    if !storeOk || room.id !in s.rows || Taken(s.rows, room.matrix, room.feishu, Some(room.id)) then s
    else s.(rows := s.rows[room.id := Changed(s.rows[room.id], room)])
  }

  function DeleteAt(s: State, id: nat, storeOk: bool): State {
    if storeOk then s.(rows := s.rows - {id}) else s
  }

  ghost function Apply(s: State, op: Op): State {
    match op
    case Lookup(key, readOk) => LookupAt(s, key, readOk).0
    case Create(matrix, feishu, name, kind, storeOk) => CreateAt(s, matrix, feishu, name, kind, storeOk)
    case Update(room, storeOk) => UpdateAt(s, room, storeOk)
    case Delete(id, storeOk) => DeleteAt(s, id, storeOk)
  }

  ghost function Exec(ops: seq<Op>): State {
    if ops == [] then INIT else Apply(Exec(ops[..|ops| - 1]), ops[|ops| - 1])
  }

  class SqliteStores {
    var rows: map<nat, Room>
    var nextId: nat
    var roomCache: seq<Item>

    constructor ()
      ensures Contents() == INIT
    {
      rows, nextId, roomCache := map[], 1, [];
    }

    ghost function Contents(): State
      reads this
    {
      State(rows, nextId, roomCache)
    }

    method Cached(key: string) returns (room: Option<Room>)
      modifies this`roomCache
      ensures room.Some? <==> IndexOf(old(roomCache), key).Some?
      ensures room.Some? ==> LookupAt(old(Contents()), key, true) == (Contents(), Found(room.value))
      ensures room.None? ==> roomCache == old(roomCache)
    {
      var found := IndexOf(roomCache, key);
      if found.None? {
        return None;
      }
      var item := roomCache[found.value];
      roomCache := [item] + roomCache[..found.value] + roomCache[found.value + 1..];
      return Some(item.room);
    }

    method CacheRoom(item: Item)
      modifies this`roomCache
      ensures roomCache == Put(old(roomCache), item)
    {
      roomCache := [item] + roomCache;
      if |roomCache| > CAPACITY {
        roomCache := roomCache[..CAPACITY];
      }
    }

    method GetRoomByMatrixId(matrix: string, readOk: bool) returns (r: Answer)
      requires Valid(rows, nextId)
      modifies this`roomCache
      ensures (Contents(), r) == LookupAt(old(Contents()), MatrixKey(matrix), readOk)
    {
      var cached := Cached(MatrixKey(matrix));
      if cached.Some? {
        return Found(cached.value);
      }
      if !readOk {
        return Failed;
      }
      if !exists i | i in rows :: rows[i].matrix == matrix {
        NoMatrixRow(rows, matrix);
        return Absent;
      }
      var i :| i in rows && rows[i].matrix == matrix;
      OneRowPerKey(rows, nextId, MatrixKey(matrix), i);
      CacheRoom(Item(MatrixKey(matrix), rows[i]));
      return Found(rows[i]);
    }

    method GetRoomByFeishuId(feishu: string, readOk: bool) returns (r: Answer)
      requires Valid(rows, nextId)
      modifies this`roomCache
      ensures (Contents(), r) == LookupAt(old(Contents()), FeishuKey(feishu), readOk)
    {
      var cached := Cached(FeishuKey(feishu));
      if cached.Some? {
        return Found(cached.value);
      }
      if !readOk {
        return Failed;
      }
      if !exists i | i in rows :: rows[i].feishu == feishu {
        NoFeishuRow(rows, feishu);
        return Absent;
      }
      var i :| i in rows && rows[i].feishu == feishu;
      OneRowPerKey(rows, nextId, FeishuKey(feishu), i);
      CacheRoom(Item(FeishuKey(feishu), rows[i]));
      return Found(rows[i]);
    }

    method CreateRoomMapping(matrix: string, feishu: string, name: Option<string>, kind: string, storeOk: bool)
      returns (ok: bool)
      modifies this`rows, this`nextId
      ensures Contents() == CreateAt(old(Contents()), matrix, feishu, name, kind, storeOk)
      ensures ok <==> nextId == old(nextId) + 1
    {
      ok := storeOk && forall i | i in rows :: rows[i].matrix != matrix && rows[i].feishu != feishu;
      if ok {
        rows := rows[nextId := Room(nextId, matrix, feishu, name, kind)];
        nextId := nextId + 1;
      }
    }

    method UpdateRoomMapping(room: Room, storeOk: bool)
      modifies this`rows
      ensures Contents() == UpdateAt(old(Contents()), room, storeOk)
    {
      if storeOk && room.id in rows
         && forall i | i in rows && i != room.id :: rows[i].matrix != room.matrix && rows[i].feishu != room.feishu {
        var name := if room.name.Some? then room.name else rows[room.id].name;
        rows := rows[room.id := room.(name := name)];
      }
    }

    method DeleteRoomMapping(id: nat, storeOk: bool)
      modifies this`rows
      ensures Contents() == DeleteAt(old(Contents()), id, storeOk)
    {
      if storeOk {
        rows := rows - {id};
      }
    }
  }

  lemma NoMatrixRow(rows: map<nat, Room>, matrix: string)
    requires forall i | i in rows :: rows[i].matrix != matrix
    ensures TableAnswer(rows, MatrixKey(matrix)) == Absent
  {
    forall i | i in rows
      ensures !ForKey(MatrixKey(matrix), rows[i])
    {
      KeysTellApart(Room(0, matrix, "", None, ""), rows[i]);
    }
  }

  lemma NoFeishuRow(rows: map<nat, Room>, feishu: string)
    requires forall i | i in rows :: rows[i].feishu != feishu
    ensures TableAnswer(rows, FeishuKey(feishu)) == Absent
  {
    forall i | i in rows
      ensures !ForKey(FeishuKey(feishu), rows[i])
    {
      KeysTellApart(rows[i], Room(0, "", feishu, None, ""));
      KeysTellApart(Room(0, "", feishu, None, ""), rows[i]);
    }
  }

  /** A row is added, under the next id, iff the store works and neither key is taken; the others stay. */
  lemma CreateExact(s: State, matrix: string, feishu: string, name: Option<string>, kind: string, storeOk: bool)
    requires Valid(s.rows, s.nextId)
    ensures var s' := CreateAt(s, matrix, feishu, name, kind, storeOk);
            if storeOk && (forall i | i in s.rows :: s.rows[i].matrix != matrix && s.rows[i].feishu != feishu)
            then
              && s'.rows.Keys == s.rows.Keys + {s.nextId} && s'.nextId == s.nextId + 1 && s'.cache == s.cache
              && s'.rows[s.nextId] == Room(s.nextId, matrix, feishu, name, kind)
              && forall i | i in s.rows :: s'.rows[i] == s.rows[i]
            else s' == s
  {
  }

  /**
   * An update that the store and the UNIQUE columns allow rewrites the row under its id and no other, and keeps the name
   * it had if none is given; any other update changes nothing.
   */
  lemma UpdateExact(s: State, room: Room, storeOk: bool, i: nat)
    requires Valid(s.rows, s.nextId) && i in s.rows
    ensures var s' := UpdateAt(s, room, storeOk);
            var allowed := storeOk && room.id in s.rows
                           && forall j | j in s.rows && j != room.id ::
                                s.rows[j].matrix != room.matrix && s.rows[j].feishu != room.feishu;
            && s'.rows.Keys == s.rows.Keys && s'.nextId == s.nextId && s'.cache == s.cache
            && if allowed && i == room.id
               then
                 && s'.rows[i].matrix == room.matrix && s'.rows[i].feishu == room.feishu && s'.rows[i].kind == room.kind
                 && (room.name.Some? ==> s'.rows[i].name == room.name)
                 && (room.name.None? ==> s'.rows[i].name == s.rows[i].name)
               else s'.rows[i] == s.rows[i]
  {
    assert UpdateAt(s, room, storeOk).rows.Keys == s.rows.Keys;
  }

  // ----- A cache that tells the truth -----

  predicate Current(item: Item, rows: map<nat, Room>) {
    item.room.id in rows && rows[item.room.id] == item.room && ForKey(item.key, item.room)
  }

  ghost predicate Coherent(s: State) {
    forall k | 0 <= k < |s.cache| :: Current(s.cache[k], s.rows)
  }

  lemma ApplyValid(s: State, op: Op)
    requires Valid(s.rows, s.nextId)
    ensures Valid(Apply(s, op).rows, Apply(s, op).nextId)
  {
  }

  lemma {:induction false} RunValid(ops: seq<Op>)
    ensures Valid(Exec(ops).rows, Exec(ops).nextId)
  {
    hide Apply, Valid;
    if ops == [] {
      NoRows();
    } else {
      RunValid(ops[..|ops| - 1]);
      ApplyValid(Exec(ops[..|ops| - 1]), ops[|ops| - 1]);
    }
  }

  lemma NoRows()
    ensures Valid(INIT.rows, INIT.nextId)
  {
  }

  /** The items of the cache after a lookup are old ones, or the row just read. */
  lemma LookupItems(s: State, key: string, readOk: bool)
    ensures var (s', r) := LookupAt(s, key, readOk);
            && s'.rows == s.rows && s'.nextId == s.nextId
            && forall k | 0 <= k < |s'.cache| ::
                 s'.cache[k] in s.cache || (r == TableAnswer(s.rows, key) && r.Found? && s'.cache[k] == Item(key, r.room))
  {
  }

  lemma LookupCoherent(s: State, key: string, readOk: bool)
    requires Valid(s.rows, s.nextId) && Coherent(s)
    ensures Coherent(LookupAt(s, key, readOk).0)
  {
    hide LookupAt;
    LookupItems(s, key, readOk);
    var s' := LookupAt(s, key, readOk).0;
    forall k | 0 <= k < |s'.cache|
      ensures Current(s'.cache[k], s'.rows)
    {
      if s'.cache[k] in s.cache {
        var j :| 0 <= j < |s.cache| && s.cache[j] == s'.cache[k];
        assert Current(s.cache[j], s.rows);
      }
    }
  }

  lemma CreateCoherent(s: State, matrix: string, feishu: string, name: Option<string>, kind: string, storeOk: bool)
    requires Valid(s.rows, s.nextId) && Coherent(s)
    ensures Coherent(CreateAt(s, matrix, feishu, name, kind, storeOk))
  {
    var s' := CreateAt(s, matrix, feishu, name, kind, storeOk);
    forall k | 0 <= k < |s'.cache|
      ensures Current(s'.cache[k], s'.rows)
    {
      assert Current(s.cache[k], s.rows);
    }
  }

  ghost predicate OnlyGrows(ops: seq<Op>) {
    forall k | 0 <= k < |ops| :: ops[k].Lookup? || ops[k].Create?
  }

  lemma {:induction false} GrowingRunCoherent(ops: seq<Op>)
    requires OnlyGrows(ops)
    ensures Coherent(Exec(ops))
  {
    hide LookupAt, CreateAt, Coherent, Valid;
    if ops == [] {
      EmptyCacheCoherent();
    } else {
      var s := Exec(ops[..|ops| - 1]);
      GrowingRunCoherent(ops[..|ops| - 1]);
      RunValid(ops[..|ops| - 1]);
      match ops[|ops| - 1]
      case Lookup(key, readOk) => LookupCoherent(s, key, readOk);
      case Create(matrix, feishu, name, kind, storeOk) => CreateCoherent(s, matrix, feishu, name, kind, storeOk);
      case _ => assert false;
    }
  }

  lemma EmptyCacheCoherent()
    ensures Coherent(INIT)
  {
  }

  /** A coherent cache answers as the table does, and even where the table could not be read. */
  lemma CoherentAnswers(s: State, key: string, readOk: bool)
    requires Valid(s.rows, s.nextId) && Coherent(s)
    ensures var r := LookupAt(s, key, readOk).1;
            r == TableAnswer(s.rows, key) || (!readOk && IndexOf(s.cache, key).None? && r == Failed)
  {
    var found := IndexOf(s.cache, key);
    if found.Some? {
      assert Current(s.cache[found.value], s.rows);
      OneRowPerKey(s.rows, s.nextId, key, s.cache[found.value].room.id);
    }
  }

  /** Over every run of lookups and creates, evictions included, a cached lookup answers as the table would. */
  lemma CachedLookupExact(ops: seq<Op>, key: string)
    requires OnlyGrows(ops)
    ensures LookupAt(Exec(ops), key, true).1 == TableAnswer(Exec(ops).rows, key)
  {
    hide Exec, Coherent, Valid, LookupAt;
    GrowingRunCoherent(ops);
    RunValid(ops);
    CoherentAnswers(Exec(ops), key, true);
  }

  // ----- What deletes and updates do to it -----

  predicate IsCached(s: State, room: Room) {
    exists k | 0 <= k < |s.cache| :: ForKey(s.cache[k].key, room)
  }

  lemma CachedUnderOwnKey(s: State, id: nat, k: nat)
    requires Valid(s.rows, s.nextId) && Coherent(s) && id in s.rows && k < |s.cache|
    ensures ForKey(s.cache[k].key, s.rows[id]) <==> s.cache[k].room.id == id
  {
    var item := s.cache[k];
    assert Current(item, s.rows);
    KeysTellApart(item.room, s.rows[id]);
    KeysTellApart(s.rows[id], item.room);
  }

  /** Deleting a row keeps the cache truthful iff the row is not cached. */
  lemma DeleteCoherentIff(s: State, id: nat)
    requires Valid(s.rows, s.nextId) && Coherent(s) && id in s.rows
    ensures Coherent(DeleteAt(s, id, true)) <==> !IsCached(s, s.rows[id])
  {
    hide Valid, ForKey;
    var s' := DeleteAt(s, id, true);
    forall k | 0 <= k < |s.cache|
      ensures Current(s.cache[k], s'.rows) <==> !ForKey(s.cache[k].key, s.rows[id])
    {
      assert Current(s.cache[k], s.rows);
      CachedUnderOwnKey(s, id, k);
    }
  }

  predicate SameKeys(a: Room, b: Room) {
    a.matrix == b.matrix && a.feishu == b.feishu
  }

  /** Changing a row, its keys included, keeps the cache truthful iff the row is not cached or nothing changes. */
  lemma UpdateCoherentIff(s: State, room: Room)
    requires Valid(s.rows, s.nextId) && Coherent(s) && room.id in s.rows
    ensures Coherent(UpdateAt(s, room, true)) <==>
            !IsCached(s, s.rows[room.id]) || UpdateAt(s, room, true).rows == s.rows
  {
    var s' := UpdateAt(s, room, true);
    if s'.rows != s.rows {
      var changed := Changed(s.rows[room.id], room);
      assert s'.rows == s.rows[room.id := changed];
      assert changed != s.rows[room.id];
      hide Valid, UpdateAt;
      forall k | 0 <= k < |s.cache|
        ensures Current(s.cache[k], s'.rows) <==> !ForKey(s.cache[k].key, s.rows[room.id])
      {
        assert Current(s.cache[k], s.rows);
        CachedUnderOwnKey(s, room.id, k);
      }
    }
  }

  /** A lookup answers as the table does. */
  ghost predicate AnswersTruly(s: State, key: string) {
    LookupAt(s, key, true).1 == TableAnswer(s.rows, key)
  }

  lemma CachedAnswer(s: State, key: string)
    requires Valid(s.rows, s.nextId) && Coherent(s) && IndexOf(s.cache, key).Some?
    ensures LookupAt(s, key, true).1.Found?
    ensures var room := LookupAt(s, key, true).1.room;
            room.id in s.rows && s.rows[room.id] == room && ForKey(key, room)
  {
    assert Current(s.cache[IndexOf(s.cache, key).value], s.rows);
  }

  lemma KeyOfOneRow(s: State, key: string, i: nat, j: nat)
    requires Valid(s.rows, s.nextId) && i in s.rows && j in s.rows && ForKey(key, s.rows[i]) && ForKey(key, s.rows[j])
    ensures i == j
  {
    KeysTellApart(s.rows[i], s.rows[j]);
    KeysTellApart(s.rows[j], s.rows[i]);
  }

  /** Asked for a deleted row, the store still answers with it iff it is cached under the key asked for. */
  lemma DeleteAnswersIff(s: State, id: nat, key: string)
    requires Valid(s.rows, s.nextId) && Coherent(s) && id in s.rows
    ensures AnswersTruly(DeleteAt(s, id, true), key) <==> IndexOf(s.cache, key).None? || !ForKey(key, s.rows[id])
  {
    hide Valid, ForKey, MatrixKey, FeishuKey;
    var s' := DeleteAt(s, id, true);
    ApplyValid(s, Delete(id, true));
    if IndexOf(s.cache, key).Some? {
      CachedAnswer(s, key);
      var room := LookupAt(s, key, true).1.room;
      if ForKey(key, s.rows[id]) {
        KeyOfOneRow(s, key, room.id, id);
      } else {
        OneRowPerKey(s'.rows, s'.nextId, key, room.id);
      }
    }
  }

  lemma UpdateShape(s: State, room: Room)
    requires Valid(s.rows, s.nextId) && room.id in s.rows && UpdateAt(s, room, true).rows != s.rows
    ensures var s' := UpdateAt(s, room, true);
            && Valid(s'.rows, s'.nextId) && s'.cache == s.cache && s'.rows.Keys == s.rows.Keys
            && s'.rows[room.id] != s.rows[room.id]
            && forall i | i in s.rows && i != room.id :: s'.rows[i] == s.rows[i]
  {
    ApplyValid(s, Update(room, true));
  }

  /**
   * Asked for a changed row by one of its old keys, the store answers with the row as it was iff it is cached under
   * that key; by any other key, the new ones included, it answers as the table does.
   */
  lemma UpdateAnswersIff(s: State, room: Room, key: string)
    requires Valid(s.rows, s.nextId) && Coherent(s) && room.id in s.rows && UpdateAt(s, room, true).rows != s.rows
    ensures AnswersTruly(UpdateAt(s, room, true), key) <==> IndexOf(s.cache, key).None? || !ForKey(key, s.rows[room.id])
  {
    hide Valid, ForKey, MatrixKey, FeishuKey, UpdateAt, Coherent, Promoted, Put, Changed, Taken;
    var s' := UpdateAt(s, room, true);
    UpdateShape(s, room);
    if IndexOf(s.cache, key).Some? {
      CachedAnswer(s, key);
      var cached := LookupAt(s, key, true).1.room;
      if ForKey(key, s.rows[room.id]) {
        KeyOfOneRow(s, key, cached.id, room.id);
        forall i | i in s'.rows
          ensures s'.rows[i] != cached
        {
          OnlyUnderOwnId(s', i);
        }
      } else {
        OneRowPerKey(s'.rows, s'.nextId, key, cached.id);
      }
    }
  }

  lemma OnlyUnderOwnId(s: State, i: nat)
    requires Valid(s.rows, s.nextId) && i in s.rows
    ensures s.rows[i].id == i
  {
  }

  // ----- Stale, but never foreign -----

  /** The table held this very row at some point of the run. */
  ghost predicate OnceHeld(ops: seq<Op>, room: Room) {
    || (room.id in Exec(ops).rows && Exec(ops).rows[room.id] == room)
    || (ops != [] && OnceHeld(ops[..|ops| - 1], room))
  }

  /** Updates write back a row read before, with its id and keys. */
  ghost predicate WritesBack(ops: seq<Op>, op: Op) {
    op.Update? ==> exists room :: OnceHeld(ops, room) && room.id == op.room.id && SameKeys(room, op.room)
  }

  ghost predicate Disciplined(ops: seq<Op>) {
    forall k | 0 <= k < |ops| :: WritesBack(ops[..k], ops[k])
  }

  lemma {:induction false} CachedRowsOnceHeld(ops: seq<Op>, k: nat)
    requires k < |Exec(ops).cache|
    ensures OnceHeld(ops, Exec(ops).cache[k].room) && ForKey(Exec(ops).cache[k].key, Exec(ops).cache[k].room)
  {
    hide LookupAt, CreateAt, UpdateAt, ForKey;
    if ops != [] {
      var init, op := ops[..|ops| - 1], ops[|ops| - 1];
      var item := Exec(ops).cache[k];
      if op.Lookup? {
        LookupItems(Exec(init), op.key, op.readOk);
      } else {
        CacheUntouched(Exec(init), op);
      }
      if item in Exec(init).cache {
        var j :| 0 <= j < |Exec(init).cache| && Exec(init).cache[j] == item;
        CachedRowsOnceHeld(init, j);
      } else {
        RunValid(init);
        var i :| i in Exec(init).rows && Exec(init).rows[i] == item.room;
        assert item.room.id == i;
      }
    }
  }

  lemma CacheUntouched(s: State, op: Op)
    requires !op.Lookup?
    ensures Apply(s, op).cache == s.cache
  {
  }

  lemma {:induction false} LineageKept(ops: seq<Op>, room: Room)
    requires Disciplined(ops) && OnceHeld(ops, room)
    ensures room.id < Exec(ops).nextId
    ensures room.id in Exec(ops).rows ==> SameKeys(Exec(ops).rows[room.id], room)
    decreases |ops|
  {
    hide LookupAt;
    RunValid(ops);
    if ops != [] && OnceHeld(ops[..|ops| - 1], room) {
      var init, op := ops[..|ops| - 1], ops[|ops| - 1];
      DisciplinedInit(ops);
      LineageKept(init, room);
      if op.Lookup? {
        LookupItems(Exec(init), op.key, op.readOk);
      } else if op.Update? {
        var source :| OnceHeld(init, source) && source.id == op.room.id && SameKeys(source, op.room);
        LineageKept(init, source);
      }
    }
  }

  lemma DisciplinedInit(ops: seq<Op>)
    requires Disciplined(ops) && ops != []
    ensures Disciplined(ops[..|ops| - 1]) && WritesBack(ops[..|ops| - 1], ops[|ops| - 1])
  {
    var init := ops[..|ops| - 1];
    forall k | 0 <= k < |init|
      ensures WritesBack(init[..k], init[k])
    {
      assert init[..k] == ops[..k] && WritesBack(ops[..k], ops[k]);
    }
  }

  /**
   * Over every run, a lookup returns only a row that the table once held under the key asked for; and deleting by
   * the id of such a row never removes a row with other keys.
   */
  lemma {:induction false} StaleButOwn(ops: seq<Op>, key: string, readOk: bool)
    requires LookupAt(Exec(ops), key, readOk).1.Found?
    ensures var room := LookupAt(Exec(ops), key, readOk).1.room;
            && OnceHeld(ops, room) && ForKey(key, room)
            && (Disciplined(ops) && room.id in Exec(ops).rows ==> SameKeys(Exec(ops).rows[room.id], room))
  {
    hide Exec, Disciplined, ForKey;
    var room := LookupAt(Exec(ops), key, readOk).1.room;
    var found := IndexOf(Exec(ops).cache, key);
    if found.Some? {
      CachedRowsOnceHeld(ops, found.value);
    } else {
      RunValid(ops);
      var i :| i in Exec(ops).rows && Exec(ops).rows[i] == room;
      assert room.id == i;
    }
    if Disciplined(ops) {
      LineageKept(ops, room);
    }
  }
}
