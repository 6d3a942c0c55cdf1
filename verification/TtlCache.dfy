/** The bounded cache with a time to live, against a plain table of inserts that knows neither bound nor clean-up. */
module TtlCache {
  import opened Wrappers

  datatype Entry<V> = Entry(value: V, expiresAt: int)

  type Entries<K, V> = map<K, Entry<V>>

  /** A stored key with the earliest expiry; which of several such keys the hash order decides. */
  ghost predicate IsOldest<K(!new), V>(entries: Entries<K, V>, key: K) {
    key in entries && forall k | k in entries :: entries[key].expiresAt <= entries[k].expiresAt
  }

  class TtlCache<K(==, !new), V> {
    const ttl: int
    const maxEntries: nat
    var entries: Entries<K, V>

    constructor (ttl: int, maxEntries: nat)
      ensures this.ttl == ttl && this.maxEntries == AtLeastOne(maxEntries) && entries == map[]
    {
      this.ttl, this.maxEntries := ttl, AtLeastOne(maxEntries);
      entries := map[];
    }

    method Get(key: K, now: int) returns (r: Option<V>)
      modifies this
      ensures r == Hit(old(entries), key, now)
      ensures entries == if r.Some? then old(entries) else old(entries) - {key}
    {
      if key in entries && now < entries[key].expiresAt {
        return Some(entries[key].value);
      }
      entries := entries - {key};
      return None;
    }

    /** `remove_oldest_entry`. */
    method RemoveOldestEntry() returns (victim: Option<K>)
      modifies this
      ensures victim.None? ==> entries == old(entries) == map[]
      ensures victim.Some? ==> IsOldest(old(entries), victim.value) && entries == old(entries) - {victim.value}
    {
      if entries.Keys == {} {
        assert entries == map[];
        return None;
      }
      var oldest :| oldest in entries.Keys;
      var keys := entries.Keys - {oldest};
      while keys != {}
        invariant keys <= entries.Keys && oldest in entries
        invariant forall k | k in entries && k !in keys :: entries[oldest].expiresAt <= entries[k].expiresAt
        decreases keys
      {
        var k :| k in keys;
        if entries[k].expiresAt < entries[oldest].expiresAt {
          oldest := k;
        }
        keys := keys - {k};
      }
      entries := entries - {oldest};
      return Some(oldest);
    }

    method Insert(key: K, value: V, now: int) returns (victim: Option<K>)
      requires maxEntries > 0
      modifies this
      ensures victim.Some? <==> |old(entries)| >= maxEntries
      ensures victim.Some? ==> IsOldest(old(entries), victim.value)
      ensures entries == (if victim.Some? then old(entries) - {victim.value} else old(entries))[key := Entry(value, now + ttl)]
    {
      victim := None;
      if |entries| >= maxEntries {
        victim := RemoveOldestEntry();
      }
      entries := entries[key := Entry(value, now + ttl)];
    }

    method Invalidate(key: K)
      modifies this
      ensures entries == old(entries) - {key}
    {
      entries := entries - {key};
    }
  }

  function AtLeastOne(n: nat): nat {
    if n < 1 then 1 else n
  }

  function Hit<K, V>(entries: Entries<K, V>, key: K, now: int): Option<V> {
    if key in entries && now < entries[key].expiresAt then Some(entries[key].value) else None
  }

  // ----- Runs -----

  /** `victim` is the key removed if the insert finds the cache full. */
  datatype Op<K, V> = Get(key: K, now: int) | Insert(key: K, value: V, now: int, victim: K) | Invalidate(key: K)

  function Room<K, V>(entries: Entries<K, V>, max: nat, victim: K): Entries<K, V> {
    if |entries| >= max then entries - {victim} else entries
  }

  function Apply<K, V>(entries: Entries<K, V>, max: nat, ttl: int, op: Op<K, V>): Entries<K, V> {
    match op
    case Get(key, now) => if Hit(entries, key, now).Some? then entries else entries - {key}
    case Insert(key, value, now, victim) => Room(entries, max, victim)[key := Entry(value, now + ttl)]
    case Invalidate(key) => entries - {key}
  }

  function Exec<K, V>(max: nat, ttl: int, ops: seq<Op<K, V>>): Entries<K, V> {
    if ops == [] then map[] else Apply(Exec(max, ttl, ops[..|ops| - 1]), max, ttl, ops[|ops| - 1])
  }

  /** The victims are those the code would choose. */
  ghost predicate Faithful<K(!new), V>(max: nat, ttl: int, ops: seq<Op<K, V>>) {
    forall k | 0 <= k < |ops| && ops[k].Insert? && |Exec(max, ttl, ops[..k])| >= max ::
      IsOldest(Exec(max, ttl, ops[..k]), ops[k].victim)
  }

  ghost predicate Ordered<K, V>(ops: seq<Op<K, V>>) {
    forall i, j | 0 <= i < j < |ops| && !ops[i].Invalidate? && !ops[j].Invalidate? :: ops[i].now <= ops[j].now
  }

  /** No operation so far is later than `now`. */
  ghost predicate Before<K, V>(ops: seq<Op<K, V>>, now: int) {
    forall i | 0 <= i < |ops| && !ops[i].Invalidate? :: ops[i].now <= now
  }

  // ----- The plain table -----

  datatype Stored<V> = Stored(value: V, at: int)

  /** The latest insert of a key, unless it was invalidated since. */
  function Latest<K(==), V>(ops: seq<Op<K, V>>, key: K): Option<Stored<V>> {
    if ops == [] then None
    else
      match ops[|ops| - 1]
      case Get(_, _) => Latest(ops[..|ops| - 1], key)
      case Insert(k, value, now, _) => if k == key then Some(Stored(value, now)) else Latest(ops[..|ops| - 1], key)
      case Invalidate(k) => if k == key then None else Latest(ops[..|ops| - 1], key)
  }

  /** The key was the victim of a full cache after its latest insert. */
  function Evicted<K(==), V>(max: nat, ttl: int, ops: seq<Op<K, V>>, key: K): bool {
    if ops == [] then false
    else
      var init := ops[..|ops| - 1];
      match ops[|ops| - 1]
      case Get(_, _) => Evicted(max, ttl, init, key)
      case Insert(k, _, _, victim) =>
        k != key && (Evicted(max, ttl, init, key) || (|Exec(max, ttl, init)| >= max && victim == key))
      case Invalidate(k) => k != key && Evicted(max, ttl, init, key)
  }

  ghost predicate Agrees<K, V>(entries: Entries<K, V>, key: K, latest: Option<Stored<V>>, evicted: bool, ttl: int,
                               now: int) {
    if key in entries then
      latest.Some? && !evicted && entries[key] == Entry(latest.value.value, latest.value.at + ttl)
    else
      latest.None? || evicted || now >= latest.value.at + ttl
  }

  lemma BeforeInit<K, V>(ops: seq<Op<K, V>>, now: int)
    requires ops != [] && Ordered(ops) && Before(ops, now)
    ensures var init, op := ops[..|ops| - 1], ops[|ops| - 1];
            Ordered(init) && Before(init, if op.Invalidate? then now else op.now)
  {
  }

  lemma {:induction false} RunAgrees<K, V>(max: nat, ttl: int, ops: seq<Op<K, V>>, key: K, now: int)
    requires Ordered(ops) && Before(ops, now)
    ensures Agrees(Exec(max, ttl, ops), key, Latest(ops, key), Evicted(max, ttl, ops, key), ttl, now)
  {
    hide Ordered;
    if ops != [] {
      var init, op := ops[..|ops| - 1], ops[|ops| - 1];
      BeforeInit(ops, now);
      RunAgrees(max, ttl, init, key, if op.Invalidate? then now else op.now);
    }
  }

  /**
   * A lookup answers exactly as the plain table would: it hits iff the key's latest insert is younger than the time
   * to live, not invalidated and not evicted since, and then it yields that insert's value.
   */
  lemma {:induction false} HitIsLatest<K, V>(max: nat, ttl: int, ops: seq<Op<K, V>>, key: K, now: int)
    requires Ordered(ops) && Before(ops, now)
    ensures var latest := Latest(ops, key);
            Hit(Exec(max, ttl, ops), key, now) ==
            if latest.Some? && !Evicted(max, ttl, ops, key) && now < latest.value.at + ttl then Some(latest.value.value)
            else None
  {
    hide Ordered, Before, Exec, Latest, Evicted;
    RunAgrees(max, ttl, ops, key, now);
  }

  // ----- The bound -----

  lemma SizeAfter<K, V>(entries: Entries<K, V>, key: K, entry: Entry<V>)
    ensures |entries[key := entry]| == |entries| + if key in entries then 0 else 1
    ensures |entries - {key}| == |entries| - if key in entries then 1 else 0
  {
    assert entries[key := entry].Keys == entries.Keys + {key};
    assert (entries - {key}).Keys == entries.Keys - {key};
  }

  lemma OpBounded<K(!new), V>(entries: Entries<K, V>, max: nat, ttl: int, op: Op<K, V>)
    requires max >= 1 && |entries| <= max
    requires op.Insert? && |entries| >= max ==> IsOldest(entries, op.victim)
    ensures |Apply(entries, max, ttl, op)| <= max
  {
    if op.Insert? {
      SizeAfter(entries, op.victim, Entry(op.value, 0));
      SizeAfter(Room(entries, max, op.victim), op.key, Entry(op.value, op.now + ttl));
    } else if op.key in entries {
      SizeAfter(entries, op.key, entries[op.key]);
    } else {
      assert entries - {op.key} == entries;
    }
  }

  lemma {:induction false} FaithfulInit<K(!new), V>(max: nat, ttl: int, ops: seq<Op<K, V>>)
    requires Faithful(max, ttl, ops) && ops != []
    ensures Faithful(max, ttl, ops[..|ops| - 1])
  {
    var init := ops[..|ops| - 1];
    forall k | 0 <= k < |init| && init[k].Insert? && |Exec(max, ttl, init[..k])| >= max
      ensures IsOldest(Exec(max, ttl, init[..k]), init[k].victim)
    {
      assert init[..k] == ops[..k];
    }
  }

  /** The cache never holds more than `max` entries. */
  lemma {:induction false} SizeBounded<K(!new), V>(max: nat, ttl: int, ops: seq<Op<K, V>>)
    requires max >= 1 && Faithful(max, ttl, ops)
    ensures |Exec(max, ttl, ops)| <= max
  {
    hide Apply, IsOldest;
    if ops != [] {
      FaithfulInit(max, ttl, ops);
      SizeBounded(max, ttl, ops[..|ops| - 1]);
      OpBounded(Exec(max, ttl, ops[..|ops| - 1]), max, ttl, ops[|ops| - 1]);
    }
  }

  /**
   * A live entry of another key is lost to an insert only if the cache is full of live entries and this one is the
   * first to expire.
   */
  lemma {:induction false} LiveEntryLost<K(!new), V>(max: nat, ttl: int, ops: seq<Op<K, V>>, op: Op<K, V>, lost: K)
    requires max >= 1 && Faithful(max, ttl, ops + [op]) && op.Insert? && lost != op.key
    requires var entries := Exec(max, ttl, ops);
             && Hit(entries, lost, op.now).Some? && Hit(Apply(entries, max, ttl, op), lost, op.now).None?
    ensures var entries := Exec(max, ttl, ops);
            && |entries| == max
            && (forall k | k in entries :: op.now < entries[k].expiresAt)
            && (forall k | k in entries :: entries[lost].expiresAt <= entries[k].expiresAt)
  {
    hide Exec, Faithful;
    var all := ops + [op];
    assert all[..|ops|] == ops && all[|ops|] == op;
    FaithfulInit(max, ttl, all);
    SizeBounded(max, ttl, ops);
    FaithfulLast(max, ttl, all);
  }

  lemma FaithfulLast<K(!new), V>(max: nat, ttl: int, ops: seq<Op<K, V>>)
    requires Faithful(max, ttl, ops) && ops != [] && ops[|ops| - 1].Insert?
    requires |Exec(max, ttl, ops[..|ops| - 1])| >= max
    ensures IsOldest(Exec(max, ttl, ops[..|ops| - 1]), ops[|ops| - 1].victim)
  {
  }

  /**
   * An insert into a full cache leaves it full iff the key is new or was itself the victim: overwriting a stored
   * key evicts another entry although no room was needed.
   */
  lemma {:induction false} FullStaysFull<K(!new), V>(entries: Entries<K, V>, max: nat, ttl: int, op: Op<K, V>)
    requires op.Insert? && |entries| == max && IsOldest(entries, op.victim)
    ensures |Apply(entries, max, ttl, op)| == max <==> op.key !in entries || op.victim == op.key
  {
    SizeAfter(entries, op.victim, entries[op.victim]);
    SizeAfter(Room(entries, max, op.victim), op.key, Entry(op.value, op.now + ttl));
  }
}
