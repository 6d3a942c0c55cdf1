/** The pruned map of user synchronisation stamps, against one that is never pruned. */
module SyncSlots {
  import opened Wrappers

  const TICKS_PER_SECOND: nat := 1_000_000_000
  const U64_MAX: nat := 0xFFFF_FFFF_FFFF_FFFF

  type Stamps = map<string, int>

  function Max(a: nat, b: nat): nat {
    if a < b then b else a
  }

  function SaturatingMul(a: nat, b: nat): nat {
    if a * b > U64_MAX then U64_MAX else a * b
  }

  /** How long the maintenance loop keeps stamps, in ticks, for a refresh interval in seconds. */
  function Retention(intervalSecs: nat): nat {
    Max(SaturatingMul(Max(intervalSecs, 30), 4), 120) * TICKS_PER_SECOND
  }

  /** `should_refresh`. */
  predicate ShouldRefresh(last: Option<int>, interval: int, now: int) {
    last.None? || now - last.value >= interval
  }

  function StampOf(stamps: Stamps, user: string): Option<int> {
    if user in stamps then Some(stamps[user]) else None
  }

  /** A stamp taken after `now` counts as no time ago. */
  function Elapsed(stamp: int, now: int): int {
    if stamp > now then 0 else now - stamp
  }

  /** `Reserve` looks at the clock twice; `Prune` may hold a reading older than the moment it gets the lock. */
  datatype Op = Reserve(user: string, at: int, stamp: int) | Prune(now: int, at: int)

  function Apply(stamps: Stamps, interval: int, retention: int, op: Op): (Stamps, bool) {
    match op
    case Reserve(user, at, stamp) =>
      if ShouldRefresh(StampOf(stamps, user), interval, at) then (stamps[user := stamp], true) else (stamps, false)
    case Prune(now, _) => (map user | user in stamps && Elapsed(stamps[user], now) <= retention :: stamps[user], false)
  }

  class UserSync {
    const interval: int
    const retention: int
    var userLastSyncedAt: Stamps

    constructor (intervalSecs: nat)
      ensures interval == intervalSecs * TICKS_PER_SECOND && retention == Retention(intervalSecs)
      ensures userLastSyncedAt == map[]
    {
      interval, retention := intervalSecs * TICKS_PER_SECOND, Retention(intervalSecs);
      userLastSyncedAt := map[];
    }

    method ReserveUserSyncSlot(user: string, at: int, stamp: int) returns (ok: bool)
      modifies this
      ensures (userLastSyncedAt, ok) == Apply(old(userLastSyncedAt), interval, retention, Reserve(user, at, stamp))
    {
      var last := if user in userLastSyncedAt then Some(userLastSyncedAt[user]) else None;
      if !ShouldRefresh(last, interval, at) {
        return false;
      }
      userLastSyncedAt := userLastSyncedAt[user := stamp];
      return true;
    }

    /** The `retain` of the maintenance loop. */
    method PruneStamps(now: int, ghost at: int)
      modifies this
      ensures userLastSyncedAt == Apply(old(userLastSyncedAt), interval, retention, Prune(now, at)).0
    {
      var users := userLastSyncedAt.Keys;
      while users != {}
        invariant users <= userLastSyncedAt.Keys
        invariant forall u :: u in userLastSyncedAt <==>
                    u in old(userLastSyncedAt) && (u in users || Elapsed(old(userLastSyncedAt)[u], now) <= retention)
        invariant forall u | u in userLastSyncedAt :: userLastSyncedAt[u] == old(userLastSyncedAt)[u]
        decreases users
      {
        var u :| u in users;
        if Elapsed(userLastSyncedAt[u], now) > retention {
          userLastSyncedAt := userLastSyncedAt - {u};
        }
        users := users - {u};
      }
    }
  }

  // ----- Runs -----

  function Exec(interval: int, retention: int, ops: seq<Op>): Stamps {
    if ops == [] then map[]
    else Apply(Exec(interval, retention, ops[..|ops| - 1]), interval, retention, ops[|ops| - 1]).0
  }

  /** The same run on a map that is never pruned. */
  function Unpruned(interval: int, ops: seq<Op>): Stamps {
    if ops == [] then map[]
    else
      var before, op := Unpruned(interval, ops[..|ops| - 1]), ops[|ops| - 1];
      if op.Reserve? then Apply(before, interval, 0, op).0 else before
  }

  function End(op: Op): int {
    if op.Reserve? then op.stamp else op.at
  }

  /** Operations follow each other, and no clock reading lies in the future. */
  ghost predicate Ordered(ops: seq<Op>) {
    && (forall i, j | 0 <= i < j < |ops| :: End(ops[i]) <= ops[j].at)
    && (forall i | 0 <= i < |ops| :: if ops[i].Reserve? then ops[i].at <= ops[i].stamp else ops[i].now <= ops[i].at)
  }

  /** The maps agree on a user, or the missing stamp is too old to matter. */
  ghost predicate Agrees(pruned: Stamps, plain: Stamps, user: string, interval: int, now: int) {
    StampOf(pruned, user) == StampOf(plain, user) || (user !in pruned && ShouldRefresh(StampOf(plain, user), interval, now))
  }

  function EndOf(ops: seq<Op>, otherwise: int): int {
    if ops == [] then otherwise else End(ops[|ops| - 1])
  }

  lemma OrderedInit(ops: seq<Op>)
    requires Ordered(ops) && ops != []
    ensures Ordered(ops[..|ops| - 1]) && EndOf(ops[..|ops| - 1], ops[|ops| - 1].at) <= ops[|ops| - 1].at
    ensures var op := ops[|ops| - 1]; if op.Reserve? then op.at <= op.stamp else op.now <= op.at
  {
  }

  lemma {:induction false} RunAgrees(interval: int, retention: int, ops: seq<Op>, user: string, otherwise: int)
    requires Ordered(ops) && 0 <= interval <= retention + 1 && 0 <= retention
    ensures Agrees(Exec(interval, retention, ops), Unpruned(interval, ops), user, interval, EndOf(ops, otherwise))
  {
    hide Ordered;
    if ops != [] {
      OrderedInit(ops);
      RunAgrees(interval, retention, ops[..|ops| - 1], user, ops[|ops| - 1].at);
    }
  }

  /** The answer of a reservation after a run, with and without pruning. */
  predicate SameAnswer(interval: int, retention: int, ops: seq<Op>, op: Op) {
    Apply(Exec(interval, retention, ops), interval, retention, op).1 == Apply(Unpruned(interval, ops), interval, retention, op).1
  }

  lemma PruningIsInvisible(interval: int, retention: int, ops: seq<Op>, op: Op)
    requires Ordered(ops + [op]) && op.Reserve? && 0 <= interval <= retention + 1 && 0 <= retention
    ensures SameAnswer(interval, retention, ops, op)
  {
    hide Ordered, Exec, Unpruned;
    assert (ops + [op])[..|ops|] == ops && (ops + [op])[|ops|] == op;
    OrderedInit(ops + [op]);
    RunAgrees(interval, retention, ops, op.user, op.at);
  }

  /** Pruning never changes an answer, in any run, iff stamps are kept for the whole refresh interval. */
  lemma InvisibleIffKeptLongEnough(interval: int, retention: int)
    requires 0 <= interval && 0 <= retention
    ensures (forall ops, op | Ordered(ops + [op]) && op.Reserve? :: SameAnswer(interval, retention, ops, op)) <==>
            interval <= retention + 1
  {
    if interval <= retention + 1 {
      forall ops, op | Ordered(ops + [op]) && op.Reserve?
        ensures SameAnswer(interval, retention, ops, op)
      {
        PruningIsInvisible(interval, retention, ops, op);
      }
    } else {
      var ops, op := [Reserve("u", 0, 0), Prune(retention + 1, retention + 1)], Reserve("u", retention + 1, retention + 1);
      TooShort(interval, retention, ops, op);
      assert Ordered(ops + [op]);
    }
  }

  lemma TooShort(interval: int, retention: int, ops: seq<Op>, op: Op)
    requires 0 <= retention && retention + 1 < interval
    requires ops == [Reserve("u", 0, 0), Prune(retention + 1, retention + 1)] && op == Reserve("u", retention + 1, retention + 1)
    ensures !SameAnswer(interval, retention, ops, op)
  {
    assert ops[..1] == [ops[0]] && ops[..1][..0] == [] && |ops| - 1 == 1;
    assert Exec(interval, retention, [ops[0]]) == map["u" := 0];
    assert Unpruned(interval, [ops[0]]) == map["u" := 0];
  }

  /** The bridge keeps stamps long enough for every interval it can be configured with. */
  lemma RetentionCovers(intervalSecs: nat, ops: seq<Op>, op: Op)
    requires intervalSecs <= U64_MAX && Ordered(ops + [op]) && op.Reserve?
    ensures SameAnswer(intervalSecs * TICKS_PER_SECOND, Retention(intervalSecs), ops, op)
  {
    assert intervalSecs <= Max(SaturatingMul(Max(intervalSecs, 30), 4), 120);
    PruningIsInvisible(intervalSecs * TICKS_PER_SECOND, Retention(intervalSecs), ops, op);
  }

  // ----- Slots are apart -----

  /** The stamps of the slots granted to a user, oldest first. */
  function Granted(interval: int, retention: int, ops: seq<Op>, user: string): seq<int> {
    if ops == [] then []
    else
      var init, op := ops[..|ops| - 1], ops[|ops| - 1];
      Granted(interval, retention, init, user) +
      if op.Reserve? && op.user == user && Apply(Exec(interval, retention, init), interval, retention, op).1
      then [op.stamp] else []
  }

  lemma {:induction false} UnprunedIsLatest(interval: int, retention: int, ops: seq<Op>, user: string)
    requires Ordered(ops) && 0 <= interval <= retention + 1 && 0 <= retention
    ensures var granted := Granted(interval, retention, ops, user);
            StampOf(Unpruned(interval, ops), user) == if granted == [] then None else Some(granted[|granted| - 1])
  {
    hide Exec, Ordered;
    if ops != [] {
      var init, op := ops[..|ops| - 1], ops[|ops| - 1];
      assert init + [op] == ops;
      OrderedInit(ops);
      UnprunedIsLatest(interval, retention, init, user);
      if op.Reserve? {
        PruningIsInvisible(interval, retention, init, op);
      }
    }
  }

  /** Any two slots granted to a user are at least the refresh interval apart, however often stamps are pruned. */
  lemma {:induction false} SlotsApart(interval: int, retention: int, ops: seq<Op>, user: string)
    requires Ordered(ops) && 0 <= interval <= retention + 1 && 0 <= retention
    ensures var granted := Granted(interval, retention, ops, user);
            forall i, j | 0 <= i < j < |granted| :: granted[i] + interval <= granted[j]
  {
    hide Exec, Ordered, Unpruned;
    if ops != [] {
      var init, op := ops[..|ops| - 1], ops[|ops| - 1];
      assert init + [op] == ops;
      OrderedInit(ops);
      SlotsApart(interval, retention, init, user);
      UnprunedIsLatest(interval, retention, init, user);
      if op.Reserve? {
        PruningIsInvisible(interval, retention, init, op);
      }
    }
  }
}
