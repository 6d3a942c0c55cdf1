/** The per-room sliding-window rate limiter, against counting the whole history of accepted events. */
module RateLimiter {
  datatype Call = Call(room: string, now: int)

  type Queues = map<string, seq<int>>

  function QueueOf(queues: Queues, room: string): seq<int> {
    if room in queues then queues[room] else []
  }

  /** Pops the stamps older than the window, from the front as far as they go. */
  function Popped(queue: seq<int>, window: int, now: int): seq<int> {
    if queue != [] && now - queue[0] > window then Popped(queue[1..], window, now) else queue
  }

  /** `allow`: the queues afterwards and the answer. */
  function AllowAt(queues: Queues, limit: nat, window: nat, call: Call): (Queues, bool) {
    if limit == 0 || window == 0 then (queues, true)
    else
      var queue := Popped(QueueOf(queues, call.room), window, call.now);
      if |queue| >= limit then (queues[call.room := queue], false)
      else (queues[call.room := queue + [call.now]], true)
  }

  class RoomRateLimiter {
    const limit: nat
    const window: nat
    var eventsByRoom: Queues

    constructor (limit: nat, window: nat)
      ensures this.limit == limit && this.window == window && eventsByRoom == map[]
    {
      this.limit, this.window := limit, window;
      eventsByRoom := map[];
    }

    method Allow(call: Call) returns (ok: bool)
      modifies this
      ensures (eventsByRoom, ok) == AllowAt(old(eventsByRoom), limit, window, call)
    {
      if limit == 0 || window == 0 {
        return true;
      }
      var queue := if call.room in eventsByRoom then eventsByRoom[call.room] else [];
      ghost var all := queue;
      while queue != [] && call.now - queue[0] > window
        invariant Popped(queue, window, call.now) == Popped(all, window, call.now)
        decreases |queue|
      {
        queue := queue[1..];
      }
      ok := |queue| < limit;
      if ok {
        queue := queue + [call.now];
      }
      eventsByRoom := eventsByRoom[call.room := queue];
    }
  }

  // ----- Runs -----

  function Exec(limit: nat, window: nat, run: seq<Call>): Queues {
    if run == [] then map[] else AllowAt(Exec(limit, window, run[..|run| - 1]), limit, window, run[|run| - 1]).0
  }

  /** The stamps of a room's accepted events. */
  function Accepted(limit: nat, window: nat, run: seq<Call>, room: string): seq<int> {
    if run == [] then []
    else
      var init, call := run[..|run| - 1], run[|run| - 1];
      Accepted(limit, window, init, room) +
      if call.room == room && AllowAt(Exec(limit, window, init), limit, window, call).1 then [call.now] else []
  }

  /** How many stamps lie in the closed interval. */
  function CountIn(stamps: seq<int>, from: int, to: int): nat {
    if stamps == [] then 0
    else CountIn(stamps[..|stamps| - 1], from, to) +
         if from <= stamps[|stamps| - 1] <= to then 1 else 0
  }

  ghost predicate Ordered(run: seq<Call>) {
    forall i, j | 0 <= i < j < |run| :: run[i].now <= run[j].now
  }

  ghost predicate Sorted(stamps: seq<int>) {
    forall i, j | 0 <= i < j < |stamps| :: stamps[i] <= stamps[j]
  }

  // ----- The queue is the recent end of the history -----

  lemma {:induction false} PoppedKeepsRecent(queue: seq<int>, window: int, now: int)
    requires Sorted(queue)
    ensures var rest := Popped(queue, window, now);
            && |rest| <= |queue| && rest == queue[|queue| - |rest|..]
            && (forall i | 0 <= i < |queue| - |rest| :: now - queue[i] > window)
            && (forall i | 0 <= i < |rest| :: now - rest[i] <= window)
  {
    if queue != [] && now - queue[0] > window {
      PoppedKeepsRecent(queue[1..], window, now);
    }
  }

  /** The queue lacks only stamps that are out of every later window. */
  ghost predicate RecentEnd(queue: seq<int>, history: seq<int>, window: int, now: int) {
    && |queue| <= |history| && queue == history[|history| - |queue|..]
    && forall i | 0 <= i < |history| - |queue| :: now - history[i] > window
  }

  ghost predicate Past(stamps: seq<int>, now: int) {
    Sorted(stamps) && forall i | 0 <= i < |stamps| :: stamps[i] <= now
  }

  lemma {:induction false} CountSuffix(history: seq<int>, cut: nat, from: int, to: int)
    requires cut <= |history|
    requires forall i | 0 <= i < cut :: history[i] < from
    requires forall i | cut <= i < |history| :: from <= history[i] <= to
    ensures CountIn(history, from, to) == |history| - cut
  {
    if cut < |history| {
      CountSuffix(history[..|history| - 1], cut, from, to);
    } else {
      CountNone(history, from, to);
    }
  }

  lemma {:induction false} CountNone(stamps: seq<int>, from: int, to: int)
    requires forall i | 0 <= i < |stamps| :: stamps[i] < from
    ensures CountIn(stamps, from, to) == 0
  {
    if stamps != [] {
      CountNone(stamps[..|stamps| - 1], from, to);
    }
  }

  /** Popping again later keeps the recent end. */
  lemma PoppedRecent(queue: seq<int>, history: seq<int>, window: int, before: int, now: int)
    requires RecentEnd(queue, history, window, before) && Past(history, before) && before <= now
    ensures RecentEnd(Popped(queue, window, now), history, window, now)
    ensures forall t | t in Popped(queue, window, now) :: now - t <= window
  {
    SuffixSorted(history, |history| - |queue|);
    PoppedKeepsRecent(queue, window, now);
    hide Popped;
    var rest := Popped(queue, window, now);
    var lost := |history| - |queue|;
    forall i | 0 <= i < |history| - |rest|
      ensures now - history[i] > window
    {
      if i >= lost {
        assert history[i] == queue[i - lost];
      }
    }
  }

  lemma SuffixSorted(stamps: seq<int>, cut: nat)
    requires cut <= |stamps| && Sorted(stamps)
    ensures Sorted(stamps[cut..])
  {
  }

  /** After popping, the queue's length is the count over the whole history. */
  lemma PoppedCounts(queue: seq<int>, history: seq<int>, window: int, before: int, now: int)
    requires RecentEnd(queue, history, window, before) && Past(history, before) && before <= now
    ensures |Popped(queue, window, now)| == CountIn(history, now - window, now)
  {
    PoppedRecent(queue, history, window, before, now);
    hide Popped;
    var rest := Popped(queue, window, now);
    var cut := |history| - |rest|;
    forall i | cut <= i < |history|
      ensures now - window <= history[i] <= now
    {
      assert history[i] == rest[i - cut] && rest[i - cut] in rest;
    }
    CountSuffix(history, cut, now - window, now);
  }

  lemma StampAdded(queue: seq<int>, history: seq<int>, window: int, now: int)
    requires RecentEnd(queue, history, window, now) && Past(history, now)
    ensures RecentEnd(queue + [now], history + [now], window, now) && Past(history + [now], now)
  {
  }

  lemma StillPast(stamps: seq<int>, before: int, now: int)
    requires Past(stamps, before) && before <= now
    ensures Past(stamps, now)
  {
  }

  function LastStamp(run: seq<Call>, otherwise: int): int {
    if run == [] then otherwise else run[|run| - 1].now
  }

  lemma OrderedInit(run: seq<Call>)
    requires Ordered(run) && run != []
    ensures Ordered(run[..|run| - 1])
    ensures LastStamp(run[..|run| - 1], run[|run| - 1].now) <= run[|run| - 1].now
  {
  }

  lemma NothingRecent(window: int, now: int)
    ensures RecentEnd([], [], window, now) && Past([], now)
  {
  }

  lemma {:induction false} RunKeepsRecent(limit: nat, window: nat, run: seq<Call>, room: string, otherwise: int)
    requires Ordered(run) && limit > 0 && window > 0
    ensures RecentEnd(QueueOf(Exec(limit, window, run), room), Accepted(limit, window, run, room), window,
                      LastStamp(run, otherwise))
    ensures Past(Accepted(limit, window, run, room), LastStamp(run, otherwise))
  {
    hide Ordered, RecentEnd, Past, Popped;
    if run == [] {
      NothingRecent(window, otherwise);
    } else {
      var init, call := run[..|run| - 1], run[|run| - 1];
      OrderedInit(run);
      RunKeepsRecent(limit, window, init, room, call.now);
      var queue, history := QueueOf(Exec(limit, window, init), room), Accepted(limit, window, init, room);
      StillPast(history, LastStamp(init, call.now), call.now);
      if call.room == room {
        PoppedRecent(queue, history, window, LastStamp(init, call.now), call.now);
        if |Popped(queue, window, call.now)| < limit {
          StampAdded(Popped(queue, window, call.now), history, window, call.now);
        } else {
          assert Accepted(limit, window, run, room) == history;
        }
      } else {
        StillRecent(queue, history, window, LastStamp(init, call.now), call.now);
        assert Accepted(limit, window, run, room) == history;
      }
    }
  }

  lemma StillRecent(queue: seq<int>, history: seq<int>, window: int, before: int, now: int)
    requires RecentEnd(queue, history, window, before) && before <= now
    ensures RecentEnd(queue, history, window, now)
  {
  }

  /**
   * The limiter counts: it lets a call pass iff fewer than `limit` events of the room were accepted in the window
   * that ends with the call. A limit or a window of zero switches it off.
   */
  lemma AllowCounts(limit: nat, window: nat, run: seq<Call>, call: Call)
    requires Ordered(run + [call])
    ensures AllowAt(Exec(limit, window, run), limit, window, call).1 <==>
            || limit == 0 || window == 0
            || CountIn(Accepted(limit, window, run, call.room), call.now - window, call.now) < limit
  {
    hide Ordered, RecentEnd, Past, Popped, Accepted, Exec, CountIn;
    if limit > 0 && window > 0 {
      assert (run + [call])[..|run|] == run && (run + [call])[|run|] == call;
      OrderedInit(run + [call]);
      RunKeepsRecent(limit, window, run, call.room, call.now);
      PoppedCounts(QueueOf(Exec(limit, window, run), call.room), Accepted(limit, window, run, call.room), window,
                   LastStamp(run, call.now), call.now);
    }
  }

  // ----- No window is ever overfull -----

  lemma {:induction false} WiderCountsMore(stamps: seq<int>, from: int, to: int, from': int, to': int)
    requires from' <= from && forall i | 0 <= i < |stamps| :: stamps[i] <= to'
    ensures CountIn(stamps, from, to) <= CountIn(stamps, from', to')
  {
    if stamps != [] {
      WiderCountsMore(stamps[..|stamps| - 1], from, to, from', to');
    }
  }

  /** An accepted stamp fits into every interval that holds it. */
  lemma AcceptedFits(history: seq<int>, limit: nat, window: nat, now: int, from: int)
    requires Past(history, now) && CountIn(history, now - window, now) < limit
    requires CountIn(history, from, from + window) <= limit
    ensures CountIn(history + [now], from, from + window) <= limit
  {
    assert (history + [now])[..|history|] == history;
    if from <= now <= from + window {
      WiderCountsMore(history, from, from + window, now - window, now);
    }
  }

  /** Every closed interval as long as the window, anywhere in any run, holds at most `limit` accepted events a room. */
  lemma {:induction false} NoWindowOverfull(limit: nat, window: nat, run: seq<Call>, room: string, from: int)
    requires Ordered(run) && limit > 0 && window > 0
    ensures CountIn(Accepted(limit, window, run, room), from, from + window) <= limit
  {
    hide Ordered, RecentEnd, Past, AllowAt, Exec;
    if run != [] {
      var init, call := run[..|run| - 1], run[|run| - 1];
      var history := Accepted(limit, window, init, room);
      assert init + [call] == run;
      OrderedInit(run);
      NoWindowOverfull(limit, window, init, room, from);
      if call.room == room && AllowAt(Exec(limit, window, init), limit, window, call).1 {
        AllowCounts(limit, window, init, call);
        RunKeepsRecent(limit, window, init, room, call.now);
        StillPast(history, LastStamp(init, call.now), call.now);
        AcceptedFits(history, limit, window, call.now, from);
      } else {
        assert Accepted(limit, window, run, room) == history;
      }
    }
  }

  // ----- Rooms do not matter to each other -----

  function Only(run: seq<Call>, room: string): seq<Call> {
    if run == [] then []
    else Only(run[..|run| - 1], room) + if run[|run| - 1].room == room then [run[|run| - 1]] else []
  }

  /** A room's queue and its accepted events are those of a run of that room alone. */
  lemma {:induction false} RoomsIndependent(limit: nat, window: nat, run: seq<Call>, room: string)
    ensures QueueOf(Exec(limit, window, run), room) == QueueOf(Exec(limit, window, Only(run, room)), room)
    ensures Accepted(limit, window, run, room) == Accepted(limit, window, Only(run, room), room)
  {
    hide Popped;
    if run != [] {
      var init, call := run[..|run| - 1], run[|run| - 1];
      RoomsIndependent(limit, window, init, room);
      if call.room == room {
        assert Only(run, room)[..|Only(run, room)| - 1] == Only(init, room);
      } else {
        assert Only(run, room) == Only(init, room);
        assert Accepted(limit, window, run, room) == Accepted(limit, window, init, room);
      }
    }
  }
}
