/**
 * The dead-letter store: failed events kept under a UNIQUE dedupe key until they are replayed or cleaned up.
 * Rows are listed in the order of their AUTOINCREMENT ids.
 */
module DeadLetters {
  import opened Wrappers

  datatype Status = Pending | Failed | Replayed

  datatype Letter<+P> = Letter(id: nat, key: string, payload: P, error: string, status: Status, replayCount: nat,
                               updatedAt: int)

  datatype Letters<+P> = Letters(rows: seq<Letter<P>>, nextId: nat)

  ghost predicate Valid<P>(t: Letters<P>) {
    && (forall i | 0 <= i < |t.rows| :: t.rows[i].id < t.nextId)
    && (forall i, j | 0 <= i < j < |t.rows| :: t.rows[i].id < t.rows[j].id)
    && (forall i, j | 0 <= i < j < |t.rows| :: t.rows[i].key != t.rows[j].key)
  }

  function IndexOfKey<P>(rows: seq<Letter<P>>, key: string): (r: Option<nat>)
    ensures r.Some? ==> r.value < |rows| && rows[r.value].key == key
    ensures r.None? ==> forall i | 0 <= i < |rows| :: rows[i].key != key
  {
    if rows == [] then None
    else if rows[|rows| - 1].key == key then Some(|rows| - 1)
    else IndexOfKey(rows[..|rows| - 1], key)
  }

  function IndexOfId<P>(rows: seq<Letter<P>>, id: nat): (r: Option<nat>)
    ensures r.Some? ==> r.value < |rows| && rows[r.value].id == id
    ensures r.None? ==> forall i | 0 <= i < |rows| :: rows[i].id != id
  {
    if rows == [] then None
    else if rows[|rows| - 1].id == id then Some(|rows| - 1)
    else IndexOfId(rows[..|rows| - 1], id)
  }

  /** `create_dead_letter`: a conflict on the key rewrites payload, error, status and time of the old row only. */
  function Upsert<P>(t: Letters<P>, key: string, payload: P, error: string, now: int): Letters<P> {
    match IndexOfKey(t.rows, key)
    case Some(i) =>
      t.(rows := t.rows[i := t.rows[i].(payload := payload, error := error, status := Pending, updatedAt := now)])
    case None =>
      Letters(t.rows + [Letter(t.nextId, key, payload, error, Pending, 0, now)], t.nextId + 1)
  }

  function MarkReplayed<P>(t: Letters<P>, id: nat, now: int): Letters<P> {
    match IndexOfId(t.rows, id)
    case None => t
    case Some(i) =>
      t.(rows := t.rows[i := t.rows[i].(status := Replayed, replayCount := t.rows[i].replayCount + 1, updatedAt := now)])
  }

  function MarkFailed<P>(t: Letters<P>, id: nat, error: string, now: int): Letters<P> {
    match IndexOfId(t.rows, id)
    case None => t
    case Some(i) => t.(rows := t.rows[i := t.rows[i].(status := Failed, error := error, updatedAt := now)])
  }

  predicate HasStatus<P>(row: Letter<P>, status: Option<Status>) {
    status.None? || row.status == status.value
  }

  predicate IsOlder<P>(row: Letter<P>, olderThan: Option<int>) {
    olderThan.None? || row.updatedAt < olderThan.value
  }

  function WithStatus<P>(rows: seq<Letter<P>>, status: Option<Status>): (r: seq<Letter<P>>)
    ensures forall k | 0 <= k < |r| :: r[k] in rows
  {
    if rows == [] then []
    else WithStatus(rows[..|rows| - 1], status) + if HasStatus(rows[|rows| - 1], status) then [rows[|rows| - 1]] else []
  }

  function Older<P>(rows: seq<Letter<P>>, olderThan: Option<int>): (r: seq<Letter<P>>)
    ensures |r| <= |rows|
    ensures forall k | 0 <= k < |r| :: r[k] in rows
  {
    if rows == [] then []
    else Older(rows[..|rows| - 1], olderThan) + if IsOlder(rows[|rows| - 1], olderThan) then [rows[|rows| - 1]] else []
  }

  function Ids<P>(rows: seq<Letter<P>>): set<nat> {
    set i | 0 <= i < |rows| :: rows[i].id
  }

  function AtLeastOne(limit: int): nat {
    if limit < 1 then 1 else limit
  }

  function FirstRows<P>(rows: seq<Letter<P>>, limit: nat): seq<Letter<P>> {
    if |rows| <= limit then rows else rows[..limit]
  }

  function LastRows<P>(rows: seq<Letter<P>>, limit: nat): seq<Letter<P>> {
    if |rows| <= limit then rows else rows[|rows| - limit..]
  }

  /** The rows `cleanup_dead_letters` deletes: the lowest ids among those that match. */
  function CleanupIds<P>(t: Letters<P>, status: Option<Status>, olderThan: Option<int>, limit: int): set<nat> {
    Ids(FirstRows(Older(WithStatus(t.rows, status), olderThan), AtLeastOne(limit)))
  }

  /** The rows a dry run announces: those old enough among the highest ids with the status. */
  function DryRunIds<P>(t: Letters<P>, status: Option<Status>, olderThan: Option<int>, limit: int): set<nat> {
    Ids(Older(LastRows(WithStatus(t.rows, status), AtLeastOne(limit)), olderThan))
  }

  function Without<P>(rows: seq<Letter<P>>, ids: set<nat>): (r: seq<Letter<P>>)
    ensures forall k | 0 <= k < |r| :: r[k] in rows && r[k].id !in ids
  {
    if rows == [] then []
    else Without(rows[..|rows| - 1], ids) + if rows[|rows| - 1].id in ids then [] else [rows[|rows| - 1]]
  }

  function Cleanup<P>(t: Letters<P>, status: Option<Status>, olderThan: Option<int>, limit: int): Letters<P> {
    t.(rows := Without(t.rows, CleanupIds(t, status, olderThan, limit)))
  }

  // ----- The operations as values -----

  /** What the users of the store do to it: tasks record, replays mark, and the API cleans up. */
  datatype Op<+P> =
    | Record(key: string, payload: P, error: string, now: int)
    | Mark(id: nat, ok: bool, error: string, now: int)
    | Clean(status: Option<Status>, olderThan: Option<int>, limit: int)

  function Apply<P>(t: Letters<P>, op: Op<P>): Letters<P> {
    match op
    case Record(key, payload, error, now) => Upsert(t, key, payload, error, now)
    case Mark(id, ok, error, now) => if ok then MarkReplayed(t, id, now) else MarkFailed(t, id, error, now)
    case Clean(status, olderThan, limit) => Cleanup(t, status, olderThan, limit)
  }

  function Exec<P>(t: Letters<P>, ops: seq<Op<P>>): Letters<P> {
    if ops == [] then t else Apply(Exec(t, ops[..|ops| - 1]), ops[|ops| - 1])
  }

  // ----- Replaying one letter, and a batch of them -----

  /**
   * What one replay meets: what others did to the store before it reads the row, reading it, parsing its payload,
   * what others do while the handler runs, the handler's answer, and writing the new status.
   */
  datatype Answer<+P> = Answer(before: seq<Op<P>>, read: bool, parsed: bool, during: seq<Op<P>>, handled: bool,
                               writeOk: bool, error: string)

  /** `replay_dead_letter`: the store afterwards and whether Ok was returned. The status is looked at only once. */
  function ReplayOne<P>(t: Letters<P>, id: nat, a: Answer<P>, now: int): (Letters<P>, bool) {
    var seen := Exec(t, a.before);
    if !a.read then (seen, false) else
    match IndexOfId(seen.rows, id)
    case None => (seen, false)
    case Some(i) =>
      if seen.rows[i].status == Replayed then (seen, true)
      else if !a.parsed then (seen, false)
      else if !a.writeOk then (Exec(seen, a.during), false)
      else (Apply(Exec(seen, a.during), Mark(id, a.handled, a.error, now)), a.handled)
  }

  function ReplayAll<P>(t: Letters<P>, ids: seq<nat>, answers: seq<Answer<P>>, now: int): Letters<P>
    requires |answers| == |ids|
  {
    if ids == [] then t
    else
      var last := |ids| - 1;
      ReplayOne(ReplayAll(t, ids[..last], answers[..last], now), ids[last], answers[last], now).0
  }

  /** Whether the `k`-th replay of a batch returned Ok. */
  predicate ReplayOk<P>(t: Letters<P>, ids: seq<nat>, answers: seq<Answer<P>>, now: int, k: nat)
    requires |answers| == |ids| && k < |ids|
  {
    ReplayOne(ReplayAll(t, ids[..k], answers[..k], now), ids[k], answers[k], now).1
  }

  lemma OlderNext<P>(rows: seq<Letter<P>>, row: Letter<P>, olderThan: Option<int>)
    ensures Older(rows + [row], olderThan) == Older(rows, olderThan) + if IsOlder(row, olderThan) then [row] else []
  {
    assert (rows + [row])[..|rows|] == rows;
  }

  lemma CandidateNext<P>(rows: seq<Letter<P>>, i: nat, status: Option<Status>, olderThan: Option<int>, most: nat)
    requires i < |rows|
    ensures var before := FirstRows(Older(WithStatus(rows[..i], status), olderThan), most);
            FirstRows(Older(WithStatus(rows[..i + 1], status), olderThan), most) ==
            if HasStatus(rows[i], status) && IsOlder(rows[i], olderThan) && |before| < most then before + [rows[i]] else before
  {
    hide Older, IsOlder, HasStatus;
    assert rows[..i + 1][..i] == rows[..i];
    var matching := WithStatus(rows[..i], status);
    if HasStatus(rows[i], status) {
      assert WithStatus(rows[..i + 1], status) == matching + [rows[i]];
      OlderNext(matching, rows[i], olderThan);
    } else {
      assert WithStatus(rows[..i + 1], status) == matching;
    }
  }

  /** The store and the operations on it, as the provisioning API uses them. */
  class Store<P> {
    var rows: seq<Letter<P>>
    var nextId: nat

    constructor ()
      ensures Contents() == Letters([], 1)
    {
      rows, nextId := [], 1;
    }

    function Contents(): Letters<P>
      reads this
    {
      Letters(rows, nextId)
    }

    method CreateDeadLetter(key: string, payload: P, error: string, now: int)
      modifies this
      ensures Contents() == Upsert(old(Contents()), key, payload, error, now)
    {
      var found := IndexOfKey(rows, key);
      if found.Some? {
        var row := rows[found.value];
        rows := rows[found.value := row.(payload := payload, error := error, status := Pending, updatedAt := now)];
      } else {
        rows := rows + [Letter(nextId, key, payload, error, Pending, 0, now)];
        nextId := nextId + 1;
      }
    }

    /** The row with this id, whatever its status is by now. */
    method MarkDeadLetterReplayed(id: nat, now: int)
      modifies this`rows
      ensures Contents() == MarkReplayed(old(Contents()), id, now)
    {
      var found := IndexOfId(rows, id);
      if found.Some? {
        var row := rows[found.value];
        rows := rows[found.value := row.(status := Replayed, replayCount := row.replayCount + 1, updatedAt := now)];
      }
    }

    method MarkDeadLetterFailed(id: nat, error: string, now: int)
      modifies this`rows
      ensures Contents() == MarkFailed(old(Contents()), id, error, now)
    {
      var found := IndexOfId(rows, id);
      if found.Some? {
        rows := rows[found.value := rows[found.value].(status := Failed, error := error, updatedAt := now)];
      }
    }

    /** The matching rows with the lowest ids, at most `most` of them. */
    method Candidates(status: Option<Status>, olderThan: Option<int>, most: nat) returns (candidates: seq<Letter<P>>)
      ensures candidates == FirstRows(Older(WithStatus(rows, status), olderThan), most)
    {
      candidates := [];
      var i := 0;
      while i < |rows|
        invariant 0 <= i <= |rows|
        invariant candidates == FirstRows(Older(WithStatus(rows[..i], status), olderThan), most)
      {
        CandidateNext(rows, i, status, olderThan, most);
        if HasStatus(rows[i], status) && IsOlder(rows[i], olderThan) && |candidates| < most {
          candidates := candidates + [rows[i]];
        }
        i := i + 1;
      }
      assert rows[..i] == rows;
    }

    method DeleteByIds(ids: set<nat>)
      modifies this`rows
      ensures rows == Without(old(rows), ids)
    {
      var kept: seq<Letter<P>> := [];
      var i := 0;
      while i < |rows|
        invariant 0 <= i <= |rows|
        invariant kept == Without(rows[..i], ids)
      {
        assert rows[..i + 1][..i] == rows[..i];
        if rows[i].id !in ids {
          kept := kept + [rows[i]];
        }
        i := i + 1;
      }
      assert rows[..i] == rows;
      rows := kept;
    }

    method CleanupDeadLetters(status: Option<Status>, olderThan: Option<int>, limit: int) returns (deleted: nat)
      modifies this`rows
      ensures Contents() == Cleanup(old(Contents()), status, olderThan, limit)
      ensures deleted == |CleanupIds(old(Contents()), status, olderThan, limit)|
    {
      var candidates := Candidates(status, olderThan, AtLeastOne(limit));
      var ids := Ids(candidates);
      DeleteByIds(ids);
      deleted := |ids|;
    }

    /** What the other users of the store do meanwhile. */
    method Others(ops: seq<Op<P>>)
      modifies this
      ensures Contents() == Exec(old(Contents()), ops)
    {
      var k := 0;
      while k < |ops|
        invariant 0 <= k <= |ops|
        invariant Contents() == Exec(old(Contents()), ops[..k])
      {
        assert ops[..k + 1][..k] == ops[..k];
        match ops[k] {
          case Record(key, payload, error, now) => CreateDeadLetter(key, payload, error, now);
          case Mark(id, ok, error, now) =>
            if ok {
              MarkDeadLetterReplayed(id, now);
            } else {
              MarkDeadLetterFailed(id, error, now);
            }
          case Clean(status, olderThan, limit) =>
            var deleted := CleanupDeadLetters(status, olderThan, limit);
        }
        k := k + 1;
      }
      assert ops[..k] == ops;
    }

    method ReplayDeadLetter(id: nat, a: Answer<P>, now: int) returns (ok: bool)
      modifies this
      ensures (Contents(), ok) == ReplayOne(old(Contents()), id, a, now)
    {
      Others(a.before);
      if !a.read {
        return false;
      }
      var found := IndexOfId(rows, id);
      if found.None? {
        return false;
      }
      if rows[found.value].status == Replayed {
        return true;
      }
      if !a.parsed {
        return false;
      }
      Others(a.during);
      if !a.writeOk {
        return false;
      }
      if a.handled {
        MarkDeadLetterReplayed(id, now);
      } else {
        MarkDeadLetterFailed(id, a.error, now);
      }
      return a.handled;
    }

    /** `replay_dead_letters`: every requested id is either replayed or listed as a failure, in order. */
    method ReplayDeadLetters(ids: seq<nat>, answers: seq<Answer<P>>, now: int) returns (replayed: nat,
                             failures: seq<nat>)
      requires |answers| == |ids|
      modifies this
      ensures Contents() == ReplayAll(old(Contents()), ids, answers, now)
      ensures |ids| == replayed + |failures|
      ensures failures == Failures(old(Contents()), ids, answers, now)
    {
      replayed, failures := 0, [];
      var k := 0;
      while k < |ids|
        invariant 0 <= k <= |ids|
        invariant Contents() == ReplayAll(old(Contents()), ids[..k], answers[..k], now)
        invariant k == replayed + |failures|
        invariant failures == Failures(old(Contents()), ids[..k], answers[..k], now)
      {
        assert ids[..k + 1][..k] == ids[..k] && answers[..k + 1][..k] == answers[..k];
        var ok := ReplayDeadLetter(ids[k], answers[k], now);
        if ok {
          replayed := replayed + 1;
        } else {
          failures := failures + [ids[k]];
        }
        k := k + 1;
      }
      assert ids[..k] == ids && answers[..k] == answers;
    }
  }

  /** The ids of a batch whose replay returned an error, in order. */
  function Failures<P>(t: Letters<P>, ids: seq<nat>, answers: seq<Answer<P>>, now: int): seq<nat>
    requires |answers| == |ids|
  {
    if ids == [] then []
    else
      var last := |ids| - 1;
      Failures(t, ids[..last], answers[..last], now) + if ReplayOk(t, ids, answers, now, last) then [] else [ids[last]]
  }
}
