/** What every run of the dead-letter store keeps, and when a dry-run cleanup tells the truth. */
module DeadLetterFacts {
  import opened Wrappers
  import opened DeadLetters

  function RowIn<P>(rows: seq<Letter<P>>, id: nat): Option<Letter<P>> {
    match IndexOfId(rows, id)
    case None => None
    case Some(i) => Some(rows[i])
  }

  function RowOf<P>(t: Letters<P>, id: nat): Option<Letter<P>> {
    RowIn(t.rows, id)
  }

  lemma RowAt<P>(t: Letters<P>, i: nat)
    requires Valid(t) && i < |t.rows|
    ensures IndexOfId(t.rows, t.rows[i].id) == Some(i) && RowOf(t, t.rows[i].id) == Some(t.rows[i])
  {
    var j := IndexOfId(t.rows, t.rows[i].id).value;
    assert t.rows[j].id == t.rows[i].id;
  }

  // ----- Deleting rows -----

  ghost predicate Ascending<P>(rows: seq<Letter<P>>) {
    forall i, j | 0 <= i < j < |rows| :: rows[i].id < rows[j].id
  }

  ghost predicate DistinctKeys<P>(rows: seq<Letter<P>>) {
    forall i, j | 0 <= i < j < |rows| :: rows[i].key != rows[j].key
  }

  /** An order among rows that is kept by every selection of rows. */
  lemma SelectedBeforeLast<P>(rows: seq<Letter<P>>, kept: seq<Letter<P>>)
    requires rows != [] && forall k | 0 <= k < |kept| :: kept[k] in rows[..|rows| - 1]
    ensures Ascending(rows) ==> forall k | 0 <= k < |kept| :: kept[k].id < rows[|rows| - 1].id
    ensures DistinctKeys(rows) ==> forall k | 0 <= k < |kept| :: kept[k].key != rows[|rows| - 1].key
  {
    forall k | 0 <= k < |kept|
      ensures Ascending(rows) ==> kept[k].id < rows[|rows| - 1].id
      ensures DistinctKeys(rows) ==> kept[k].key != rows[|rows| - 1].key
    {
      var i :| 0 <= i < |rows| - 1 && rows[..|rows| - 1][i] == kept[k];
      assert rows[i] == kept[k];
    }
  }

  lemma {:induction false} WithoutKeepsOrder<P>(rows: seq<Letter<P>>, ids: set<nat>)
    requires Ascending(rows) && DistinctKeys(rows)
    ensures Ascending(Without(rows, ids)) && DistinctKeys(Without(rows, ids))
  {
    if rows != [] {
      WithoutKeepsOrder(rows[..|rows| - 1], ids);
      SelectedBeforeLast(rows, Without(rows[..|rows| - 1], ids));
    }
  }

  lemma RowInAppend<P>(init: seq<Letter<P>>, last: Letter<P>, id: nat)
    ensures RowIn(init + [last], id) == if last.id == id then Some(last) else RowIn(init, id)
  {
    assert (init + [last])[..|init|] == init;
  }

  lemma {:induction false} WithoutRow<P>(rows: seq<Letter<P>>, ids: set<nat>, id: nat)
    ensures RowIn(Without(rows, ids), id) == if id in ids then None else RowIn(rows, id)
  {
    if rows != [] {
      var init, last := rows[..|rows| - 1], rows[|rows| - 1];
      WithoutRow(init, ids, id);
      assert rows == init + [last];
      RowInAppend(init, last, id);
      if last.id in ids {
        assert Without(rows, ids) == Without(init, ids);
      } else {
        assert Without(rows, ids) == Without(init, ids) + [last];
        RowInAppend(Without(init, ids), last, id);
      }
    }
  }

  /** Deleting by a set of ids removes exactly the rows with these ids. */
  lemma CleanupRow<P>(t: Letters<P>, ids: set<nat>, id: nat)
    requires Valid(t)
    ensures var t' := t.(rows := Without(t.rows, ids));
            Valid(t') && RowOf(t', id) == if id in ids then None else RowOf(t, id)
  {
    WithoutKeepsOrder(t.rows, ids);
    WithoutRow(t.rows, ids, id);
    var t' := t.(rows := Without(t.rows, ids));
    forall i | 0 <= i < |t'.rows|
      ensures t'.rows[i].id < t.nextId
    {
      assert t'.rows[i] in t.rows;
    }
  }

  // ----- One operation -----

  /** Changing a row in place keeps every other row. */
  lemma UpdateRow<P>(t: Letters<P>, i: nat, row: Letter<P>, id: nat)
    requires Valid(t) && i < |t.rows| && row.id == t.rows[i].id && row.key == t.rows[i].key
    ensures var t' := t.(rows := t.rows[i := row]);
            Valid(t') && RowOf(t', id) == if id == row.id then Some(row) else RowOf(t, id)
  {
    hide Valid, IndexOfId;
    var t' := t.(rows := t.rows[i := row]);
    UpdateValid(t, i, row);
    RowAt(t', i);
    if RowOf(t, id).Some? {
      RowAt(t', IndexOfId(t.rows, id).value);
    }
  }

  lemma UpdateValid<P>(t: Letters<P>, i: nat, row: Letter<P>)
    requires Valid(t) && i < |t.rows| && row.id == t.rows[i].id && row.key == t.rows[i].key
    ensures Valid(t.(rows := t.rows[i := row]))
  {
    var rows := t.rows[i := row];
    assert forall k | 0 <= k < |t.rows| :: rows[k].id == t.rows[k].id && rows[k].key == t.rows[k].key;
  }

  /** A new key is appended under the next id. */
  lemma AppendRow<P>(t: Letters<P>, row: Letter<P>, id: nat)
    requires Valid(t) && row.id == t.nextId && IndexOfKey(t.rows, row.key).None?
    ensures var t' := Letters(t.rows + [row], t.nextId + 1);
            Valid(t') && RowOf(t', id) == if id == row.id then Some(row) else RowOf(t, id)
  {
    hide RowIn, Valid;
    AppendValid(t, row);
    RowInAppend(t.rows, row, id);
  }

  lemma AppendValid<P>(t: Letters<P>, row: Letter<P>)
    requires Valid(t) && row.id == t.nextId && IndexOfKey(t.rows, row.key).None?
    ensures Valid(Letters(t.rows + [row], t.nextId + 1))
  {
    var rows := t.rows + [row];
    assert forall i | 0 <= i < |t.rows| :: rows[i] == t.rows[i] && rows[i].key != row.key;
  }

  /** What `Upsert` does to each row: the key's row is reopened with its id and replay count kept. */
  lemma UpsertRow<P>(t: Letters<P>, key: string, payload: P, error: string, now: int, id: nat)
    requires Valid(t)
    ensures var t' := Upsert(t, key, payload, error, now);
            && Valid(t')
            && t.nextId <= t'.nextId
            && (match IndexOfKey(t.rows, key)
                case Some(i) =>
                  RowOf(t', id) == if id == t.rows[i].id
                                   then Some(Letter(id, key, payload, error, Pending, t.rows[i].replayCount, now))
                                   else RowOf(t, id)
                case None =>
                  RowOf(t', id) == if id == t.nextId then Some(Letter(id, key, payload, error, Pending, 0, now))
                                   else RowOf(t, id))
  {
    match IndexOfKey(t.rows, key)
    case Some(i) =>
      UpdateRow(t, i, t.rows[i].(payload := payload, error := error, status := Pending, updatedAt := now), id);
    case None =>
      AppendRow(t, Letter(t.nextId, key, payload, error, Pending, 0, now), id);
  }

  /** 1 when the operation marks the row `id` as replayed. */
  function Marks<P>(t: Letters<P>, op: Op<P>, id: nat): nat {
    if op.Mark? && op.ok && op.id == id && RowOf(t, id).Some? then 1 else 0
  }

  function AfterMark<P>(row: Letter<P>, ok: bool, error: string, now: int): Letter<P> {
    if ok then row.(status := Replayed, replayCount := row.replayCount + 1, updatedAt := now)
    else row.(status := Failed, error := error, updatedAt := now)
  }

  /** The effect of one mark on each row. The mark does not look at the status it overwrites. */
  lemma MarkRow<P>(t: Letters<P>, op: Op<P>, id: nat)
    requires Valid(t) && op.Mark?
    ensures var t' := Apply(t, op);
            && Valid(t') && t'.nextId == t.nextId
            && RowOf(t', id) == if id == op.id && RowOf(t, id).Some? then Some(AfterMark(RowOf(t, id).value, op.ok, op.error, op.now))
                                else RowOf(t, id)
  {
    var found := IndexOfId(t.rows, op.id);
    if found.Some? {
      UpdateRow(t, found.value, AfterMark(t.rows[found.value], op.ok, op.error, op.now), id);
    }
  }

  lemma ApplyValid<P>(t: Letters<P>, op: Op<P>)
    requires Valid(t)
    ensures Valid(Apply(t, op)) && t.nextId <= Apply(t, op).nextId
  {
    match op
    case Record(key, payload, error, now) => UpsertRow(t, key, payload, error, now, 0);
    case Mark(_, _, _, _) => MarkRow(t, op, 0);
    case Clean(status, olderThan, limit) => CleanupRow(t, CleanupIds(t, status, olderThan, limit), 0);
  }

  /** The operations that take a row out of state `replayed`: its key recorded anew, a failed mark, its clean-up. */
  predicate Reopens<P>(t: Letters<P>, op: Op<P>, id: nat, key: string) {
    match op
    case Record(k, _, _, _) => k == key
    case Mark(marked, ok, _, _) => marked == id && !ok
    case Clean(status, olderThan, limit) => id in CleanupIds(t, status, olderThan, limit)
  }

  predicate IsReplayed<P>(t: Letters<P>, id: nat, key: string) {
    RowOf(t, id).Some? && RowOf(t, id).value.status == Replayed && RowOf(t, id).value.key == key
  }

  /**
   * Exactly which operations end the state `replayed`. A failed mark is among them: it comes from a replay that
   * looked at the row before another one marked it.
   */
  lemma ReplayedUntilReopened<P>(t: Letters<P>, op: Op<P>, id: nat, key: string)
    requires Valid(t) && IsReplayed(t, id, key)
    ensures IsReplayed(Apply(t, op), id, key) <==> !Reopens(t, op, id, key)
    ensures !Reopens(t, op, id, key) && !op.Mark? ==> RowOf(Apply(t, op), id) == RowOf(t, id)
  {
    match op
    case Record(k, payload, error, now) =>
      UpsertRow(t, k, payload, error, now, id);
      KeyOfRow(t, id);
    case Mark(_, _, _, _) => MarkRow(t, op, id);
    case Clean(status, olderThan, limit) => CleanupRow(t, CleanupIds(t, status, olderThan, limit), id);
  }

  /** A stored row is the one its key leads to. */
  lemma KeyOfRow<P>(t: Letters<P>, id: nat)
    requires Valid(t) && RowOf(t, id).Some?
    ensures IndexOfKey(t.rows, RowOf(t, id).value.key) == IndexOfId(t.rows, id)
  {
    var i := IndexOfId(t.rows, id).value;
    var j := IndexOfKey(t.rows, t.rows[i].key).value;
    assert t.rows[j].key == t.rows[i].key;
  }

  // ----- Whole runs -----

  /** The successful marks of `id` during a run. */
  function TotalMarks<P>(t: Letters<P>, ops: seq<Op<P>>, id: nat): nat {
    if ops == [] then 0
    else
      var init := ops[..|ops| - 1];
      TotalMarks(t, init, id) + Marks(Exec(t, init), ops[|ops| - 1], id)
  }

  function CountOf<P>(t: Letters<P>, id: nat): nat {
    if RowOf(t, id).Some? then RowOf(t, id).value.replayCount else 0
  }

  lemma {:induction false} RunValid<P>(t: Letters<P>, ops: seq<Op<P>>)
    requires Valid(t)
    ensures Valid(Exec(t, ops)) && t.nextId <= Exec(t, ops).nextId
  {
    if ops != [] {
      RunValid(t, ops[..|ops| - 1]);
      ApplyValid(Exec(t, ops[..|ops| - 1]), ops[|ops| - 1]);
    }
  }

  lemma CountStep<P>(t: Letters<P>, op: Op<P>, id: nat)
    requires Valid(t)
    ensures RowOf(Apply(t, op), id).Some? && (RowOf(t, id).Some? || id < t.nextId) ==>
            RowOf(t, id).Some? && CountOf(Apply(t, op), id) == CountOf(t, id) + Marks(t, op, id)
    ensures RowOf(Apply(t, op), id).Some? && RowOf(t, id).None? ==> CountOf(Apply(t, op), id) == 0
    ensures RowOf(t, id).None? ==> Marks(t, op, id) == 0
  {
    match op
    case Record(key, payload, error, now) => UpsertRow(t, key, payload, error, now, id);
    case Mark(_, _, _, _) => MarkRow(t, op, id);
    case Clean(status, olderThan, limit) => CleanupRow(t, CleanupIds(t, status, olderThan, limit), id);
  }

  /**
   * In every run, a surviving row's replay count grew by exactly the successful marks it got, overlapping replays
   * included.
   */
  lemma {:induction false} ReplayCountIsExact<P>(t: Letters<P>, ops: seq<Op<P>>, id: nat)
    requires Valid(t)
    ensures RowOf(Exec(t, ops), id).Some? ==> CountOf(Exec(t, ops), id) == CountOf(t, id) + TotalMarks(t, ops, id)
    ensures RowOf(Exec(t, ops), id).None? && Exec(t, ops).nextId <= id ==> CountOf(t, id) == TotalMarks(t, ops, id) == 0
  {
    RunValid(t, ops);
    if ops != [] {
      var init := ops[..|ops| - 1];
      RunValid(t, init);
      ReplayCountIsExact(t, init, id);
      ApplyValid(Exec(t, init), ops[|ops| - 1]);
      CountStep(Exec(t, init), ops[|ops| - 1], id);
      IdsBelowNext(Exec(t, init), id);
    } else {
      IdsBelowNext(t, id);
    }
  }

  lemma IdsBelowNext<P>(t: Letters<P>, id: nat)
    requires Valid(t)
    ensures RowOf(t, id).Some? ==> id < t.nextId
  {
  }

  /** Every row is counted under exactly one of the three statuses. */
  lemma {:induction false} StatusesPartition<P>(rows: seq<Letter<P>>)
    ensures |WithStatus(rows, Some(Pending))| + |WithStatus(rows, Some(Failed))| + |WithStatus(rows, Some(Replayed))|
            == |rows| == |WithStatus(rows, None)|
  {
    if rows != [] {
      StatusesPartition(rows[..|rows| - 1]);
    }
  }

  // ----- Replays and batches, with others at work -----

  ghost predicate NoClean<P>(ops: seq<Op<P>>) {
    forall k | 0 <= k < |ops| :: !ops[k].Clean?
  }

  lemma {:induction false} RowSurvives<P>(t: Letters<P>, ops: seq<Op<P>>, id: nat)
    requires Valid(t) && NoClean(ops) && RowOf(t, id).Some?
    ensures RowOf(Exec(t, ops), id).Some?
  {
    if ops != [] {
      var init, op := ops[..|ops| - 1], ops[|ops| - 1];
      RunValid(t, init);
      RowSurvives(t, init, id);
      match op
      case Record(key, payload, error, now) => UpsertRow(Exec(t, init), key, payload, error, now, id);
      case Mark(_, _, _, _) => MarkRow(Exec(t, init), op, id);
      case Clean(_, _, _) => assert false;
    }
  }

  /** A replay that returns Ok leaves its row in state `replayed`, unless somebody cleaned it up while it ran. */
  lemma ReplayOkMeansReplayed<P>(t: Letters<P>, id: nat, a: Answer<P>, now: int)
    requires Valid(t) && ReplayOne(t, id, a, now).1
    ensures var row := RowOf(ReplayOne(t, id, a, now).0, id);
            && (row.Some? ==> row.value.status == Replayed)
            && (NoClean(a.during) ==> row.Some?)
  {
    var seen := Exec(t, a.before);
    RunValid(t, a.before);
    if RowOf(seen, id).value.status != Replayed {
      RunValid(seen, a.during);
      MarkRow(Exec(seen, a.during), Mark(id, true, a.error, now), id);
      if NoClean(a.during) {
        RowSurvives(seen, a.during, id);
      }
    }
  }

  /** The others neither clean up, nor record the key, nor mark the row as failed. */
  ghost predicate LeavesAlone<P>(ops: seq<Op<P>>, id: nat, key: string) {
    forall k | 0 <= k < |ops| ::
      match ops[k]
      case Record(recorded, _, _, _) => recorded != key
      case Mark(marked, ok, _, _) => marked != id || ok
      case Clean(_, _, _) => false
  }

  lemma {:induction false} StaysReplayed<P>(t: Letters<P>, ops: seq<Op<P>>, id: nat, key: string)
    requires Valid(t) && IsReplayed(t, id, key) && LeavesAlone(ops, id, key)
    ensures IsReplayed(Exec(t, ops), id, key)
  {
    hide IsReplayed;
    if ops != [] {
      var init, op := ops[..|ops| - 1], ops[|ops| - 1];
      RunValid(t, init);
      StaysReplayed(t, init, id, key);
      ReplayedUntilReopened(Exec(t, init), op, id, key);
    }
  }

  lemma ReplayValid<P>(t: Letters<P>, id: nat, a: Answer<P>, now: int)
    requires Valid(t)
    ensures Valid(ReplayOne(t, id, a, now).0)
  {
    var seen := Exec(t, a.before);
    RunValid(t, a.before);
    RunValid(seen, a.during);
    ApplyValid(Exec(seen, a.during), Mark(id, a.handled, a.error, now));
  }

  lemma {:induction false} BatchValid<P>(t: Letters<P>, ids: seq<nat>, answers: seq<Answer<P>>, now: int)
    requires Valid(t) && |answers| == |ids|
    ensures Valid(ReplayAll(t, ids, answers, now))
  {
    if ids != [] {
      var last := |ids| - 1;
      BatchValid(t, ids[..last], answers[..last], now);
      ReplayValid(ReplayAll(t, ids[..last], answers[..last], now), ids[last], answers[last], now);
    }
  }

  /** A replay of any row, the same one included, leaves a replayed row replayed if the others do. */
  lemma ReplayLeaves<P>(t: Letters<P>, replayed: nat, a: Answer<P>, now: int, id: nat, key: string)
    requires Valid(t) && IsReplayed(t, id, key)
    requires LeavesAlone(a.before, id, key) && LeavesAlone(a.during, id, key)
    ensures IsReplayed(ReplayOne(t, replayed, a, now).0, id, key)
  {
    hide LeavesAlone;
    var seen := Exec(t, a.before);
    RunValid(t, a.before);
    StaysReplayed(t, a.before, id, key);
    RunValid(seen, a.during);
    StaysReplayed(seen, a.during, id, key);
    MarkRow(Exec(seen, a.during), Mark(replayed, a.handled, a.error, now), id);
  }

  /**
   * A batch keeps its word: an id it counts as replayed is in state `replayed` when the batch ends, repeated ids and
   * the work of others in between included, if the row was not cleaned up meanwhile and from then on the others
   * neither clean up, nor record its key, nor mark it as failed.
   */
  lemma {:induction false} BatchKeepsItsWord<P>(t: Letters<P>, ids: seq<nat>, answers: seq<Answer<P>>, now: int,
                                                k: nat, key: string)
    requires Valid(t) && |answers| == |ids| && k < |ids|
    requires ReplayOk(t, ids, answers, now, k)
    requires var row := RowOf(ReplayOne(ReplayAll(t, ids[..k], answers[..k], now), ids[k], answers[k], now).0, ids[k]);
             row.Some? && row.value.key == key
    requires forall j | k < j < |ids| :: LeavesAlone(answers[j].before, ids[k], key) && LeavesAlone(answers[j].during, ids[k], key)
    ensures IsReplayed(ReplayAll(t, ids, answers, now), ids[k], key)
  {
    hide Valid, LeavesAlone, ReplayOne, RowOf;
    var last := |ids| - 1;
    BatchValid(t, ids[..last], answers[..last], now);
    if k < last {
      assert ids[..last][..k] == ids[..k] && answers[..last][..k] == answers[..k];
      BatchKeepsItsWord(t, ids[..last], answers[..last], now, k, key);
      ReplayLeaves(ReplayAll(t, ids[..last], answers[..last], now), ids[last], answers[last], now, ids[k], key);
    } else {
      ReplayOkMeansReplayed(ReplayAll(t, ids[..k], answers[..k], now), ids[k], answers[k], now);
    }
  }

  // ----- Dry runs -----

  lemma {:induction false} OlderAppend<P>(a: seq<Letter<P>>, b: seq<Letter<P>>, olderThan: Option<int>)
    ensures Older(a + b, olderThan) == Older(a, olderThan) + Older(b, olderThan)
    decreases |b|
  {
    if b == [] {
      assert a + b == a;
    } else {
      assert (a + b)[..|a + b| - 1] == a + b[..|b| - 1];
      OlderAppend(a, b[..|b| - 1], olderThan);
    }
  }

  lemma {:induction false} WithStatusAscending<P>(rows: seq<Letter<P>>, status: Option<Status>)
    requires Ascending(rows)
    ensures Ascending(WithStatus(rows, status))
  {
    if rows != [] {
      WithStatusAscending(rows[..|rows| - 1], status);
      SelectedBeforeLast(rows, WithStatus(rows[..|rows| - 1], status));
    }
  }

  lemma {:induction false} OlderAscending<P>(rows: seq<Letter<P>>, olderThan: Option<int>)
    requires Ascending(rows)
    ensures Ascending(Older(rows, olderThan))
  {
    if rows != [] {
      OlderAscending(rows[..|rows| - 1], olderThan);
      SelectedBeforeLast(rows, Older(rows[..|rows| - 1], olderThan));
    }
  }

  lemma {:induction false} WithStatusExact<P>(rows: seq<Letter<P>>, status: Option<Status>, row: Letter<P>)
    ensures row in WithStatus(rows, status) <==> row in rows && HasStatus(row, status)
  {
    if rows != [] {
      WithStatusExact(rows[..|rows| - 1], status, row);
      assert row in rows <==> row in rows[..|rows| - 1] || row == rows[|rows| - 1];
    }
  }

  lemma {:induction false} OlderExact<P>(rows: seq<Letter<P>>, olderThan: Option<int>, row: Letter<P>)
    ensures row in Older(rows, olderThan) <==> row in rows && IsOlder(row, olderThan)
  {
    if rows != [] {
      OlderExact(rows[..|rows| - 1], olderThan, row);
      assert row in rows <==> row in rows[..|rows| - 1] || row == rows[|rows| - 1];
    }
  }

  lemma {:induction false} IdsCount<P>(rows: seq<Letter<P>>)
    requires Ascending(rows)
    ensures |Ids(rows)| == |rows|
  {
    if rows != [] {
      var init, last := rows[..|rows| - 1], rows[|rows| - 1];
      IdsCount(init);
      forall id
        ensures id in Ids(rows) <==> id in Ids(init) + {last.id}
      {
        if id in Ids(init) {
          var i :| 0 <= i < |init| && init[i].id == id;
          assert rows[i].id == id;
        }
      }
      assert Ids(rows) == Ids(init) + {last.id};
    }
  }

  function Matching<P>(rows: seq<Letter<P>>, status: Option<Status>, olderThan: Option<int>): seq<Letter<P>> {
    Older(WithStatus(rows, status), olderThan)
  }

  lemma MatchingExact<P>(rows: seq<Letter<P>>, status: Option<Status>, olderThan: Option<int>)
    requires Ascending(rows)
    ensures Ascending(Matching(rows, status, olderThan))
    ensures forall row :: row in Matching(rows, status, olderThan) <==>
              row in rows && HasStatus(row, status) && IsOlder(row, olderThan)
  {
    WithStatusAscending(rows, status);
    OlderAscending(WithStatus(rows, status), olderThan);
    forall row
      ensures row in Matching(rows, status, olderThan) <==> row in rows && HasStatus(row, status) && IsOlder(row, olderThan)
    {
      WithStatusExact(rows, status, row);
      OlderExact(WithStatus(rows, status), olderThan, row);
    }
  }

  lemma FirstOfAscending<P>(rows: seq<Letter<P>>, limit: nat, row: Letter<P>)
    requires Ascending(rows) && row in rows
    ensures row in FirstRows(rows, limit) <==> row.id in Ids(FirstRows(rows, limit))
    ensures row !in FirstRows(rows, limit) ==> forall id | id in Ids(FirstRows(rows, limit)) :: id < row.id
  {
    var first := FirstRows(rows, limit);
    var i :| 0 <= i < |rows| && rows[i] == row;
    assert forall k | 0 <= k < |first| :: first[k] == rows[k];
    assert row in first <== i < |first|;
  }

  /** The row has the status and was last touched before the time, as far as these are given. */
  predicate Due<P>(row: Letter<P>, status: Option<Status>, olderThan: Option<int>) {
    (status.Some? ==> row.status == status.value) && (olderThan.Some? ==> row.updatedAt < olderThan.value)
  }

  function DueIds<P>(t: Letters<P>, status: Option<Status>, olderThan: Option<int>): set<nat> {
    set i | 0 <= i < |t.rows| && Due(t.rows[i], status, olderThan) :: t.rows[i].id
  }

  lemma DueCount<P>(t: Letters<P>, status: Option<Status>, olderThan: Option<int>)
    requires Valid(t)
    ensures |DueIds(t, status, olderThan)| == |Matching(t.rows, status, olderThan)|
  {
    hide Matching, Due, HasStatus, IsOlder;
    var matching := Matching(t.rows, status, olderThan);
    MatchingExact(t.rows, status, olderThan);
    IdsCount(matching);
    DueIs(t, status, olderThan);
    forall id
      ensures id in DueIds(t, status, olderThan) <==> id in Ids(matching)
    {
      if id in DueIds(t, status, olderThan) {
        var i :| 0 <= i < |t.rows| && Due(t.rows[i], status, olderThan) && t.rows[i].id == id;
        assert t.rows[i] in matching;
      }
      if id in Ids(matching) {
        var k :| 0 <= k < |matching| && matching[k].id == id;
        assert matching[k] in matching;
      }
    }
    assert DueIds(t, status, olderThan) == Ids(matching);
  }

  lemma DueIs<P>(t: Letters<P>, status: Option<Status>, olderThan: Option<int>)
    ensures forall row | row in t.rows :: Due(row, status, olderThan) <==> HasStatus(row, status) && IsOlder(row, olderThan)
  {
  }

  /**
   * A clean-up deletes only rows with the status that were last touched before the time, as many of them as the limit
   * allows, but at least one, and none before an older one.
   */
  lemma CleanupExact<P>(t: Letters<P>, status: Option<Status>, olderThan: Option<int>, limit: int, row: Letter<P>)
    requires Valid(t) && row in t.rows
    ensures var gone := CleanupIds(t, status, olderThan, limit);
            var due, most := |DueIds(t, status, olderThan)|, if limit < 1 then 1 else limit;
            && |gone| == (if due <= most then due else most)
            && (row.id in gone ==> Due(row, status, olderThan))
            && (row.id !in gone && Due(row, status, olderThan) ==> |gone| == most && forall id | id in gone :: id < row.id)
  {
    hide WithStatus, Older, HasStatus, IsOlder, Due, DueIds;
    DueCount(t, status, olderThan);
    DueIs(t, status, olderThan);
    var matching := Matching(t.rows, status, olderThan);
    MatchingExact(t.rows, status, olderThan);
    var first := FirstRows(matching, AtLeastOne(limit));
    IdsCount(first);
    if row in matching {
      FirstOfAscending(matching, AtLeastOne(limit), row);
    }
    forall i | 0 <= i < |first| && first[i].id == row.id
      ensures row in matching
    {
      assert first[i] in matching;
      SameIdSameRow(t, first[i], row);
    }
  }

  lemma SameIdSameRow<P>(t: Letters<P>, a: Letter<P>, b: Letter<P>)
    requires Valid(t) && a in t.rows && b in t.rows && a.id == b.id
    ensures a == b
  {
  }

  /** The rows with the status that the dry run's listing cuts off. */
  function CutOff<P>(t: Letters<P>, status: Option<Status>, limit: int): seq<Letter<P>> {
    var rows := WithStatus(t.rows, status);
    rows[..|rows| - |LastRows(rows, AtLeastOne(limit))|]
  }

  /**
   * A dry run announces exactly the rows the cleanup deletes iff no row old enough lies beyond the newest `limit`
   * rows with the status: the listing takes the highest ids, the deletion the lowest.
   */
  lemma DryRunExact<P>(t: Letters<P>, status: Option<Status>, olderThan: Option<int>, limit: int)
    requires Valid(t)
    ensures DryRunIds(t, status, olderThan, limit) == CleanupIds(t, status, olderThan, limit) <==>
            Older(CutOff(t, status, limit), olderThan) == []
  {
    hide Older, WithStatus, Ids, FirstRows;
    var rows := WithStatus(t.rows, status);
    var listed := LastRows(rows, AtLeastOne(limit));
    var cut := CutOff(t, status, limit);
    assert rows == cut + listed;
    OlderAppend(cut, listed, olderThan);
    WithStatusAscending(t.rows, status);
    if Older(cut, olderThan) != [] {
      DisjointIds(cut, listed, olderThan);
    }
    FrontIsDeleted(Older(cut, olderThan), Older(listed, olderThan), AtLeastOne(limit));
  }

  lemma FrontIsDeleted<P>(a: seq<Letter<P>>, b: seq<Letter<P>>, limit: nat)
    requires 1 <= limit && |b| <= limit
    requires a != [] ==> a[0].id !in Ids(b)
    ensures Ids(b) == Ids(FirstRows(a + b, limit)) <==> a == []
  {
    if a == [] {
      assert a + b == b == FirstRows(b, limit);
    } else {
      assert FirstRows(a + b, limit)[0] == a[0];
      assert a[0].id in Ids(FirstRows(a + b, limit));
    }
  }

  lemma DisjointIds<P>(cut: seq<Letter<P>>, listed: seq<Letter<P>>, olderThan: Option<int>)
    requires Ascending(cut + listed) && Older(cut, olderThan) != []
    ensures Older(cut, olderThan)[0].id !in Ids(Older(listed, olderThan))
  {
    var rows := cut + listed;
    var i :| 0 <= i < |cut| && cut[i] == Older(cut, olderThan)[0];
    forall j | 0 <= j < |Older(listed, olderThan)|
      ensures Older(listed, olderThan)[j].id != cut[i].id
    {
      var k :| 0 <= k < |listed| && listed[k] == Older(listed, olderThan)[j];
      assert rows[i].id < rows[|cut| + k].id;
    }
  }
}
