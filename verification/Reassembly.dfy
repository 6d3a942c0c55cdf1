/**
 * Reassembly of long-connection payloads from fragments. The reassembler keeps one entry of slots per message id
 * and drops every expired entry at each push; its specification looks at one id's own fragments only.
 */
module Reassembly {
  import opened Wrappers

  newtype Byte = b: int | 0 <= b < 256

  type Bytes = seq<Byte>

  datatype Fragment = Fragment(id: string, sum: nat, slot: nat, payload: Bytes, now: int)

  datatype Pending = Pending(createdAt: int, parts: seq<Option<Bytes>>)

  type Entries = map<string, Pending>

  /** Fragments that are handed on as they are. */
  predicate PassesThrough(f: Fragment) {
    f.sum == 0 || f.slot >= f.sum
  }

  function EmptySlots(sum: nat): seq<Option<Bytes>> {
    seq(sum, _ => None)
  }

  predicate Complete(parts: seq<Option<Bytes>>) {
    forall i | 0 <= i < |parts| :: parts[i].Some?
  }

  function Merge(parts: seq<Option<Bytes>>): Bytes {
    if parts == [] then []
    else Merge(parts[..|parts| - 1]) + if parts[|parts| - 1].Some? then parts[|parts| - 1].value else []
  }

  function Live(pending: Entries, ttl: int, now: int): Entries {
    map id | id in pending && now - pending[id].createdAt <= ttl :: pending[id]
  }

  function Filling(entry: Option<Pending>, f: Fragment): (r: Pending)
    requires !PassesThrough(f)
    ensures |r.parts| == f.sum
  {
    var kept := if entry.Some? && |entry.value.parts| == f.sum then entry.value else Pending(f.now, EmptySlots(f.sum));
    kept.(parts := kept.parts[f.slot := Some(f.payload)])
  }

  function Entry(pending: Entries, id: string): Option<Pending> {
    if id in pending then Some(pending[id]) else None
  }

  /** One push: the entries afterwards and the payload handed on, if any. */
  function PushAt(pending: Entries, ttl: int, f: Fragment): (Entries, Option<Bytes>) {
    if PassesThrough(f) then (pending, Some(f.payload))
    else
      var live := Live(pending, ttl, f.now);
      var entry := Filling(Entry(live, f.id), f);
      if Complete(entry.parts) then (live - {f.id}, Some(Merge(entry.parts)))
      else (live[f.id := entry], None)
  }

  class LongConnectionPayloadReassembler {
    const ttl: int
    var pending: Entries

    constructor (ttl: int)
      ensures this.ttl == ttl && pending == map[]
    {
      this.ttl := ttl;
      pending := map[];
    }

    method CleanupExpired(now: int)
      modifies this
      ensures pending == Live(old(pending), ttl, now)
    {
      var ids := pending.Keys;
      while ids != {}
        invariant forall id :: id in pending <==> id in old(pending) && (id in ids || now - old(pending)[id].createdAt <= ttl)
        invariant forall id | id in pending :: pending[id] == old(pending)[id]
        invariant ids <= pending.Keys
        decreases ids
      {
        var id :| id in ids;
        if now - pending[id].createdAt > ttl {
          pending := pending - {id};
        }
        ids := ids - {id};
      }
    }

    method Push(f: Fragment) returns (r: Option<Bytes>)
      modifies this
      ensures (pending, r) == PushAt(old(pending), ttl, f)
    {
      if f.sum == 0 || f.slot >= f.sum {
        return Some(f.payload);
      }
      CleanupExpired(f.now);
      var entry := if f.id in pending then pending[f.id] else Pending(f.now, EmptySlots(f.sum));
      if |entry.parts| != f.sum {
        entry := Pending(f.now, EmptySlots(f.sum));
      }
      entry := entry.(parts := entry.parts[f.slot := Some(f.payload)]);
      var i := 0;
      while i < |entry.parts| && entry.parts[i].Some?
        invariant 0 <= i <= |entry.parts|
        invariant forall k | 0 <= k < i :: entry.parts[k].Some?
      {
        i := i + 1;
      }
      if i < |entry.parts| {
        pending := pending[f.id := entry];
        return None;
      }
      pending := pending - {f.id};
      var merged: Bytes := [];
      i := 0;
      while i < |entry.parts|
        invariant 0 <= i <= |entry.parts|
        invariant merged == Merge(entry.parts[..i])
      {
        assert entry.parts[..i + 1][..i] == entry.parts[..i];
        if entry.parts[i].Some? {
          merged := merged + entry.parts[i].value;
        }
        i := i + 1;
      }
      assert entry.parts[..i] == entry.parts;
      return Some(merged);
    }

    /** The reassembling part of `handle_long_connection_data_frame`: absent headers mean one whole payload. */
    method Receive(id: string, sum: Option<nat>, slot: Option<nat>, payload: Bytes, now: int) returns (r: Option<Bytes>)
      modifies this
      ensures sum.None? || sum.value <= 1 ==> pending == old(pending) && r == Some(payload)
      ensures sum.Some? && sum.value > 1 ==>
                (pending, r) == PushAt(old(pending), ttl,
                                       Fragment(id, sum.value, if slot.Some? then slot.value else 0, payload, now))
    {
      var total := if sum.Some? then sum.value else 1;
      if total > 1 {
        r := Push(Fragment(id, total, if slot.Some? then slot.value else 0, payload, now));
      } else {
        r := Some(payload);
      }
    }
  }

  // ----- Runs -----

  /** The entries after a run of pushes. */
  function Exec(ttl: int, run: seq<Fragment>): Entries {
    if run == [] then map[] else PushAt(Exec(ttl, run[..|run| - 1]), ttl, run[|run| - 1]).0
  }

  ghost predicate Ordered(run: seq<Fragment>) {
    forall i, j | 0 <= i < j < |run| :: run[i].now <= run[j].now
  }

  // ----- The specification: one id on its own -----

  /** The fragments gathered for a message since `since`, in the order they came. */
  datatype Group = Group(since: int, sum: nat, log: seq<Fragment>)

  /** The last fragment seen for a slot. */
  function Newest(log: seq<Fragment>, slot: nat): Option<Bytes> {
    if log == [] then None
    else if log[|log| - 1].slot == slot then Some(log[|log| - 1].payload)
    else Newest(log[..|log| - 1], slot)
  }

  predicate Seen(log: seq<Fragment>, slot: nat) {
    exists k | 0 <= k < |log| :: log[k].slot == slot
  }

  ghost predicate Covers(log: seq<Fragment>, sum: nat) {
    forall slot: nat | slot < sum :: Seen(log, slot)
  }

  /** The group a fragment joins: the open one, unless it is too old or counts its slots differently. */
  function Joined(open: Option<Group>, ttl: int, f: Fragment): Group {
    if open.Some? && f.now - open.value.since <= ttl && open.value.sum == f.sum
    then open.value.(log := open.value.log + [f])
    else Group(f.now, f.sum, [f])
  }

  /** The group left open for `id` by a run. Fragments of other ids do not matter. */
  ghost function Open(ttl: int, run: seq<Fragment>, id: string): Option<Group> {
    if run == [] then None
    else
      var open, f := Open(ttl, run[..|run| - 1], id), run[|run| - 1];
      if f.id != id || PassesThrough(f) then open
      else if Covers(Joined(open, ttl, f).log, f.sum) then None
      else Some(Joined(open, ttl, f))
  }

  function Slots(log: seq<Fragment>, sum: nat): seq<Option<Bytes>> {
    seq(sum, i requires 0 <= i < sum => Newest(log, i))
  }

  function EntryOf(g: Group): Pending {
    Pending(g.since, Slots(g.log, g.sum))
  }

  lemma {:induction false} NewestFound(log: seq<Fragment>, slot: nat)
    ensures Newest(log, slot).Some? <==> Seen(log, slot)
    ensures Newest(log, slot).Some? ==>
              exists k | 0 <= k < |log| :: log[k].slot == slot && log[k].payload == Newest(log, slot).value
  {
    if log != [] {
      NewestFound(log[..|log| - 1], slot);
    }
  }

  lemma CompleteIffCovers(log: seq<Fragment>, sum: nat)
    ensures Complete(Slots(log, sum)) <==> Covers(log, sum)
  {
    forall slot: nat | slot < sum
      ensures Slots(log, sum)[slot].Some? <==> Seen(log, slot)
    {
      NewestFound(log, slot);
    }
  }

  /** Filling a slot is appending to the log. */
  lemma FillingAppends(log: seq<Fragment>, f: Fragment)
    requires f.slot < f.sum
    ensures Slots(log, f.sum)[f.slot := Some(f.payload)] == Slots(log + [f], f.sum)
    ensures log == [] ==> Slots(log, f.sum) == EmptySlots(f.sum)
  {
    assert (log + [f])[..|log|] == log;
  }

  /** An entry is the id's open group; without one, the group is closed or too old to be joined again. */
  ghost predicate Agrees(pending: Entries, id: string, open: Option<Group>, ttl: int, now: int) {
    if id in pending then open.Some? && pending[id] == EntryOf(open.value)
    else open.None? || now - open.value.since > ttl
  }

  /** What one push does to its own id. */
  lemma OwnPush(pending: Entries, open: Option<Group>, ttl: int, before: int, f: Fragment)
    requires Agrees(pending, f.id, open, ttl, before) && before <= f.now && !PassesThrough(f)
    ensures var (pending', r) := PushAt(pending, ttl, f);
            var g := Joined(open, ttl, f);
            && Agrees(pending', f.id, if Covers(g.log, f.sum) then None else Some(g), ttl, f.now)
            && r == if Covers(g.log, f.sum) then Some(Merge(Slots(g.log, f.sum))) else None
  {
    hide Covers, Slots, Complete;
    var g := Joined(open, ttl, f);
    CompleteIffCovers(g.log, f.sum);
    var live := Live(pending, ttl, f.now);
    if f.id in live {
      SlotsLength(open.value.log, open.value.sum);
    }
    if g.log == [f] {
      FillingAppends([], f);
      assert [] + [f] == [f];
    }
    if open.Some? {
      FillingAppends(open.value.log, f);
    }
    assert Filling(Entry(live, f.id), f) == EntryOf(g);
  }

  lemma SlotsLength(log: seq<Fragment>, sum: nat)
    ensures |Slots(log, sum)| == sum
  {
  }

  lemma OtherPush(pending: Entries, open: Option<Group>, ttl: int, before: int, f: Fragment, id: string)
    requires Agrees(pending, id, open, ttl, before) && before <= f.now && (id != f.id || PassesThrough(f))
    ensures Agrees(PushAt(pending, ttl, f).0, id, open, ttl, f.now)
  {
    hide Filling, Complete, Merge;
  }

  /**
   * The reassembler refines its specification: after every run it holds, for each id, the fragments that the id's
   * own pushes left open, however the pushes of other ids and the expiry they cause are interleaved.
   */
  lemma {:induction false} RunAgrees(ttl: int, run: seq<Fragment>, id: string)
    requires Ordered(run)
    ensures Agrees(Exec(ttl, run), id, Open(ttl, run, id), ttl, if run == [] then 0 else run[|run| - 1].now)
  {
    hide PushAt, Joined, Covers;
    if run != [] {
      var init, f := run[..|run| - 1], run[|run| - 1];
      RunAgrees(ttl, init, id);
      var before := if init == [] then f.now else init[|init| - 1].now;
      if f.id == id && !PassesThrough(f) {
        OwnPush(Exec(ttl, init), Open(ttl, init, id), ttl, before, f);
      } else {
        OtherPush(Exec(ttl, init), Open(ttl, init, id), ttl, before, f, id);
      }
    }
  }

  /** What a push answers after a run: the merged payload iff it fills the last missing slot of its group. */
  lemma AnswerExact(ttl: int, run: seq<Fragment>, f: Fragment)
    requires Ordered(run + [f]) && !PassesThrough(f)
    ensures var g := Joined(Open(ttl, run, f.id), ttl, f);
            PushAt(Exec(ttl, run), ttl, f).1 == if Covers(g.log, g.sum) then Some(Merge(Slots(g.log, g.sum))) else None
  {
    hide PushAt, Covers;
    assert forall i | 0 <= i < |run| :: (run + [f])[i] == run[i];
    assert (run + [f])[|run|] == f;
    RunAgrees(ttl, run, f.id);
    OwnPush(Exec(ttl, run), Open(ttl, run, f.id), ttl, if run == [] then f.now else run[|run| - 1].now, f);
  }

  // ----- Other ids do not matter -----

  function Of(run: seq<Fragment>, id: string): seq<Fragment> {
    if run == [] then []
    else Of(run[..|run| - 1], id) +
         if run[|run| - 1].id == id && !PassesThrough(run[|run| - 1]) then [run[|run| - 1]] else []
  }

  lemma {:induction false} OpenOfOwn(ttl: int, run: seq<Fragment>, id: string)
    ensures Open(ttl, run, id) == Open(ttl, Of(run, id), id)
  {
    hide Joined, Covers;
    if run != [] {
      var init, f := run[..|run| - 1], run[|run| - 1];
      OpenOfOwn(ttl, init, id);
      if f.id == id && !PassesThrough(f) {
        assert Of(run, id)[..|Of(run, id)| - 1] == Of(init, id);
      } else {
        assert Of(run, id) == Of(init, id);
      }
    }
  }

  /** Two runs with the same fragments of an id answer its next push alike, whatever else they hold. */
  lemma OtherIdsDoNotMatter(ttl: int, a: seq<Fragment>, b: seq<Fragment>, f: Fragment)
    requires Ordered(a + [f]) && Ordered(b + [f]) && Of(a, f.id) == Of(b, f.id)
    ensures PushAt(Exec(ttl, a), ttl, f).1 == PushAt(Exec(ttl, b), ttl, f).1
  {
    hide Ordered, Exec, Open, Joined, Covers, Merge, Complete;
    if !PassesThrough(f) {
      AnswerExact(ttl, a, f);
      AnswerExact(ttl, b, f);
      OpenOfOwn(ttl, a, f.id);
      OpenOfOwn(ttl, b, f.id);
    }
  }

  // ----- One split of one payload -----

  function Concat(chunks: seq<Bytes>): Bytes {
    if chunks == [] then [] else Concat(chunks[..|chunks| - 1]) + chunks[|chunks| - 1]
  }

  /** Every fragment of `id` is a chunk of the split, in its place. */
  ghost predicate FromSplit(fragments: seq<Fragment>, id: string, chunks: seq<Bytes>) {
    forall k | 0 <= k < |fragments| && fragments[k].id == id ::
      fragments[k].sum == |chunks| && fragments[k].slot < |chunks| && fragments[k].payload == chunks[fragments[k].slot]
  }

  lemma {:induction false} OpenFromSplit(ttl: int, run: seq<Fragment>, id: string, chunks: seq<Bytes>)
    requires FromSplit(run, id, chunks)
    ensures var g := Open(ttl, run, id);
            g.Some? ==> g.value.sum == |chunks| && forall k | 0 <= k < |g.value.log| ::
              g.value.log[k].slot < |chunks| && g.value.log[k].payload == chunks[g.value.log[k].slot]
  {
    hide Covers;
    if run != [] {
      OpenFromSplit(ttl, run[..|run| - 1], id, chunks);
    }
  }

  lemma {:induction false} MergeIsConcat(parts: seq<Option<Bytes>>, chunks: seq<Bytes>)
    requires |parts| == |chunks| && forall i | 0 <= i < |parts| :: parts[i] == Some(chunks[i])
    ensures Merge(parts) == Concat(chunks)
  {
    if parts != [] {
      MergeIsConcat(parts[..|parts| - 1], chunks[..|chunks| - 1]);
    }
  }

  /**
   * Reassembly is correct: if an id's fragments come from one split of a payload, in any order, repeated, late or
   * mixed with other messages, then whatever a push for it hands on is that payload.
   */
  lemma MergedIsPayload(ttl: int, run: seq<Fragment>, f: Fragment, chunks: seq<Bytes>)
    requires Ordered(run + [f]) && FromSplit(run + [f], f.id, chunks)
    ensures var r := PushAt(Exec(ttl, run), ttl, f).1; r.Some? ==> r.value == Concat(chunks)
  {
    hide PushAt, Exec;
    assert (run + [f])[|run|] == f;
    assert forall k | 0 <= k < |run| :: (run + [f])[k] == run[k];
    OpenFromSplit(ttl, run, f.id, chunks);
    AnswerExact(ttl, run, f);
    var g := Joined(Open(ttl, run, f.id), ttl, f);
    if Covers(g.log, g.sum) {
      forall i | 0 <= i < |chunks|
        ensures Slots(g.log, g.sum)[i] == Some(chunks[i])
      {
        assert Seen(g.log, i);
        NewestFound(g.log, i);
      }
      MergeIsConcat(Slots(g.log, g.sum), chunks);
    }
  }

  // ----- When the payload appears -----

  /** From `run[from]` on, the id's fragments count `sum` slots and come within the lifetime of the first. */
  ghost predicate InTime(ttl: int, run: seq<Fragment>, from: nat, id: string, sum: nat)
    requires from < |run|
  {
    && run[from].id == id && !PassesThrough(run[from])
    && forall k | from <= k < |run| && run[k].id == id :: run[k].sum == sum && run[k].now - run[from].now <= ttl
  }

  lemma OfTail(run: seq<Fragment>, from: nat, id: string)
    requires from < |run|
    ensures var f := run[|run| - 1];
            Of(run[from..], id) == if f.id == id && !PassesThrough(f) then Of(run[..|run| - 1][from..], id) + [f]
                                   else Of(run[..|run| - 1][from..], id)
  {
    assert run[from..][..|run[from..]| - 1] == run[..|run| - 1][from..];
  }

  lemma {:induction false} GroupGrows(ttl: int, run: seq<Fragment>, from: nat, id: string, sum: nat)
    requires from < |run| && InTime(ttl, run, from, id, sum) && Open(ttl, run[..from], id).None?
    requires Ordered(run)
    requires !Covers(Of(run[from..], id), sum)
    ensures Open(ttl, run, id) == Some(Group(run[from].now, sum, Of(run[from..], id)))
    decreases |run|
  {
    hide Covers, Of;
    var init, f := run[..|run| - 1], run[|run| - 1];
    OfTail(run, from, id);
    if from == |init| {
      assert init == run[..from] && init[from..] == [];
      OfNothing(id);
      assert [] + [f] == [f];
    } else {
      assert init[..from] == run[..from] && init[from] == run[from];
      FewerCoverLess(Of(init[from..], id), Of(run[from..], id), sum);
      GroupGrows(ttl, init, from, id, sum);
    }
  }

  lemma OfNothing(id: string)
    ensures Of([], id) == []
  {
  }

  lemma FewerCoverLess(a: seq<Fragment>, b: seq<Fragment>, sum: nat)
    requires a <= b
    ensures Covers(a, sum) ==> Covers(b, sum)
  {
    if Covers(a, sum) {
      forall slot: nat | slot < sum
        ensures Seen(b, slot)
      {
        assert Seen(a, slot);
        var k :| 0 <= k < |a| && a[k].slot == slot;
        assert b[k].slot == slot;
      }
    }
  }

  /**
   * The payload appears exactly when it is complete: starting from no open group, pushes within the lifetime of the
   * first stay unanswered as long as some slot was not seen, and the one that shows the last slot is answered.
   */
  lemma AppearsWhenComplete(ttl: int, run: seq<Fragment>, from: nat, f: Fragment, sum: nat)
    requires from <= |run| && Ordered(run + [f]) && !PassesThrough(f)
    requires InTime(ttl, run + [f], from, f.id, sum) && Open(ttl, run[..from], f.id).None?
    requires from < |run| ==> !Covers(Of(run[from..], f.id), sum)
    ensures PushAt(Exec(ttl, run), ttl, f).1.Some? <==> Covers(Of((run + [f])[from..], f.id), sum)
  {
    hide PushAt, Exec, Covers, Merge, Slots;
    var all := run + [f];
    assert all[|run|] == f;
    AnswerExact(ttl, run, f);
    assert all[from..][..|all[from..]| - 1] == run[from..];
    if from == |run| {
      assert run[..from] == run;
      assert all[from..] == [f] && Of(run[from..], f.id) == [];
      assert Of(all[from..], f.id) == [f];
    } else {
      assert forall k | 0 <= k < |run| :: all[k] == run[k];
      GroupGrows(ttl, run, from, f.id, sum);
      assert Of(all[from..], f.id) == Of(run[from..], f.id) + [f];
    }
  }

  // ----- Accounting -----

  function Filled(parts: seq<Option<Bytes>>): nat {
    if parts == [] then 0 else Filled(parts[..|parts| - 1]) + if parts[|parts| - 1].Some? then 1 else 0
  }

  lemma {:induction false} FilledBounds(parts: seq<Option<Bytes>>)
    ensures Filled(parts) <= |parts|
    ensures Complete(parts) <==> Filled(parts) == |parts|
  {
    if parts != [] {
      FilledBounds(parts[..|parts| - 1]);
    }
  }

  lemma {:induction false} FilledUpdate(parts: seq<Option<Bytes>>, i: nat, bytes: Bytes)
    requires i < |parts|
    ensures Filled(parts[i := Some(bytes)]) <= Filled(parts) + 1
    decreases |parts|
  {
    var init := parts[..|parts| - 1];
    var parts' := parts[i := Some(bytes)];
    if i == |parts| - 1 {
      assert parts'[..|parts| - 1] == init;
    } else {
      assert parts'[..|parts| - 1] == init[i := Some(bytes)];
      FilledUpdate(init, i, bytes);
    }
  }

  lemma {:induction false} FilledEmpty(sum: nat)
    ensures Filled(EmptySlots(sum)) == 0
  {
    if sum > 0 {
      assert EmptySlots(sum)[..sum - 1] == EmptySlots(sum - 1);
      FilledEmpty(sum - 1);
    }
  }

  /** Every pending entry has a slot that is still empty. */
  ghost predicate HasGaps(pending: Entries) {
    forall id | id in pending :: !Complete(pending[id].parts)
  }

  function FilledOf(pending: Entries, id: string): nat {
    if id in pending then Filled(pending[id].parts) else 0
  }

  /** The slots consumed by the payloads merged for `id`: the sum of each merging push. */
  function MergedSlots(ttl: int, run: seq<Fragment>, id: string): nat {
    if run == [] then 0
    else
      var init, f := run[..|run| - 1], run[|run| - 1];
      MergedSlots(ttl, init, id) +
      if f.id == id && !PassesThrough(f) && PushAt(Exec(ttl, init), ttl, f).1.Some? then f.sum else 0
  }

  lemma PushAccounts(pending: Entries, ttl: int, f: Fragment, id: string)
    requires HasGaps(pending)
    ensures var (pending', r) := PushAt(pending, ttl, f);
            var own := f.id == id && !PassesThrough(f);
            && HasGaps(pending')
            && (own && r.Some? ==> id !in pending' && f.sum <= FilledOf(pending, id) + 1)
            && FilledOf(pending', id) <= FilledOf(pending, id) + if own then 1 else 0
  {
    if !PassesThrough(f) {
      var live := Live(pending, ttl, f.now);
      var entry := Filling(Entry(live, f.id), f);
      FilledBounds(entry.parts);
      FilledEmpty(f.sum);
      FilledUpdate(EmptySlots(f.sum), f.slot, f.payload);
      if f.id in live && |live[f.id].parts| == f.sum {
        FilledUpdate(live[f.id].parts, f.slot, f.payload);
      }
    }
  }

  /**
   * No fragment counts twice: over every run, expiry, restarts and changing sums included, the slots of all
   * payloads merged for an id and its slots now filled are at most the fragments pushed for it; and no entry is
   * ever kept without a gap.
   */
  lemma {:induction false} FragmentsAccounted(ttl: int, run: seq<Fragment>, id: string)
    ensures HasGaps(Exec(ttl, run))
    ensures MergedSlots(ttl, run, id) + FilledOf(Exec(ttl, run), id) <= |Of(run, id)|
  {
    hide PushAt, HasGaps;
    if run == [] {
      NoGaps();
    } else {
      FragmentsAccounted(ttl, run[..|run| - 1], id);
      PushAccounts(Exec(ttl, run[..|run| - 1]), ttl, run[|run| - 1], id);
    }
  }

  lemma NoGaps()
    ensures HasGaps(map[])
  {
  }
}
