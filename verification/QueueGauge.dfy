/**
 * The queue-depth gauge and its lock-free running maximum, as interleaved atomic steps of any number of calls.
 * All accesses are relaxed: a load, and a compare-exchange that fails, may return any value the variable held since
 * the one this call saw last; only a compare-exchange that succeeds, or a fetch-add, acts on the latest value.
 */
module QueueGauge {
  /**
   * A call to `begin_queue_task` and the guard it returns. `Comparing` has seen `maxima[at]` and failed `tries`
   * compare-exchanges; `Dropping` has read `seen` from the depth.
   */
  datatype Call = Added(current: nat) | Comparing(current: nat, at: nat, tries: nat) | Held | Dropping(seen: nat)

  /** `depths` and `maxima` are the values of the two variables in modification order. */
  datatype State = State(depths: seq<nat>, maxima: seq<nat>, calls: map<nat, Call>)

  const INIT := State([0], [0], map[])

  function Last(values: seq<nat>): nat
    requires values != []
  {
    values[|values| - 1]
  }

  datatype Step =
    | Add(call: nat)
    | Load(call: nat, at: nat)
    | Compare(call: nat, at: nat)
    | Settle(call: nat)
    | Drop(call: nat, at: nat)
    | Subtract(call: nat)
    | Retry(call: nat, at: nat)

  /** The steps a call can take. A failed compare-exchange reads a value other than the one it expected. */
  predicate Enabled(s: State, step: Step)
    requires s.depths != [] && s.maxima != []
  {
    if step.Add? then step.call !in s.calls else
    step.call in s.calls &&
    var call := s.calls[step.call];
    match step
    case Add(_) => false
    case Load(_, at) => call.Added? && at < |s.maxima|
    case Compare(_, at) =>
      && call.Comparing? && call.at < |s.maxima| && call.current > s.maxima[call.at]
      && (s.maxima[call.at] != Last(s.maxima) ==>
            call.at <= at < |s.maxima| && s.maxima[at] != s.maxima[call.at])
    case Settle(_) => call.Comparing? && call.at < |s.maxima| && call.current <= s.maxima[call.at]
    case Drop(_, at) => call.Held? && at < |s.depths|
    case Subtract(_) => call.Dropping? && call.seen == Last(s.depths)
    case Retry(_, at) => call.Dropping? && at < |s.depths|
  }

  function SaturatingSub(value: nat): nat {
    if value == 0 then 0 else value - 1
  }

  function Next(s: State, step: Step): (r: State)
    requires s.depths != [] && s.maxima != [] && Enabled(s, step)
    ensures r.depths != [] && r.maxima != []
  {
    match step
    case Add(call) =>
      var current := Last(s.depths) + 1;
      s.(depths := s.depths + [current], calls := s.calls[call := Added(current)])
    case Load(call, at) => s.(calls := s.calls[call := Comparing(s.calls[call].current, at, 0)])
    case Compare(call, at) =>
      var c := s.calls[call];
      if s.maxima[c.at] == Last(s.maxima) then s.(maxima := s.maxima + [c.current], calls := s.calls[call := Held])
      else s.(calls := s.calls[call := Comparing(c.current, at, c.tries + 1)])
    case Settle(call) => s.(calls := s.calls[call := Held])
    case Drop(call, at) => s.(calls := s.calls[call := Dropping(s.depths[at])])
    case Subtract(call) => s.(depths := s.depths + [SaturatingSub(s.calls[call].seen)], calls := s.calls - {call})
    case Retry(call, at) => s.(calls := s.calls[call := Dropping(s.depths[at])])
  }

  // ----- The invariant -----

  predicate Beginning(call: Call) {
    call.Added? || call.Comparing?
  }

  /** No call is between its fetch-add and its return. */
  ghost predicate NoneBeginning(s: State) {
    forall c | c in s.calls :: !Beginning(s.calls[c])
  }

  /** The historical peak: the largest depth there ever was. */
  function Peak(depths: seq<nat>): (peak: nat)
    requires depths != []
    ensures forall i | 0 <= i < |depths| :: depths[i] <= peak
    ensures exists i | 0 <= i < |depths| :: depths[i] == peak
  {
    if |depths| == 1 then
      assert depths[0] == depths[0];
      depths[0]
    else
      var peak := Peak(depths[..|depths| - 1]);
      if Last(depths) <= peak then
        assert exists i | 0 <= i < |depths| - 1 :: depths[i] == peak;
        peak
      else
        assert depths[|depths| - 1] == Last(depths);
        Last(depths)
  }

  ghost predicate Rising(values: seq<nat>) {
    forall i, j | 0 <= i < j < |values| :: values[i] < values[j]
  }

  ghost predicate CallOk(s: State, call: Call)
    requires s.depths != []
  {
    match call
    case Added(current) => current <= Peak(s.depths)
    case Comparing(current, at, tries) => current <= Peak(s.depths) && at < |s.maxima| && tries <= s.maxima[at]
    case Held => true
    case Dropping(_) => true
  }

  ghost predicate CallsOk(s: State)
    requires s.depths != []
  {
    forall c | c in s.calls :: CallOk(s, s.calls[c])
  }

  /** A call on its way to raise the maximum to the peak. */
  predicate Carries(call: Call, peak: nat) {
    Beginning(call) && call.current == peak
  }

  ghost predicate PeakCovered(calls: map<nat, Call>, max: nat, peak: nat) {
    max == peak || exists c | c in calls :: Carries(calls[c], peak)
  }

  ghost predicate Invariant(s: State) {
    && s.depths != [] && s.maxima != []
    && Rising(s.maxima)
    && Last(s.depths) == |s.calls|
    && Last(s.maxima) <= Peak(s.depths)
    && CallsOk(s)
    && PeakCovered(s.calls, Last(s.maxima), Peak(s.depths))
  }

  lemma PeakAppend(depths: seq<nat>, depth: nat)
    requires depths != []
    ensures Peak(depths + [depth]) == if depth <= Peak(depths) then Peak(depths) else depth
  {
    assert (depths + [depth])[..|depths|] == depths;
  }

  lemma CallAdded(calls: map<nat, Call>, c: nat, call: Call)
    ensures c !in calls ==> |calls[c := call]| == |calls| + 1
    ensures c in calls ==> |calls[c := call]| == |calls| && |calls - {c}| == |calls| - 1
  {
    assert calls[c := call].Keys == calls.Keys + {c};
    if c in calls {
      assert calls.Keys + {c} == calls.Keys;
      assert (calls - {c}).Keys == calls.Keys - {c};
    }
  }

  /** The peak stays covered when the call that changes did not carry it, or carries it still. */
  lemma StaysCovered(calls: map<nat, Call>, calls': map<nat, Call>, c: nat, max: nat, peak: nat)
    requires PeakCovered(calls, max, peak)
    requires forall d | d in calls && d != c :: d in calls' && calls'[d] == calls[d]
    requires c in calls && Carries(calls[c], peak) ==> max == peak || (c in calls' && Carries(calls'[c], peak))
    ensures PeakCovered(calls', max, peak)
  {
    if max != peak {
      var d :| d in calls && Carries(calls[d], peak);
      assert d in calls' && Carries(calls'[d], peak);
    }
  }

  lemma AddKeeps(s: State, step: Step)
    requires Invariant(s) && step.Add? && Enabled(s, step)
    ensures Invariant(Next(s, step))
  {
    hide Peak, PeakCovered, Carries;
    var s' := Next(s, step);
    CallAdded(s.calls, step.call, s'.calls[step.call]);
    PeakAppend(s.depths, Last(s'.depths));
    forall c | c in s'.calls
      ensures CallOk(s', s'.calls[c])
    {
      assert c != step.call ==> CallOk(s, s.calls[c]);
    }
    if Last(s'.depths) > Peak(s.depths) {
      AddedCovers(s'.calls, step.call, Last(s'.maxima), Last(s'.depths));
    } else {
      StaysCovered(s.calls, s'.calls, step.call, Last(s.maxima), Peak(s.depths));
    }
  }

  lemma AddedCovers(calls: map<nat, Call>, c: nat, max: nat, current: nat)
    requires c in calls && calls[c] == Added(current)
    ensures PeakCovered(calls, max, current)
  {
    assert Carries(calls[c], current);
  }

  /** A call may move on unless it gives up carrying a peak that the maximum has not reached. */
  lemma ChangeCall(s: State, c: nat, call: Call)
    requires Invariant(s) && c in s.calls && CallOk(s, call)
    requires Carries(s.calls[c], Peak(s.depths)) ==> Last(s.maxima) == Peak(s.depths) || Carries(call, Peak(s.depths))
    ensures Invariant(s.(calls := s.calls[c := call]))
  {
    hide Peak, PeakCovered, Carries;
    var s' := s.(calls := s.calls[c := call]);
    CallAdded(s.calls, c, call);
    forall d | d in s'.calls
      ensures CallOk(s', s'.calls[d])
    {
      assert d != c ==> CallOk(s, s.calls[d]);
    }
    StaysCovered(s.calls, s'.calls, c, Last(s.maxima), Peak(s.depths));
  }

  lemma SubtractKeeps(s: State, step: Step)
    requires Invariant(s) && step.Subtract? && Enabled(s, step)
    ensures Invariant(Next(s, step))
    ensures Last(Next(s, step).depths) == Last(s.depths) - 1
  {
    hide PeakCovered;
    var s' := Next(s, step);
    CallAdded(s.calls, step.call, Held);
    PeakAppend(s.depths, Last(s'.depths));
    assert Last(s.depths) <= Peak(s.depths);
    hide Peak;
    forall c | c in s'.calls
      ensures CallOk(s', s'.calls[c])
    {
      assert CallOk(s, s.calls[c]);
    }
    StaysCovered(s.calls, s'.calls, step.call, Last(s.maxima), Peak(s.depths));
  }

  /** The maximum only rises, so whatever a call has seen of it is at most the latest value. */
  lemma SeenIsPast(values: seq<nat>, i: nat, j: nat)
    requires Rising(values) && i < |values| && j < |values|
    ensures values[i] <= Last(values)
    ensures i <= j && values[i] != values[j] ==> values[i] < values[j]
  {
  }

  /** A new maximum, not above the peak. */
  lemma RaiseKeeps(s: State, max: nat)
    requires Invariant(s) && Last(s.maxima) < max <= Peak(s.depths)
    ensures Invariant(s.(maxima := s.maxima + [max]))
  {
    hide Peak;
    var s' := s.(maxima := s.maxima + [max]);
    forall c | c in s'.calls
      ensures CallOk(s', s'.calls[c])
    {
      assert CallOk(s, s.calls[c]);
    }
    forall i, j | 0 <= i < j < |s'.maxima|
      ensures s'.maxima[i] < s'.maxima[j]
    {
      SeenIsPast(s.maxima, i, 0);
    }
  }

  lemma CompareKeeps(s: State, step: Step)
    requires Invariant(s) && (step.Compare? || step.Settle?) && Enabled(s, step)
    ensures Invariant(Next(s, step))
  {
    hide Peak, PeakCovered, Rising;
    var call := s.calls[step.call];
    assert CallOk(s, call);
    SeenIsPast(s.maxima, call.at, if step.Compare? && step.at < |s.maxima| then step.at else 0);
    if step.Settle? {
      ChangeCall(s, step.call, Held);
    } else if s.maxima[call.at] == Last(s.maxima) {
      RaiseKeeps(s, call.current);
      ChangeCall(s.(maxima := s.maxima + [call.current]), step.call, Held);
    } else {
      ChangeCall(s, step.call, Comparing(call.current, step.at, call.tries + 1));
    }
  }

  lemma LoadKeeps(s: State, step: Step)
    requires Invariant(s) && step.Load? && Enabled(s, step)
    ensures Invariant(Next(s, step))
  {
    hide Peak, PeakCovered, Rising;
    assert CallOk(s, s.calls[step.call]);
    ChangeCall(s, step.call, Comparing(s.calls[step.call].current, step.at, 0));
  }

  lemma NextInvariant(s: State, step: Step)
    requires Invariant(s) && Enabled(s, step)
    ensures Invariant(Next(s, step))
  {
    hide Peak, PeakCovered, Rising;
    match step
    case Add(_) => AddKeeps(s, step);
    case Load(_, _) => LoadKeeps(s, step);
    case Compare(_, _) => CompareKeeps(s, step);
    case Settle(_) => CompareKeeps(s, step);
    case Drop(c, at) => ChangeCall(s, c, Dropping(s.depths[at]));
    case Subtract(_) => SubtractKeeps(s, step);
    case Retry(c, at) => ChangeCall(s, c, Dropping(s.depths[at]));
  }

  // ----- Every interleaving -----

  /** The state after an interleaving of steps; a step that is not enabled does not happen. */
  ghost function Exec(steps: seq<Step>): (s: State)
    ensures s.depths != [] && s.maxima != []
  {
    if steps == [] then INIT
    else
      var before, step := Exec(steps[..|steps| - 1]), steps[|steps| - 1];
      if Enabled(before, step) then Next(before, step) else before
  }

  lemma {:induction false} RunInvariant(steps: seq<Step>)
    ensures Invariant(Exec(steps))
  {
    hide Next, Enabled, Invariant;
    if steps == [] {
      InitInvariant();
    } else {
      var before, step := Exec(steps[..|steps| - 1]), steps[|steps| - 1];
      RunInvariant(steps[..|steps| - 1]);
      if Enabled(before, step) {
        NextInvariant(before, step);
      }
    }
  }

  lemma InitInvariant()
    ensures Invariant(INIT)
  {
  }

  /**
   * In every interleaving the depth is the number of live guards, so the saturating subtraction never saturates;
   * the maximum never exceeds the historical peak and equals it whenever no call is beginning.
   */
  lemma {:induction false} GaugeExact(steps: seq<Step>)
    ensures var s := Exec(steps);
            && Last(s.depths) == |s.calls|
            && Last(s.maxima) <= Peak(s.depths)
            && (NoneBeginning(s) ==> Last(s.maxima) == Peak(s.depths))
            && (forall step: Step | step.Subtract? && Enabled(s, step) ::
                  Last(Next(s, step).depths) == Last(s.depths) - 1)
  {
    hide Next, Enabled, Exec;
    var s := Exec(steps);
    RunInvariant(steps);
    forall step: Step | step.Subtract? && Enabled(s, step)
      ensures Last(Next(s, step).depths) == Last(s.depths) - 1
    {
      SubtractKeeps(s, step);
    }
  }

  lemma NextExtends(s: State, step: Step)
    requires Invariant(s) && Enabled(s, step)
    ensures s.maxima <= Next(s, step).maxima
  {
  }

  lemma LastOfPrefix(a: seq<nat>, b: seq<nat>)
    requires Rising(b) && a <= b && a != []
    ensures Last(a) <= Last(b)
  {
    SeenIsPast(b, |a| - 1, 0);
  }

  lemma InvariantMaxima(s: State)
    requires Invariant(s)
    ensures s.depths != [] && s.maxima != [] && Rising(s.maxima)
  {
  }

  /** No interleaving lowers the maximum: the values it held before stay a prefix of those it held. */
  lemma {:induction false} MaximumNeverFalls(steps: seq<Step>, k: nat)
    requires k <= |steps|
    ensures Exec(steps[..k]).maxima <= Exec(steps).maxima
    ensures Last(Exec(steps[..k]).maxima) <= Last(Exec(steps).maxima)
  {
    hide Next, Invariant, Enabled, Rising, Last;
    if k == |steps| {
      assert steps[..k] == steps;
    } else {
      var init := steps[..|steps| - 1];
      assert init[..k] == steps[..k];
      MaximumNeverFalls(init, k);
      RunInvariant(init);
      if Enabled(Exec(init), steps[|steps| - 1]) {
        NextExtends(Exec(init), steps[|steps| - 1]);
      }
    }
    RunInvariant(steps);
    InvariantMaxima(Exec(steps));
    LastOfPrefix(Exec(steps[..k]).maxima, Exec(steps).maxima);
  }

  /**
   * The compare-exchange loop ends: each attempt either leaves it or brings the value seen strictly closer to
   * `current`, so a call makes at most as many attempts as the depth it announced, however others interfere.
   */
  lemma {:induction false} CompareLoopEnds(steps: seq<Step>, step: Step)
    requires step.Compare? && Enabled(Exec(steps), step)
    ensures var s := Exec(steps);
            var call, call' := s.calls[step.call], Next(s, step).calls[step.call];
            && call.tries < call.current
            && (call'.Held? || (&& call'.Comparing? && call'.current == call.current && call'.at < |s.maxima|
                                && call'.tries == call.tries + 1
                                && s.maxima[call.at] < s.maxima[call'.at]))
  {
    var s := Exec(steps);
    RunInvariant(steps);
    assert CallOk(s, s.calls[step.call]);
    SeenIsPast(s.maxima, s.calls[step.call].at, if step.at < |s.maxima| then step.at else 0);
  }

  // ----- One call among rivals -----

  function Max(a: nat, b: nat): nat {
    if a < b then b else a
  }

  function Raised(max: nat, rivals: seq<nat>): nat {
    if rivals == [] then max else Max(Raised(max, rivals[..|rivals| - 1]), rivals[|rivals| - 1])
  }

  class Metrics {
    var queueDepth: nat
    var queueDepthMax: nat

    constructor ()
      ensures queueDepth == 0 && queueDepthMax == 0
    {
      queueDepth, queueDepthMax := 0, 0;
    }

    /**
     * `begin_queue_task`, where `loaded` is what the first load returns, `rivals[k]` the value others raise the
     * maximum to before the k-th compare-exchange, and `answers[k]` what that compare-exchange returns if it fails and
     * the value is newer than the one seen. The maximum ends as the largest of all values offered.
     */
    method BeginQueueTask(loaded: nat, rivals: seq<nat>, answers: seq<nat>) returns (attempts: nat)
      requires loaded <= queueDepthMax
      modifies this
      ensures queueDepth == old(queueDepth) + 1
      ensures attempts + loaded <= Max(queueDepth, loaded)
      ensures queueDepthMax == Max(Raised(old(queueDepthMax), rivals[..if attempts < |rivals| then attempts else |rivals|]),
                                   queueDepth)
    {
      queueDepth := queueDepth + 1;
      var current := queueDepth;
      var maxSeen := loaded;
      attempts := 0;
      while current > maxSeen
        invariant queueDepth == current == old(queueDepth) + 1
        invariant attempts + loaded <= maxSeen <= queueDepthMax && attempts + loaded <= Max(current, loaded)
        invariant queueDepthMax == Raised(old(queueDepthMax), rivals[..if attempts < |rivals| then attempts else |rivals|])
        decreases current - maxSeen
      {
        if attempts < |rivals| {
          assert rivals[..attempts + 1][..attempts] == rivals[..attempts];
          queueDepthMax := Max(queueDepthMax, rivals[attempts]);
          assert queueDepthMax == Raised(old(queueDepthMax), rivals[..attempts + 1]);
        }
        attempts := attempts + 1;
        if queueDepthMax == maxSeen {
          queueDepthMax := current;
          return;
        }
        maxSeen := if attempts <= |answers| && maxSeen < answers[attempts - 1] <= queueDepthMax then answers[attempts - 1]
                   else queueDepthMax;
      }
    }

    /**
     * `end_queue_task`: `fetch_update` loads a value and retries a weak compare-exchange until it succeeds. `loaded` is
     * what the load returns; before the k-th attempt others leave the depth at `rivals[k].depth`, which counts this
     * guard and so is not 0; the attempt may fail for no reason, and then returns any value the depth may have had.
     * One is
     * taken off what the others left, once.
     */
    method EndQueueTask(loaded: nat, rivals: seq<Rival>) returns (attempts: nat)
      requires queueDepth > 0 && forall k | 0 <= k < |rivals| :: rivals[k].depth > 0
      modifies this`queueDepth
      ensures 1 <= attempts <= |rivals| + 2
      ensures queueDepth + 1 == Left(old(queueDepth), rivals, attempts)
    {
      attempts := 0;
      var value := loaded;
      while true
        invariant attempts <= |rivals| + 1 && queueDepth == Left(old(queueDepth), rivals, attempts) > 0
        invariant attempts == |rivals| + 1 ==> value == queueDepth
        decreases |rivals| + 1 - attempts
      {
        var spurious := false;
        if attempts < |rivals| {
          queueDepth := rivals[attempts].depth;
          spurious := rivals[attempts].spurious;
        }
        attempts := attempts + 1;
        if queueDepth == value && !spurious {
          queueDepth := SaturatingSub(value);
          return;
        }
        value := if attempts <= |rivals| then rivals[attempts - 1].read else queueDepth;
      }
    }
  }

  datatype Rival = Rival(depth: nat, spurious: bool, read: nat)

  /** The depth the others have left before the last of so many attempts. */
  function Left(depth: nat, rivals: seq<Rival>, attempts: nat): nat {
    if attempts == 0 || rivals == [] then depth
    else if attempts < |rivals| then rivals[attempts - 1].depth
    else rivals[|rivals| - 1].depth
  }
}
