/** The retry loop around calls to the Feishu API, and its exponential backoff. */
module Retry {
  import opened Text

  datatype ErrorClass = AuthFailed | PermissionDenied | RateLimited | InvalidRequest | ServerTransient | Unknown

  predicate Retryable(c: ErrorClass) {
    c.RateLimited? || c.ServerTransient?
  }

  function ClassifyHttp(status: nat): ErrorClass {
    if status == 401 then AuthFailed
    else if status == 403 then PermissionDenied
    else if status == 429 then RateLimited
    else if 500 <= status <= 599 then ServerTransient
    else if 400 <= status <= 499 then InvalidRequest
    else Unknown
  }

  function Lower(s: string): string {
    seq(|s|, i requires 0 <= i < |s| => ToAsciiLower(s[i]))
  }

  predicate Contains(s: string, part: string) {
    FindFrom(s, part, 0).Some?
  }

  function ClassifyApi(code: int, msg: string): ErrorClass {
    var m := Lower(msg);
    if code == 99991663 || code == 90013 || Contains(m, "rate") || Contains(m, "frequency") then RateLimited
    else if Contains(m, "token") || Contains(m, "unauthorized") || Contains(m, "tenant_access_token") then AuthFailed
    else if Contains(m, "permission") || Contains(m, "forbidden") then PermissionDenied
    else if Contains(m, "invalid") || Contains(m, "param") || Contains(m, "bad request") then InvalidRequest
    else Unknown
  }

  /** The answer to one send: no usable JSON at all, or a status with an envelope that may not parse. */
  datatype Response = Broken | Reply(status: nat, parsed: bool, code: int, msg: string)

  /** How a response is judged; an error that belongs to no class is never retried. */
  datatype Verdict = Accepted | Refused(c: ErrorClass) | Unusable

  function Judge(r: Response): Verdict {
    match r
    case Broken => Unusable
    case Reply(status, parsed, code, msg) =>
      if !(200 <= status <= 299) then Refused(ClassifyHttp(status))
      else if !parsed then Unusable
      else if code != 0 then Refused(ClassifyApi(code, msg))
      else Accepted
  }

  predicate WorthRetrying(r: Response) {
    Judge(r).Refused? && Retryable(Judge(r).c)
  }

  predicate SaysAt(text: string, word: string, i: nat) {
    i + |word| <= |text| && EqIgnoreAsciiCase(text[i..i + |word|], word)
  }

  /** The word occurs in the text, in whatever case. */
  predicate Says(text: string, word: string) {
    exists i | 0 <= i <= |text| :: SaysAt(text, word, i)
  }

  lemma SaysIs(text: string, word: string)
    requires Lower(word) == word
    ensures Contains(Lower(text), word) <==> Says(text, word)
  {
    forall i: nat
      ensures MatchAt(Lower(text), word, i) <==> SaysAt(text, word, i)
    {
      if i + |word| <= |text| {
        SameButForCase(text[i..i + |word|], word);
        assert Lower(text)[i..i + |word|] == Lower(text[i..i + |word|]);
      }
    }
    if Says(text, word) {
      var i :| 0 <= i <= |text| && SaysAt(text, word, i);
      assert MatchAt(Lower(text), word, i);
    }
  }

  lemma SameButForCase(a: string, b: string)
    requires Lower(b) == b
    ensures Lower(a) == b <==> EqIgnoreAsciiCase(a, b)
  {
    if |a| == |b| {
      assert forall i | 0 <= i < |b| :: ToAsciiLower(b[i]) == Lower(b)[i] == b[i];
      assert forall i | 0 <= i < |a| :: ToAsciiLower(a[i]) == Lower(a)[i];
    }
  }

  /**
   * Which answers are worth sending the request again: the statuses 429 and 5xx, and, in a readable answer, the codes
   * and words that speak of a rate limit. Code 0 alone is accepted.
   */
  lemma ResentIff(r: Response)
    ensures Judge(r).Accepted? <==> r.Reply? && 200 <= r.status <= 299 && r.parsed && r.code == 0
    ensures WorthRetrying(r) <==>
            && r.Reply?
            && if 200 <= r.status <= 299
               then && r.parsed && r.code != 0
                    && (r.code in {99991663, 90013} || Says(r.msg, "rate") || Says(r.msg, "frequency"))
               else r.status == 429 || 500 <= r.status <= 599
  {
    hide Says, Contains;
    if r.Reply? {
      SaysIs(r.msg, "rate");
      SaysIs(r.msg, "frequency");
    }
  }

  const BACKOFF_LIMIT: nat := 8000

  function Min(a: nat, b: nat): nat {
    if a < b then a else b
  }

  function NextBackoff(delay: nat): nat {
    Min(delay * 2, BACKOFF_LIMIT)
  }

  function Pow2(k: nat): nat {
    if k == 0 then 1 else 2 * Pow2(k - 1)
  }

  /** The k-th sleep in closed form: the base itself first, whatever its size, then doubled up to the limit. */
  function Sleep(base: nat, k: nat): nat {
    if k == 0 then base else Min(base * Pow2(k), BACKOFF_LIMIT)
  }

  lemma {:induction false} SleepDoubles(base: nat, k: nat)
    ensures NextBackoff(Sleep(base, k)) == Sleep(base, k + 1)
  {
    assert base * Pow2(k + 1) == base * Pow2(k) * 2;
  }

  function Sleeps(base: nat, n: nat): seq<nat> {
    seq(n, k requires 0 <= k < n => Sleep(base, k))
  }

  /**
   * `execute_json`, where `world(k)` answers the k-th send and `clonable` tells whether the request can be sent
   * again. At least one send and at most `maxRetries + 1`, every resend after a rate-limited or server-transient
   * answer, and no early surrender: the last answer is final for a reason.
   */
  method ExecuteJson(world: nat -> Response, maxRetries: nat, base: nat, clonable: bool)
    returns (verdict: Verdict, sends: nat, sleeps: seq<nat>)
    ensures 1 <= sends <= maxRetries + 1
    ensures forall k | 0 <= k < sends - 1 :: WorthRetrying(world(k))
    ensures !WorthRetrying(world(sends - 1)) || sends == maxRetries + 1 || !clonable
    ensures verdict == Judge(world(sends - 1))
    ensures sleeps == Sleeps(base, sends - 1)
  {
    sends, sleeps := 0, [];
    var delay := base;
    while true
      invariant sends <= maxRetries
      invariant forall k | 0 <= k < sends :: WorthRetrying(world(k))
      invariant delay == Sleep(base, sends)
      invariant sleeps == Sleeps(base, sends)
      decreases maxRetries - sends
    {
      var response := world(sends);
      sends := sends + 1;
      verdict := Judge(response);
      if verdict.Refused? && Retryable(verdict.c) && sends <= maxRetries && clonable {
        sleeps := sleeps + [delay];
        SleepDoubles(base, sends - 1);
        delay := NextBackoff(delay);
      } else {
        return;
      }
    }
  }

  function Sum(values: seq<nat>): nat {
    if values == [] then 0 else Sum(values[..|values| - 1]) + values[|values| - 1]
  }

  /** The time slept: the first sleep is the base, every later one at most eight seconds. */
  lemma {:induction false} TotalSleep(base: nat, n: nat)
    requires n >= 1
    ensures Sum(Sleeps(base, n)) <= base + BACKOFF_LIMIT * (n - 1)
  {
    assert Sleeps(base, n)[..n - 1] == Sleeps(base, n - 1);
    if n > 1 {
      TotalSleep(base, n - 1);
    } else {
      assert Sleeps(base, 0) == [];
    }
  }

  /** The sleeps never shrink iff the base is within the limit; otherwise the second is shorter than the first. */
  lemma SleepsGrowIff(base: nat)
    ensures (forall j: nat, k: nat | j <= k :: Sleep(base, j) <= Sleep(base, k)) <==> base <= BACKOFF_LIMIT
  {
    if base <= BACKOFF_LIMIT {
      forall j: nat, k: nat | j <= k
        ensures Sleep(base, j) <= Sleep(base, k)
      {
        Pow2Grows(base, j, k);
      }
    } else {
      assert Sleep(base, 1) < Sleep(base, 0);
    }
  }

  lemma {:induction false} Pow2Grows(base: nat, j: nat, k: nat)
    requires j <= k
    ensures base <= base * Pow2(j) <= base * Pow2(k)
    decreases k
  {
    assert Pow2(0) == 1 && base * Pow2(0) == base;
    if j < k {
      Pow2Grows(base, j, k - 1);
      assert base * Pow2(k) == 2 * (base * Pow2(k - 1));
    } else if k > 0 {
      Pow2Grows(base, k - 1, k - 1);
      assert base * Pow2(k) == 2 * (base * Pow2(k - 1));
    }
  }
}
