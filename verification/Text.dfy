/** Optional values, as Rust's `Option`. */
module Wrappers {
  datatype Option<+T> = None | Some(value: T)
}

/**
 * The string operations of the Rust standard library that the bridge relies on: `trim`, `split_once`,
 * `rsplit_once`, `replace` and ASCII case folding. A string is a sequence of Unicode scalar values.
 */
module Text {
  import opened Wrappers

  /** The Unicode White_Space property, which `trim` and `split_whitespace` test. */
  predicate IsSpace(c: char) {
    || '\t' <= c <= '\r'
    || c == ' '
    || c == '\U{0085}'
    || c == '\U{00A0}'
    || c == '\U{1680}'
    || '\U{2000}' <= c <= '\U{200A}'
    || c == '\U{2028}'
    || c == '\U{2029}'
    || c == '\U{202F}'
    || c == '\U{205F}'
    || c == '\U{3000}'
  }

  predicate IsBlank(s: string) {
    forall i | 0 <= i < |s| :: IsSpace(s[i])
  }

  function TrimStart(s: string): (r: string)
    ensures |r| <= |s| && r == s[|s| - |r|..]
    ensures r == "" || !IsSpace(r[0])
    ensures IsBlank(s[..|s| - |r|])
  {
    if s != "" && IsSpace(s[0]) then TrimStart(s[1..]) else s
  }

  function TrimEnd(s: string): (r: string)
    ensures r <= s
    ensures r == "" || !IsSpace(r[|r| - 1])
    ensures IsBlank(s[|r|..])
  {
    if s != "" && IsSpace(s[|s| - 1]) then TrimEnd(s[..|s| - 1]) else s
  }

  function Trim(s: string): string {
    TrimEnd(TrimStart(s))
  }

  /** A text is empty once trimmed iff all of it is blank. */
  lemma TrimEmptyIffBlank(s: string)
    ensures Trim(s) == "" <==> IsBlank(s)
  {
    var t := TrimStart(s);
    assert s == s[..|s| - |t|] + t;
    assert TrimEnd(t) == "" ==> t[0..] == t;
  }

  /** `str::to_ascii_lowercase` on one character. */
  function ToAsciiLower(c: char): char {
    if 'A' <= c <= 'Z' then (c as int + 32) as char else c
  }

  predicate EqIgnoreAsciiCase(a: string, b: string) {
    |a| == |b| && forall i | 0 <= i < |a| :: ToAsciiLower(a[i]) == ToAsciiLower(b[i])
  }

  predicate MatchAt(s: string, pattern: string, i: int) {
    0 <= i && i + |pattern| <= |s| && s[i..i + |pattern|] == pattern
  }

  /** The first position from `i` on at which `pattern` occurs. */
  function FindFrom(s: string, pattern: string, i: nat): (r: Option<nat>)
    ensures r.Some? ==> i <= r.value && MatchAt(s, pattern, r.value)
    ensures r.Some? ==> forall j | i <= j < r.value :: !MatchAt(s, pattern, j)
    ensures r.None? ==> forall j | i <= j :: !MatchAt(s, pattern, j)
    decreases |s| - i
  {
    if i + |pattern| > |s| then None
    else if MatchAt(s, pattern, i) then Some(i)
    else FindFrom(s, pattern, i + 1)
  }

  function SplitOnce(s: string, pattern: string): Option<(string, string)> {
    match FindFrom(s, pattern, 0)
    case None => None
    case Some(i) => Some((s[..i], s[i + |pattern|..]))
  }

  /** Splits at the last occurrence of `c`. */
  function RSplitOnce(s: string, c: char): (r: Option<(string, string)>)
    ensures r.Some? ==> s == r.value.0 + [c] + r.value.1 && c !in r.value.1
    ensures r.None? ==> c !in s
  {
    if s == "" then None
    else if s[|s| - 1] == c then Some((s[..|s| - 1], ""))
    else
      match RSplitOnce(s[..|s| - 1], c)
      case None => None
      case Some((before, after)) => Some((before, after + [s[|s| - 1]]))
  }

  /** Replaces the non-overlapping occurrences of `pattern`, found from the left. */
  function Replace(s: string, pattern: string, with: string): string
    requires pattern != ""
    decreases |s|
  {
    match FindFrom(s, pattern, 0)
    case None => s
    case Some(i) => s[..i] + with + Replace(s[i + |pattern|..], pattern, with)
  }

  /** A split at the last `c` is determined by the text after it being free of `c`. */
  lemma {:induction false} RSplitOnceUnique(before: string, c: char, after: string)
    requires c !in after
    ensures RSplitOnce(before + [c] + after, c) == Some((before, after))
    decreases |after|
  {
    var s := before + [c] + after;
    if after == "" {
      assert s[..|s| - 1] == before;
    } else {
      var shorter := after[..|after| - 1];
      RSplitOnceUnique(before, c, shorter);
      assert s[..|s| - 1] == before + [c] + shorter;
      assert s[|s| - 1] == after[|after| - 1] && s[|s| - 1] in after;
      assert shorter + [s[|s| - 1]] == after;
    }
  }

  /** A blank tail is dropped down to the last visible character. */
  lemma {:induction false} TrimEndDropsBlanks(head: string, blanks: string)
    requires head != "" && !IsSpace(head[|head| - 1]) && IsBlank(blanks)
    ensures TrimEnd(head + blanks) == head
    decreases |blanks|
  {
    var s := head + blanks;
    if blanks == "" {
      assert s == head;
    } else {
      var shorter := blanks[..|blanks| - 1];
      assert s[..|s| - 1] == head + shorter;
      TrimEndDropsBlanks(head, shorter);
    }
  }

  /** `trim` drops a visible-headed text's trailing blanks and nothing else. */
  lemma TrimDropsBlankTail(head: string, blanks: string)
    requires head != "" && !IsSpace(head[0]) && !IsSpace(head[|head| - 1]) && IsBlank(blanks)
    ensures Trim(head + blanks) == head
  {
    assert (head + blanks)[0] == head[0];
    TrimEndDropsBlanks(head, blanks);
  }

  lemma EqIgnoreAsciiCaseReflexive(s: string)
    ensures EqIgnoreAsciiCase(s, s)
  {
  }
}
