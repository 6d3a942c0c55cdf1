/**
 * Escaping of label values in the metrics page. The format is that of the Prometheus text exposition: inside the
 * quotes, a backslash, a quote and a line feed are written as an escape.
 */
module LabelEscape {
  import opened Wrappers
  import opened Text

  /** `escape_label`: three replacements in a chain. */
  function EscapeLabel(value: string): string {
    Replace(Replace(Replace(value, "\\", "\\\\"), "\"", "\\\""), "\n", "\\n")
  }

  /** One escape per character, from left to right. */
  function Escaped(c: char): string {
    if c == '\\' then "\\\\" else if c == '"' then "\\\"" else if c == '\n' then "\\n" else [c]
  }

  function SinglePass(value: string): string {
    if value == "" then "" else Escaped(value[0]) + SinglePass(value[1..])
  }

  /** Replacing one character replaces it wherever it stands. */
  function ReplaceChar(value: string, c: char, with: string): string {
    if value == "" then "" else (if value[0] == c then with else [value[0]]) + ReplaceChar(value[1..], c, with)
  }

  lemma {:induction false} ReplaceCharPrefix(value: string, c: char, with: string, n: nat)
    requires n <= |value| && c !in value[..n]
    ensures ReplaceChar(value, c, with) == value[..n] + ReplaceChar(value[n..], c, with)
    decreases n
  {
    if n > 0 {
      assert value[0] == value[..n][0];
      assert value[1..][..n - 1] == value[..n][1..];
      ReplaceCharPrefix(value[1..], c, with, n - 1);
      assert value[1..][n - 1..] == value[n..];
      assert value[..n] == [value[0]] + value[1..][..n - 1];
    } else {
      assert value[n..] == value;
    }
  }

  lemma NoneBefore(value: string, c: char, n: nat)
    requires n <= |value| && forall i | 0 <= i < n :: !MatchAt(value, [c], i)
    ensures c !in value[..n]
  {
    forall i | 0 <= i < n
      ensures value[i] != c
    {
      assert value[i..i + 1] == [value[i]];
      assert !MatchAt(value, [c], i);
    }
  }

  lemma {:induction false} ReplaceCharNone(value: string, c: char, with: string)
    requires c !in value
    ensures ReplaceChar(value, c, with) == value
  {
    ReplaceCharPrefix(value, c, with, |value|);
    assert value[|value|..] == "" && value[..|value|] == value;
  }

  lemma ReplaceCharAt(value: string, c: char, with: string, n: nat)
    requires n < |value| && value[n] == c && c !in value[..n]
    ensures ReplaceChar(value, c, with) == value[..n] + with + ReplaceChar(value[n + 1..], c, with)
  {
    ReplaceCharPrefix(value, c, with, n);
    assert value[n..][0] == c && value[n..][1..] == value[n + 1..];
    assert ReplaceChar(value[n..], c, with) == with + ReplaceChar(value[n + 1..], c, with);
  }

  lemma {:induction false} ReplaceIsReplaceChar(value: string, c: char, with: string)
    ensures Replace(value, [c], with) == ReplaceChar(value, c, with)
    decreases |value|
  {
    hide ReplaceChar, FindFrom;
    var found := FindFrom(value, [c], 0);
    if found.Some? {
      var n := found.value;
      NoneBefore(value, c, n);
      assert value[n..n + 1][0] == value[n];
      ReplaceIsReplaceChar(value[n + 1..], c, with);
      ReplaceCharAt(value, c, with, n);
    } else {
      NoneBefore(value, c, |value|);
      assert value[..|value|] == value;
      ReplaceCharNone(value, c, with);
    }
  }

  lemma {:induction false} ReplaceCharAppend(a: string, b: string, c: char, with: string)
    ensures ReplaceChar(a + b, c, with) == ReplaceChar(a, c, with) + ReplaceChar(b, c, with)
  {
    if a == "" {
      assert a + b == b;
    } else {
      assert (a + b)[1..] == a[1..] + b;
      ReplaceCharAppend(a[1..], b, c, with);
    }
  }

  function Chain(value: string): string {
    ReplaceChar(ReplaceChar(ReplaceChar(value, '\\', "\\\\"), '"', "\\\""), '\n', "\\n")
  }

  lemma ChainAppend(a: string, b: string)
    ensures Chain(a + b) == Chain(a) + Chain(b)
  {
    ReplaceCharAppend(a, b, '\\', "\\\\");
    var a1, b1 := ReplaceChar(a, '\\', "\\\\"), ReplaceChar(b, '\\', "\\\\");
    ReplaceCharAppend(a1, b1, '"', "\\\"");
    ReplaceCharAppend(ReplaceChar(a1, '"', "\\\""), ReplaceChar(b1, '"', "\\\""), '\n', "\\n");
  }

  lemma ReplaceCharOne(x: char, c: char, with: string)
    ensures ReplaceChar([x], c, with) == if x == c then with else [x]
  {
    assert [x][1..] == "";
  }

  lemma ReplaceCharTwo(x: char, y: char, c: char, with: string)
    ensures ReplaceChar([x, y], c, with) == (if x == c then with else [x]) + (if y == c then with else [y])
  {
    assert [x, y] == [x] + [y];
    ReplaceCharAppend([x], [y], c, with);
    ReplaceCharOne(x, c, with);
    ReplaceCharOne(y, c, with);
  }

  lemma ChainOne(c: char)
    ensures Chain([c]) == Escaped(c)
  {
    ReplaceCharOne(c, '\\', "\\\\");
    ReplaceCharOne(c, '"', "\\\"");
    ReplaceCharOne(c, '\n', "\\n");
    ReplaceCharTwo('\\', '\\', '"', "\\\"");
    ReplaceCharTwo('\\', '\\', '\n', "\\n");
    ReplaceCharTwo('\\', '"', '\n', "\\n");
  }

  /** The three replacements in a chain equal a single pass: none touches what an earlier one has written. */
  lemma {:induction false} EscapeIsSinglePass(value: string)
    ensures EscapeLabel(value) == SinglePass(value)
  {
    hide SinglePass, ReplaceChar;
    EscapeIsChain(value);
    ChainIsSinglePass(value);
  }

  lemma {:induction false} EscapeIsChain(value: string)
    ensures EscapeLabel(value) == Chain(value)
  {
    hide Replace, ReplaceChar;
    var first := ReplaceChar(value, '\\', "\\\\");
    ReplaceIsReplaceChar(value, '\\', "\\\\");
    ReplaceIsReplaceChar(first, '"', "\\\"");
    ReplaceIsReplaceChar(ReplaceChar(first, '"', "\\\""), '\n', "\\n");
  }

  lemma {:induction false} ChainIsSinglePass(value: string)
    ensures Chain(value) == SinglePass(value)
  {
    hide ReplaceChar, Chain, Escaped;
    if value == "" {
      ChainNone();
    } else {
      ChainIsSinglePass(value[1..]);
      ChainAppend([value[0]], value[1..]);
      ChainOne(value[0]);
      assert value == [value[0]] + value[1..];
    }
  }

  lemma ChainNone()
    ensures Chain("") == ""
  {
  }

  /**
   * How a reader of the page takes a label value up to its closing quote: None if the text breaks off, has a bare
   * line feed, or an unknown escape. Yields the value and the text after the quote.
   */
  function ReadQuoted(text: string): Option<(string, string)> {
    if text == "" || text[0] == '\n' then None
    else if text[0] == '"' then Some(("", text[1..]))
    else if text[0] != '\\' then Prepend(text[0], ReadQuoted(text[1..]))
    else if |text| == 1 then None
    else if text[1] == '\\' then Prepend('\\', ReadQuoted(text[2..]))
    else if text[1] == '"' then Prepend('"', ReadQuoted(text[2..]))
    else if text[1] == 'n' then Prepend('\n', ReadQuoted(text[2..]))
    else None
  }

  function Prepend(c: char, read: Option<(string, string)>): Option<(string, string)> {
    match read
    case None => None
    case Some((value, rest)) => Some(([c] + value, rest))
  }

  lemma {:induction false} ReadSinglePass(value: string, rest: string)
    ensures ReadQuoted(SinglePass(value) + "\"" + rest) == Some((value, rest))
    decreases |value|
  {
    var text := SinglePass(value) + "\"" + rest;
    if value == "" {
      assert text[1..] == rest;
    } else {
      ReadSinglePass(value[1..], rest);
      var tail := SinglePass(value[1..]) + "\"" + rest;
      assert text == Escaped(value[0]) + tail;
      assert text[|Escaped(value[0])|..] == tail;
      assert value == [value[0]] + value[1..];
    }
  }

  /**
   * A label survives the page: read back up to its closing quote it is the value itself, whatever characters it
   * has and whatever follows. So no quote or line feed of the value ends it early.
   */
  lemma LabelRoundTrip(value: string, rest: string)
    ensures ReadQuoted(EscapeLabel(value) + "\"" + rest) == Some((value, rest))
  {
    EscapeIsSinglePass(value);
    ReadSinglePass(value, rest);
  }

  /** Different values never share a label. */
  lemma EscapeInjective(a: string, b: string)
    requires EscapeLabel(a) == EscapeLabel(b)
    ensures a == b
  {
    LabelRoundTrip(a, "");
    LabelRoundTrip(b, "");
  }
}
