/** Text sent to Feishu as a rich-text post, and the text taken out of such a post again. */
module RichText {
  import opened Wrappers
  import opened Text

  /** The string-valued fields of one item of a post; others count as absent. */
  type Item = map<string, string>

  /** The rows of one locale. */
  type Rows = seq<seq<Item>>

  /** A post: its locales in order, and the top-level text some messages have instead. */
  datatype Post = Post(locales: seq<Rows>, text: Option<string>)

  /** `split_whitespace`: the maximal stretches without blanks. */
  function Words(s: string): (r: seq<string>)
    ensures s != "" && !IsSpace(s[0]) ==> r != []
    ensures forall w | w in r :: IsWord(w)
  {
    if s == "" then []
    else if IsSpace(s[0]) then Words(s[1..])
    else if |s| == 1 || IsSpace(s[1]) then [[s[0]]] + Words(s[1..])
    else
      var rest := Words(s[1..]);
      assert IsWord(rest[0]) && forall w | w in rest[1..] :: w in rest;
      [[s[0]] + rest[0]] + rest[1..]
  }

  predicate IsWord(s: string) {
    s != "" && forall i | 0 <= i < |s| :: !IsSpace(s[i])
  }

  function TrimAts(s: string): (r: string)
    ensures |r| <= |s| && r == s[|s| - |r|..]
    ensures r == "" || r[0] != '@'
    ensures forall i | 0 <= i < |s| - |r| :: s[i] == '@'
  {
    if s != "" && s[0] == '@' then TrimAts(s[1..]) else s
  }

  predicate IsMention(word: string) {
    |word| > 1 && word[0] == '@'
  }

  predicate IsLink(word: string) {
    "http://" <= word || "https://" <= word
  }

  function TextItem(text: string): Item {
    map["tag" := "text", "text" := text]
  }

  function ItemOf(word: string): Item {
    if IsMention(word) then map["tag" := "at", "user_name" := TrimAts(word)]
    else if IsLink(word) then map["tag" := "a", "text" := word, "href" := word]
    else TextItem(word)
  }

  function RowOf(words: seq<string>): seq<Item> {
    if words == [] then [] else RowOf(words[..|words| - 1]) + [ItemOf(words[|words| - 1]), TextItem(" ")]
  }

  function PostOf(content: string): Post {
    var row := RowOf(Words(content));
    Post([[if row == [] then [TextItem(content)] else row]], None)
  }

  method CreateFeishuRichText(content: string) returns (post: Post)
    ensures post == PostOf(content)
  {
    var row: seq<Item> := [];
    var tokens := Words(content);
    var i := 0;
    while i < |tokens|
      invariant 0 <= i <= |tokens|
      invariant row == RowOf(tokens[..i])
    {
      assert tokens[..i + 1][..i] == tokens[..i];
      var token := tokens[i];
      assert token in tokens;
      if token[0] == '@' && |token| > 1 {
        row := row + [map["tag" := "at", "user_name" := TrimAts(token)], TextItem(" ")];
      } else if "http://" <= token || "https://" <= token {
        row := row + [map["tag" := "a", "text" := token, "href" := token], TextItem(" ")];
      } else {
        row := row + [TextItem(token), TextItem(" ")];
      }
      i := i + 1;
    }
    assert tokens[..i] == tokens;
    if row == [] {
      row := [TextItem(content)];
    }
    return Post([[row]], None);
  }

  function Field(item: Item, name: string, otherwise: string): string {
    if name in item then item[name] else otherwise
  }

  /** The text an item contributes, if any. */
  function PartOf(item: Item): Option<string> {
    var tag := Field(item, "tag", "");
    if tag == "text" then (if "text" in item then Some(item["text"]) else None)
    else if tag == "a" then
      var text, href := Field(item, "text", ""), Field(item, "href", "");
      Some(if text == "" then href else text + " (" + href + ")")
    else if tag == "at" then Some("@" + Field(item, "user_name", Field(item, "user_id", "user")))
    else if tag == "img" then Some("[Image]")
    else None
  }

  function PartsOfRow(row: seq<Item>): seq<string> {
    if row == [] then []
    else PartsOfRow(row[..|row| - 1]) +
         match PartOf(row[|row| - 1]) case None => [] case Some(part) => [part]
  }

  function PartsOfRows(rows: Rows): seq<string> {
    if rows == [] then [] else PartsOfRows(rows[..|rows| - 1]) + PartsOfRow(rows[|rows| - 1])
  }

  function PartsOf(locales: seq<Rows>): seq<string> {
    if locales == [] then [] else PartsOf(locales[..|locales| - 1]) + PartsOfRows(locales[|locales| - 1])
  }

  function Join(parts: seq<string>): string {
    if parts == [] then "" else Join(parts[..|parts| - 1]) + parts[|parts| - 1]
  }

  function TextOf(post: Post): string {
    var parts := PartsOf(post.locales);
    if parts == [] then (if post.text.Some? then post.text.value else "") else Join(parts)
  }

  /**
   * What items yield that lack the text they usually carry: a link its target, a mention the user's id or failing that
   * a word for him, an image a word for it; items of other kinds, and texts without text, yield nothing.
   */
  lemma PartOfBareItems(href: string, id: string, item: Item)
    ensures PartOf(map["tag" := "a", "href" := href]) == Some(href)
    ensures PartOf(map["tag" := "a", "text" := "", "href" := href]) == Some(href)
    ensures PartOf(map["tag" := "at", "user_id" := id]) == Some("@" + id) && PartOf(map["tag" := "at"]) == Some("@user")
    ensures PartOf(map["tag" := "img"]) == Some("[Image]")
    ensures PartOf(item).None? <==>
            "tag" !in item || item["tag"] !in {"text", "a", "at", "img"} || (item["tag"] == "text" && "text" !in item)
  {
    assert "@" + "user" == "@user";
  }

  /** The items of a post, row after row and locale after locale. */
  function AllItems(locales: seq<Rows>): seq<Item> {
    if locales == [] then [] else ItemsOf(locales[0]) + AllItems(locales[1..])
  }

  function ItemsOf(rows: Rows): seq<Item> {
    if rows == [] then [] else rows[0] + ItemsOf(rows[1..])
  }

  lemma {:induction false} PartsAppend(a: seq<Item>, b: seq<Item>)
    ensures PartsOfRow(a + b) == PartsOfRow(a) + PartsOfRow(b)
    decreases |b|
  {
    if b == [] {
      assert a + b == a;
    } else {
      assert (a + b)[..|a + b| - 1] == a + b[..|b| - 1];
      PartsAppend(a, b[..|b| - 1]);
    }
  }

  lemma {:induction false} RowsAppend(a: Rows, b: Rows)
    ensures PartsOfRows(a + b) == PartsOfRows(a) + PartsOfRows(b)
    decreases |b|
  {
    if b == [] {
      assert a + b == a;
    } else {
      assert (a + b)[..|a + b| - 1] == a + b[..|b| - 1];
      RowsAppend(a, b[..|b| - 1]);
    }
  }

  lemma {:induction false} LocalesAppend(a: seq<Rows>, b: seq<Rows>)
    ensures PartsOf(a + b) == PartsOf(a) + PartsOf(b)
    decreases |b|
  {
    if b == [] {
      assert a + b == a;
    } else {
      assert (a + b)[..|a + b| - 1] == a + b[..|b| - 1];
      LocalesAppend(a, b[..|b| - 1]);
    }
  }

  lemma {:induction false} PartsOfItems(rows: Rows)
    ensures PartsOfRows(rows) == PartsOfRow(ItemsOf(rows))
  {
    hide PartsOfRow;
    if rows == [] {
      NoParts();
    } else {
      assert rows == [rows[0]] + rows[1..];
      RowsAppend([rows[0]], rows[1..]);
      OneRow(rows[0]);
      PartsOfItems(rows[1..]);
      PartsAppend(rows[0], ItemsOf(rows[1..]));
    }
  }

  lemma NoParts()
    ensures PartsOfRow([]) == []
  {
  }

  lemma OneRow(row: seq<Item>)
    ensures PartsOfRows([row]) == PartsOfRow(row)
  {
    assert [row][..0] == [];
  }

  lemma OneLocale(rows: Rows)
    ensures PartsOf([rows]) == PartsOfRows(rows)
  {
    assert [rows][..0] == [];
  }

  lemma {:induction false} PartsOfAllItems(locales: seq<Rows>)
    ensures PartsOf(locales) == PartsOfRow(AllItems(locales))
  {
    hide PartsOfRow, PartsOfRows, ItemsOf;
    if locales == [] {
      NoParts();
    } else {
      assert locales == [locales[0]] + locales[1..];
      LocalesAppend([locales[0]], locales[1..]);
      OneLocale(locales[0]);
      PartsOfItems(locales[0]);
      PartsOfAllItems(locales[1..]);
      PartsAppend(ItemsOf(locales[0]), AllItems(locales[1..]));
    }
  }

  /** How a post spreads its items over rows and locales does not matter: the text is that of all items in one row. */
  lemma RowsDoNotMatter(post: Post)
    ensures TextOf(post) == TextOf(Post([[AllItems(post.locales)]], post.text))
  {
    hide PartsOfRow, PartsOfRows, Join;
    var row := AllItems(post.locales);
    PartsOfAllItems(post.locales);
    OneRow(row);
    OneLocale([row]);
  }

  method ExtractRow(row: seq<Item>) returns (parts: seq<string>)
    ensures parts == PartsOfRow(row)
  {
    parts := [];
    var i := 0;
    while i < |row|
      invariant 0 <= i <= |row|
      invariant parts == PartsOfRow(row[..i])
    {
      assert row[..i + 1][..i] == row[..i];
      var item := row[i];
      var tag := Field(item, "tag", "");
      if tag == "text" {
        if "text" in item {
          parts := parts + [item["text"]];
        }
      } else if tag == "a" {
        var text, href := Field(item, "text", ""), Field(item, "href", "");
        parts := parts + [if text == "" then href else text + " (" + href + ")"];
      } else if tag == "at" {
        parts := parts + ["@" + Field(item, "user_name", Field(item, "user_id", "user"))];
      } else if tag == "img" {
        parts := parts + ["[Image]"];
      }
      i := i + 1;
    }
    assert row[..i] == row;
  }

  method ExtractRows(rows: Rows) returns (parts: seq<string>)
    ensures parts == PartsOfRows(rows)
  {
    parts := [];
    var r := 0;
    while r < |rows|
      invariant 0 <= r <= |rows|
      invariant parts == PartsOfRows(rows[..r])
    {
      assert rows[..r + 1][..r] == rows[..r];
      var rowParts := ExtractRow(rows[r]);
      parts := parts + rowParts;
      r := r + 1;
    }
    assert rows[..r] == rows;
  }

  method ExtractTextFromPostContent(post: Post) returns (text: string)
    ensures text == TextOf(post)
  {
    var parts: seq<string> := [];
    var l := 0;
    while l < |post.locales|
      invariant 0 <= l <= |post.locales|
      invariant parts == PartsOf(post.locales[..l])
    {
      assert post.locales[..l + 1][..l] == post.locales[..l];
      var localeParts := ExtractRows(post.locales[l]);
      parts := parts + localeParts;
      l := l + 1;
    }
    assert post.locales[..l] == post.locales;
    if parts == [] {
      return if post.text.Some? then post.text.value else "";
    }
    text := Concatenated(parts);
  }

  method Concatenated(parts: seq<string>) returns (text: string)
    ensures text == Join(parts)
  {
    text := "";
    var i := 0;
    while i < |parts|
      invariant 0 <= i <= |parts|
      invariant text == Join(parts[..i])
    {
      assert parts[..i + 1][..i] == parts[..i];
      text := text + parts[i];
      i := i + 1;
    }
    assert parts[..i] == parts;
  }

  // ----- The round trip -----

  /** The words a word comes back as. */
  function Back(word: string): seq<string> {
    if IsMention(word) then ["@" + TrimAts(word)]
    else if IsLink(word) then [word, "(" + word + ")"]
    else [word]
  }

  function AllBack(words: seq<string>): seq<string> {
    if words == [] then [] else AllBack(words[..|words| - 1]) + Back(words[|words| - 1])
  }

  lemma WordsCons(c: char, t: string)
    ensures Words([c] + t) == if IsSpace(c) then Words(t)
                              else if t == "" || IsSpace(t[0]) then [[c]] + Words(t)
                              else [[c] + Words(t)[0]] + Words(t)[1..]
  {
    hide IsSpace;
    assert ([c] + t)[1..] == t;
    assert t != "" ==> ([c] + t)[1] == t[0];
  }

  /** A blank always separates words. */
  lemma {:induction false} WordsAcrossBlank(a: string, blank: char, b: string)
    requires IsSpace(blank)
    ensures Words(a + [blank] + b) == Words(a) + Words(b)
    decreases |a|
  {
    hide IsSpace, Words;
    if a == "" {
      assert a + [blank] + b == [blank] + b;
      WordsCons(blank, b);
      NoWords();
    } else {
      var rest := a[1..] + [blank] + b;
      assert a == [a[0]] + a[1..] && a + [blank] + b == [a[0]] + rest;
      assert rest[0] == if |a| == 1 then blank else a[1];
      WordsAcrossBlank(a[1..], blank, b);
      WordsCons(a[0], a[1..]);
      WordsCons(a[0], rest);
    }
  }

  lemma NoWords()
    ensures Words("") == []
  {
  }

  lemma {:induction false} WordsOfWord(word: string)
    requires IsWord(word)
    ensures Words(word) == [word]
  {
    if |word| == 1 {
      assert word[1..] == "" && word == [word[0]];
    } else {
      WordsOfWord(word[1..]);
      assert word == [word[0]] + word[1..];
    }
  }

  lemma MentionIsWord(word: string)
    requires IsWord(word)
    ensures IsWord("@" + TrimAts(word))
  {
    assert !IsSpace('@');
    hide IsSpace, TrimAts;
    var rest := TrimAts(word);
    forall i | 0 <= i < |rest|
      ensures !IsSpace(rest[i])
    {
      assert rest[i] == word[|word| - |rest| + i];
    }
    assert forall i | 0 < i <= |rest| :: ("@" + rest)[i] == rest[i - 1];
  }

  lemma WordsOfLink(word: string)
    requires IsWord(word)
    ensures Words(word + " (" + word + ")") == [word, "(" + word + ")"]
  {
    hide Words, IsWord;
    assert word + " (" + word + ")" == word + [' '] + ("(" + word + ")");
    WordsAcrossBlank(word, ' ', "(" + word + ")");
    BracketedIsWord(word);
    WordsOfWord(word);
    WordsOfWord("(" + word + ")");
  }

  lemma BracketedIsWord(word: string)
    requires IsWord(word)
    ensures IsWord("(" + word + ")")
  {
    assert !IsSpace('(') && !IsSpace(')');
  }

  lemma PartOfWord(word: string)
    requires IsWord(word)
    ensures PartOf(ItemOf(word)) ==
            Some(if IsMention(word) then "@" + TrimAts(word) else if IsLink(word) then word + " (" + word + ")" else word)
  {
    hide TrimAts;
  }

  lemma WordsOfPart(word: string)
    requires IsWord(word)
    ensures PartOf(ItemOf(word)).Some?
    ensures Words(PartOf(ItemOf(word)).value + " ") == Back(word)
  {
    hide Words, IsWord, TrimAts, PartOf, ItemOf, IsMention, IsLink;
    PartOfWord(word);
    var part := PartOf(ItemOf(word)).value;
    WordsBeforeBlank(part);
    MentionIsWord(word);
    WordsOfWord("@" + TrimAts(word));
    WordsOfLink(word);
    WordsOfWord(word);
  }

  lemma WordsBeforeBlank(s: string)
    ensures Words(s + " ") == Words(s)
  {
    WordsAcrossBlank(s, ' ', "");
    assert s + [' '] + "" == s + " ";
  }

  predicate EndsBlank(s: string) {
    s != "" && s[|s| - 1] == ' '
  }

  lemma WordsAfterBlankEnd(front: string, tail: string)
    requires front == "" || EndsBlank(front)
    ensures Words(front + tail) == Words(front) + Words(tail)
  {
    if front == "" {
      assert front + tail == tail;
    } else {
      var cut := front[..|front| - 1];
      assert front == cut + " " && front + tail == cut + [' '] + tail;
      WordsBeforeBlank(cut);
      WordsAcrossBlank(cut, ' ', tail);
    }
  }

  function RowText(words: seq<string>): string {
    Join(PartsOfRow(RowOf(words)))
  }

  lemma {:induction false} RowTextStep(words: seq<string>)
    requires words != [] && IsWord(words[|words| - 1])
    ensures PartOf(ItemOf(words[|words| - 1])).Some?
    ensures RowText(words) == RowText(words[..|words| - 1]) + (PartOf(ItemOf(words[|words| - 1])).value + " ")
    ensures PartsOfRow(RowOf(words)) != []
  {
    hide ItemOf, PartOf, Join, PartsOfRow, IsWord;
    var word := words[|words| - 1];
    WordsOfPart(word);
    RowParts(RowOf(words[..|words| - 1]), ItemOf(word), PartOf(ItemOf(word)).value);
    JoinTwo(PartsOfRow(RowOf(words[..|words| - 1])), PartOf(ItemOf(word)).value, " ");
  }

  lemma {:induction false} WordsOfRow(words: seq<string>)
    requires forall w | w in words :: IsWord(w)
    ensures Words(RowText(words)) == AllBack(words)
    ensures RowText(words) == "" || EndsBlank(RowText(words))
  {
    hide RowText, ItemOf, PartOf, Words, IsWord, Back;
    if words == [] {
      NoRowText();
    } else {
      var init, word := words[..|words| - 1], words[|words| - 1];
      WordsOfRow(init);
      WordsOfPart(word);
      RowTextStep(words);
      WordsAfterBlankEnd(RowText(init), PartOf(ItemOf(word)).value + " ");
    }
  }

  lemma NoRowText()
    ensures RowText([]) == "" && Words("") == []
  {
  }

  lemma RowParts(row: seq<Item>, item: Item, part: string)
    requires PartOf(item) == Some(part)
    ensures PartsOfRow(row + [item, TextItem(" ")]) == PartsOfRow(row) + [part, " "]
  {
    var longer := row + [item, TextItem(" ")];
    assert longer[..|longer| - 1] == row + [item];
    assert (row + [item])[..|row|] == row;
    assert PartOf(TextItem(" ")) == Some(" ");
  }

  lemma JoinTwo(parts: seq<string>, a: string, b: string)
    ensures Join(parts + [a, b]) == Join(parts) + (a + b)
  {
    var longer := parts + [a, b];
    assert longer[..|longer| - 1] == parts + [a];
    assert (parts + [a])[..|parts|] == parts;
  }

  lemma PartsOfOneRow(row: seq<Item>, text: Option<string>)
    requires PartsOfRow(row) != []
    ensures TextOf(Post([[row]], text)) == Join(PartsOfRow(row))
  {
    var rows: Rows := [row];
    var locales: seq<Rows> := [rows];
    assert rows[..0] == [] && locales[..0] == [];
    assert PartsOfRows(rows) == PartsOfRow(row);
    assert PartsOf(locales) == PartsOfRows(rows);
  }

  /**
   * Round trip: the words of the text taken out of the post are the words of the original, in order, with runs of
   * leading '@' collapsed to one and every link followed by its copy in parentheses.
   */
  lemma PostRoundTrip(content: string)
    ensures Words(TextOf(PostOf(content))) == AllBack(Words(content))
  {
    hide Words, Join, PartsOfRow, RowOf, ItemOf, IsWord;
    var words := Words(content);
    if words == [] {
      OneText(content);
      NoRow();
      PartsOfOneRow([TextItem(content)], None);
    } else {
      var word := words[|words| - 1];
      assert word in words;
      RowTextStep(words);
      WordsOfRow(words);
      RowNotEmpty(words);
      PartsOfOneRow(RowOf(words), None);
    }
  }

  lemma OneText(content: string)
    ensures PartsOfRow([TextItem(content)]) == [content] && Join([content]) == content
  {
    assert [TextItem(content)][..0] == [] && [content][..0] == [];
  }

  lemma NoRow()
    ensures RowOf([]) == [] && AllBack([]) == []
  {
  }

  lemma RowNotEmpty(words: seq<string>)
    requires words != []
    ensures RowOf(words) != []
  {
  }

  predicate Unmarked(word: string) {
    !IsLink(word) && !("@@" <= word)
  }

  lemma BackOfMention(word: string)
    requires IsMention(word)
    ensures Unmarked(word) <==> word[1] != '@'
    ensures word[1] != '@' ==> Back(word) == [word]
    ensures word[1] == '@' ==> |Back(word)| == 1 && Back(word)[0] != word
  {
    assert word[0] == '@' && "http://"[0] != '@' && "https://"[0] != '@';
    assert word[..2] == [word[0], word[1]] && "@@" == ['@', '@'];
    assert TrimAts(word) == TrimAts(word[1..]) && word[1..][0] == word[1];
    if word[1] == '@' {
      assert TrimAts(word[1..]) == TrimAts(word[1..][1..]);
      assert |Back(word)[0]| < |word|;
    } else {
      assert TrimAts(word[1..]) == word[1..];
      assert word == "@" + word[1..];
    }
  }

  lemma BackOfOther(word: string)
    requires !IsMention(word)
    ensures Unmarked(word) <==> !IsLink(word)
    ensures |Back(word)| == if IsLink(word) then 2 else 1
    ensures !IsLink(word) ==> Back(word) == [word]
  {
    hide IsLink;
  }

  lemma BackUnmarked(word: string)
    ensures Unmarked(word) ==> Back(word) == [word]
    ensures !Unmarked(word) ==> |Back(word)| > 1 || (|Back(word)| == 1 && Back(word)[0] != word)
  {
    hide Unmarked, Back, TrimAts, IsLink;
    if IsMention(word) {
      BackOfMention(word);
    } else {
      BackOfOther(word);
    }
  }

  lemma {:induction false} AllBackLength(words: seq<string>)
    ensures |words| <= |AllBack(words)|
  {
    if words != [] {
      AllBackLength(words[..|words| - 1]);
    }
  }

  /** Exactly the texts without links and without words that start with "@@" keep their words. */
  lemma {:induction false} WordsKeptIff(words: seq<string>)
    ensures AllBack(words) == words <==> forall w | w in words :: Unmarked(w)
  {
    hide Back, Unmarked;
    if words != [] {
      var init, word := words[..|words| - 1], words[|words| - 1];
      WordsKeptIff(init);
      AllBackLength(init);
      BackUnmarked(word);
      assert words == init + [word];
      if AllBack(words) == words {
        assert |Back(word)| == 1;
        assert AllBack(words)[..|init|] == init && AllBack(words)[..|init|] == AllBack(init);
        assert AllBack(words)[|init|] == Back(word)[0];
        assert Unmarked(word);
      }
    }
  }

  lemma PostKeepsWords(content: string)
    ensures Words(TextOf(PostOf(content))) == Words(content) <==> forall w | w in Words(content) :: Unmarked(w)
  {
    PostRoundTrip(content);
    WordsKeptIff(Words(content));
  }
}
