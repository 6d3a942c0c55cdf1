/**
 * Who speaks for the bridge on Matrix: the identifiers the bridge makes for its bot and for the puppets of
 * Feishu users, and the test by which it recognises its own messages when the homeserver sends them back.
 */
module Puppet {
  import opened Wrappers
  import opened Text

  const PLACEHOLDER: string := "{{.}}"

  datatype Identity = Identity(botUsername: string, senderLocalpart: string, usernameTemplate: string, domain: string)

  function Mxid(localpart: string, domain: string): string {
    "@" + localpart + ":" + domain
  }

  function FormatUsername(template: string, id: string): string {
    Replace(template, PLACEHOLDER, id)
  }

  function BotMxid(self: Identity): string {
    Mxid(self.botUsername, self.domain)
  }

  function PuppetMxid(self: Identity, feishuUser: string): string {
    Mxid(FormatUsername(self.usernameTemplate, feishuUser), self.domain)
  }

  predicate SenderMatchesPuppet(sender: string, template: string, domain: string) {
    IsOwnMxid(Trim(sender), template, domain)
  }

  predicate IsOwnMxid(mxid: string, template: string, domain: string) {
    if !("@" <= mxid) then false else
    match RSplitOnce(mxid[1..], ':')
    case None => false
    case Some((localpart, senderDomain)) =>
      EqIgnoreAsciiCase(senderDomain, domain) && FitsTemplate(localpart, template)
  }

  predicate FitsTemplate(localpart: string, template: string) {
    match SplitOnce(template, PLACEHOLDER)
    case None => false
    case Some((prefix, suffix)) =>
      if |localpart| < |prefix| + |suffix| then false else
      if !(prefix <= localpart) || !EndsWith(localpart, suffix) then false else
      |localpart| - |suffix| > |prefix|
  }

  predicate EndsWith(s: string, suffix: string) {
    |suffix| <= |s| && s[|s| - |suffix|..] == suffix
  }

  predicate SenderMatchesBridge(sender: string, self: Identity) {
    if EqIgnoreAsciiCase(sender, BotMxid(self)) then true else
    var localpart := Trim(self.senderLocalpart);
    if localpart == "" then false else
    if EqIgnoreAsciiCase(sender, Mxid(localpart, self.domain)) then true else
    SenderMatchesPuppet(sender, self.usernameTemplate, self.domain)
  }

  /** The template holds the placeholder once, between `prefix` and `suffix`. */
  ghost predicate OnePlaceholder(template: string, prefix: string, suffix: string) {
    && template == prefix + PLACEHOLDER + suffix
    && forall j | MatchAt(template, PLACEHOLDER, j) :: j == |prefix|
  }

  ghost predicate IsPuppetOf(mxid: string, prefix: string, id: string, suffix: string, domain: string) {
    id != "" && mxid == "@" + prefix + id + suffix + ":" + domain
  }

  lemma SplitAtOnlyPlaceholder(template: string, prefix: string, suffix: string)
    requires OnePlaceholder(template, prefix, suffix)
    ensures SplitOnce(template, PLACEHOLDER) == Some((prefix, suffix))
  {
    assert template[|prefix|..|prefix| + |PLACEHOLDER|] == PLACEHOLDER;
    assert MatchAt(template, PLACEHOLDER, |prefix|);
    assert FindFrom(template, PLACEHOLDER, 0) == Some(|prefix|);
    assert template[..|prefix|] == prefix && template[|prefix| + |PLACEHOLDER|..] == suffix;
  }

  lemma FormatWithOnePlaceholder(template: string, prefix: string, suffix: string, id: string)
    requires OnePlaceholder(template, prefix, suffix)
    ensures FormatUsername(template, id) == prefix + id + suffix
  {
    SplitAtOnlyPlaceholder(template, prefix, suffix);
    assert FindFrom(template, PLACEHOLDER, 0) == Some(|prefix|);
    assert template[..|prefix|] == prefix && template[|prefix| + |PLACEHOLDER|..] == suffix;
    assert Replace(suffix, PLACEHOLDER, id) == suffix by {
      if FindFrom(suffix, PLACEHOLDER, 0).Some? {
        var j := FindFrom(suffix, PLACEHOLDER, 0).value;
        var k := |prefix| + |PLACEHOLDER| + j;
        assert template[k..k + |PLACEHOLDER|] == suffix[j..j + |PLACEHOLDER|];
        assert MatchAt(template, PLACEHOLDER, k);
      }
    }
  }

  /** What is left of the recogniser once the sender is split into localpart and domain. */
  lemma OwnMxidOnParts(localpart: string, d: string, template: string, domain: string)
    requires ':' !in d
    ensures IsOwnMxid(Mxid(localpart, d), template, domain) <==>
            EqIgnoreAsciiCase(d, domain) && FitsTemplate(localpart, template)
  {
    assert Mxid(localpart, d)[1..] == localpart + [':'] + d;
    RSplitOnceUnique(localpart, ':', d);
  }

  /** An accepted identifier splits into a localpart and a domain without ':'. */
  lemma OwnMxidSplits(mxid: string, template: string, domain: string) returns (localpart: string, d: string)
    requires IsOwnMxid(mxid, template, domain)
    ensures mxid == Mxid(localpart, d) && ':' !in d
  {
    var parts := RSplitOnce(mxid[1..], ':').value;
    localpart, d := parts.0, parts.1;
    assert mxid == "@" + mxid[1..];
  }

  lemma FitsTemplateExact(localpart: string, template: string, prefix: string, suffix: string)
    requires OnePlaceholder(template, prefix, suffix)
    ensures FitsTemplate(localpart, template) <==>
            |prefix| + |suffix| < |localpart| && prefix <= localpart && EndsWith(localpart, suffix)
  {
    SplitAtOnlyPlaceholder(template, prefix, suffix);
  }

  lemma AcceptedIsPuppet(mxid: string, template: string, prefix: string, suffix: string, domain: string)
    requires OnePlaceholder(template, prefix, suffix)
    requires IsOwnMxid(mxid, template, domain)
    ensures exists id, d :: IsPuppetOf(mxid, prefix, id, suffix, d) && EqIgnoreAsciiCase(d, domain)
  {
    hide IsOwnMxid, FitsTemplate, EqIgnoreAsciiCase;
    var local, d := OwnMxidSplits(mxid, template, domain);
    OwnMxidOnParts(local, d, template, domain);
    FitsTemplateExact(local, template, prefix, suffix);
    var id := local[|prefix|..|local| - |suffix|];
    PuppetLocalpart(local, prefix, suffix);
    assert Mxid(local, d) == "@" + prefix + id + suffix + ":" + d;
    assert IsPuppetOf(mxid, prefix, id, suffix, d);
  }

  lemma PuppetIsAccepted(mxid: string, template: string, prefix: string, id: string, suffix: string, d: string,
                         domain: string)
    requires OnePlaceholder(template, prefix, suffix) && ':' !in domain
    requires IsPuppetOf(mxid, prefix, id, suffix, d) && EqIgnoreAsciiCase(d, domain)
    ensures IsOwnMxid(mxid, template, domain)
  {
    NoColonUpToCase(d, domain);
    var local := prefix + id + suffix;
    assert mxid == Mxid(local, d);
    assert EndsWith(local, suffix);
    FitsTemplateExact(local, template, prefix, suffix);
    OwnMxidOnParts(local, d, template, domain);
  }

  /**
   * The recogniser is exact: it accepts a sender iff, blanks trimmed, it is a puppet identifier with a
   * non-empty user part and the configured domain in any ASCII case.
   */
  lemma RecogniserExact(sender: string, template: string, prefix: string, suffix: string, domain: string)
    requires OnePlaceholder(template, prefix, suffix) && ':' !in domain
    ensures SenderMatchesPuppet(sender, template, domain) <==>
            exists id, d :: IsPuppetOf(Trim(sender), prefix, id, suffix, d) && EqIgnoreAsciiCase(d, domain)
  {
    if SenderMatchesPuppet(sender, template, domain) {
      AcceptedIsPuppet(Trim(sender), template, prefix, suffix, domain);
    } else if id, d :| IsPuppetOf(Trim(sender), prefix, id, suffix, d) && EqIgnoreAsciiCase(d, domain) {
      PuppetIsAccepted(Trim(sender), template, prefix, id, suffix, d, domain);
    }
  }

  lemma PuppetLocalpart(local: string, prefix: string, suffix: string)
    requires |prefix| + |suffix| < |local| && prefix <= local && EndsWith(local, suffix)
    ensures local == prefix + local[|prefix|..|local| - |suffix|] + suffix
  {
  }

  lemma NoColonUpToCase(d: string, domain: string)
    requires EqIgnoreAsciiCase(d, domain) && ':' !in domain
    ensures ':' !in d
  {
    forall i | 0 <= i < |d|
      ensures d[i] != ':'
    {
      assert ToAsciiLower(d[i]) == ToAsciiLower(domain[i]);
    }
  }

  lemma {:induction false} TrimmedMxid(localpart: string, domain: string)
    ensures Trim(Mxid(localpart, domain)) == Mxid(localpart, TrimEnd(domain))
  {
    var kept := TrimEnd(domain);
    assert Mxid(localpart, domain) == Mxid(localpart, kept) + domain[|kept|..];
    TrimDropsBlankTail(Mxid(localpart, kept), domain[|kept|..]);
  }

  /** No identifier in a domain that contains ':' is accepted, because the split takes the text after the last one. */
  lemma DomainWithColonNeverMatches(localpart: string, kept: string, template: string, domain: string)
    requires ':' in kept && |kept| <= |domain|
    ensures !IsOwnMxid(Mxid(localpart, kept), template, domain)
  {
    var (before, after) := RSplitOnce(kept, ':').value;
    assert Mxid(localpart, kept) == Mxid(localpart + ":" + before, after);
    OwnMxidOnParts(localpart + ":" + before, after, template, domain);
  }

  // ----- The bridge's own identifiers -----

  /** No second placeholder. */
  predicate AtMostOnePlaceholder(template: string) {
    match SplitOnce(template, PLACEHOLDER)
    case None => true
    case Some((_, suffix)) => FindFrom(suffix, PLACEHOLDER, 0).None?
  }

  lemma SplitAround(template: string, prefix: string, suffix: string)
    requires SplitOnce(template, PLACEHOLDER) == Some((prefix, suffix))
    ensures FindFrom(template, PLACEHOLDER, 0) == Some(|prefix|) && template == prefix + PLACEHOLDER + suffix
  {
    var i := FindFrom(template, PLACEHOLDER, 0).value;
    assert template[i..i + |PLACEHOLDER|] == PLACEHOLDER;
    assert template == template[..i] + template[i..i + |PLACEHOLDER|] + template[i + |PLACEHOLDER|..];
  }

  /** Placeholders do not overlap. */
  lemma PlaceholdersApart(s: string, i: nat, j: nat)
    requires MatchAt(s, PLACEHOLDER, i) && MatchAt(s, PLACEHOLDER, j) && i < j
    ensures i + |PLACEHOLDER| <= j
  {
    assert s[i..i + 5][0] == s[i] == '{' && s[i..i + 5][1] == s[i + 1] == '{' && s[i..i + 5][2] == s[i + 2] == '.';
    assert s[i..i + 5][3] == s[i + 3] == '}' && s[i..i + 5][4] == s[i + 4] == '}';
    assert s[j..j + 5][0] == s[j] == '{' && s[j..j + 5][1] == s[j + 1] == '{';
  }

  /** The placeholder of the first split is the only one iff there is at most one. */
  lemma OnlyOneIff(template: string, prefix: string, suffix: string)
    requires SplitOnce(template, PLACEHOLDER) == Some((prefix, suffix))
    ensures AtMostOnePlaceholder(template) <==> OnePlaceholder(template, prefix, suffix)
  {
    SplitAround(template, prefix, suffix);
    var after := |prefix| + |PLACEHOLDER|;
    if FindFrom(suffix, PLACEHOLDER, 0).Some? {
      var j := FindFrom(suffix, PLACEHOLDER, 0).value;
      assert template[after + j..after + j + |PLACEHOLDER|] == suffix[j..j + |PLACEHOLDER|];
      assert MatchAt(template, PLACEHOLDER, after + j);
    } else {
      forall j | MatchAt(template, PLACEHOLDER, j)
        ensures j == |prefix|
      {
        if j > |prefix| {
          PlaceholdersApart(template, |prefix|, j);
          assert suffix[j - after..j - after + |PLACEHOLDER|] == template[j..j + |PLACEHOLDER|];
          assert MatchAt(suffix, PLACEHOLDER, j - after);
        }
      }
    }
  }

  lemma FormatSplit(template: string, prefix: string, suffix: string, id: string)
    requires SplitOnce(template, PLACEHOLDER) == Some((prefix, suffix))
    ensures FormatUsername(template, id) == prefix + id + Replace(suffix, PLACEHOLDER, id)
  {
    SplitAround(template, prefix, suffix);
  }

  /** The character with `n` others after it. */
  function FromEnd(s: string, n: nat): char
    requires n < |s|
  {
    s[|s| - n - 1]
  }

  lemma FromEndAppend(a: string, b: string, n: nat)
    ensures n < |b| ==> FromEnd(a + b, n) == FromEnd(b, n)
    ensures a != "" && n == |b| ==> FromEnd(a + b, n) == a[|a| - 1]
  {
  }

  lemma EndsSame(s: string, suffix: string, n: nat)
    requires n < |suffix| && n < |s|
    ensures EndsWith(s, suffix) ==> FromEnd(s, n) == FromEnd(suffix, n)
  {
  }

  lemma ReplaceStep(s: string, id: string, i: nat)
    requires FindFrom(s, PLACEHOLDER, 0) == Some(i)
    ensures i + |PLACEHOLDER| <= |s| && s == s[..i + |PLACEHOLDER|] + s[i + |PLACEHOLDER|..] && s[i + 4] == '}'
    ensures Replace(s, PLACEHOLDER, id) == (s[..i] + id) + Replace(s[i + |PLACEHOLDER|..], PLACEHOLDER, id)
  {
    assert s[i..i + |PLACEHOLDER|][4] == s[i + 4] == '}';
  }

  /** Where the last placeholder of a text ended, its replacement ends; what follows is the same. */
  lemma {:induction false} ReplacedTail(s: string, id: string) returns (n: nat)
    requires FindFrom(s, PLACEHOLDER, 0).Some? && id != ""
    ensures n < |s| && FromEnd(s, n) == '}'
    ensures n < |Replace(s, PLACEHOLDER, id)| && FromEnd(Replace(s, PLACEHOLDER, id), n) == id[|id| - 1]
    decreases |s|
  {
    hide Replace, FindFrom, FromEnd;
    var i := FindFrom(s, PLACEHOLDER, 0).value;
    ReplaceStep(s, id, i);
    var head, rest := s[..i + |PLACEHOLDER|], s[i + |PLACEHOLDER|..];
    if FindFrom(rest, PLACEHOLDER, 0).Some? {
      n := ReplacedTail(rest, id);
    } else {
      n := |rest|;
      NothingToReplace(rest, id);
    }
    FromEndAppend(head, rest, n);
    FromEndAppend(s[..i] + id, Replace(rest, PLACEHOLDER, id), n);
  }

  lemma NothingToReplace(s: string, id: string)
    requires FindFrom(s, PLACEHOLDER, 0).None?
    ensures Replace(s, PLACEHOLDER, id) == s
  {
  }

  /** A formatted name fits a template of one placeholder iff the user id is not empty. */
  lemma OneFits(template: string, prefix: string, suffix: string, id: string)
    requires OnePlaceholder(template, prefix, suffix)
    ensures FitsTemplate(FormatUsername(template, id), template) <==> id != ""
  {
    var local := prefix + id + suffix;
    FormatWithOnePlaceholder(template, prefix, suffix, id);
    assert EndsWith(local, suffix);
    FitsTemplateExact(local, template, prefix, suffix);
  }

  /** With a second placeholder no formatted name fits, unless the user id ends like a placeholder. */
  lemma SeveralMiss(template: string, prefix: string, suffix: string, id: string)
    requires SplitOnce(template, PLACEHOLDER) == Some((prefix, suffix)) && !AtMostOnePlaceholder(template)
    requires id != "" && id[|id| - 1] != '}'
    ensures !FitsTemplate(FormatUsername(template, id), template)
  {
    hide Replace, FindFrom, FromEnd, EndsWith, FormatUsername;
    FormatSplit(template, prefix, suffix, id);
    var n := ReplacedTail(suffix, id);
    var replaced := Replace(suffix, PLACEHOLDER, id);
    FromEndAppend(prefix + id, replaced, n);
    EndsSame(prefix + id + replaced, suffix, n);
  }

  lemma DomainUpToBlanks(domain: string)
    ensures EqIgnoreAsciiCase(TrimEnd(domain), domain) <==> TrimEnd(domain) == domain
  {
    EqIgnoreAsciiCaseReflexive(domain);
  }

  predicate PlainDomain(domain: string) {
    ':' !in domain && (domain == "" || !IsSpace(domain[|domain| - 1]))
  }

  /**
   * The identifier the bridge makes for a Feishu user is recognised as its own iff the formatted name fits the template
   * and the domain has neither a ':' (so no port) nor a trailing blank. With one placeholder the name fits iff the user
   * id is not empty; with several it does not, unless the id ends like a placeholder.
   */
  lemma OwnPuppetRecognised(self: Identity, prefix: string, suffix: string, id: string)
    requires SplitOnce(self.usernameTemplate, PLACEHOLDER) == Some((prefix, suffix))
    ensures SenderMatchesPuppet(PuppetMxid(self, id), self.usernameTemplate, self.domain) <==>
            FitsTemplate(FormatUsername(self.usernameTemplate, id), self.usernameTemplate) && PlainDomain(self.domain)
    ensures AtMostOnePlaceholder(self.usernameTemplate) ==>
            (FitsTemplate(FormatUsername(self.usernameTemplate, id), self.usernameTemplate) <==> id != "")
    ensures !AtMostOnePlaceholder(self.usernameTemplate) && id != "" && id[|id| - 1] != '}' ==>
            !FitsTemplate(FormatUsername(self.usernameTemplate, id), self.usernameTemplate)
  {
    hide IsOwnMxid, FitsTemplate, EqIgnoreAsciiCase, Trim, TrimEnd, OnePlaceholder, FormatUsername, IsSpace, SplitOnce,
      AtMostOnePlaceholder;
    var template, local, kept := self.usernameTemplate, FormatUsername(self.usernameTemplate, id), TrimEnd(self.domain);
    if AtMostOnePlaceholder(template) {
      OnlyOneIff(template, prefix, suffix);
      OneFits(template, prefix, suffix, id);
    } else if id != "" && id[|id| - 1] != '}' {
      SeveralMiss(template, prefix, suffix, id);
    }
    TrimmedMxid(local, self.domain);
    BlankTailHasNoColon(self.domain);
    if ':' in kept {
      DomainWithColonNeverMatches(local, kept, template, self.domain);
    } else {
      OwnMxidOnParts(local, kept, template, self.domain);
      DomainUpToBlanks(self.domain);
    }
  }

  lemma BlankTailHasNoColon(domain: string)
    ensures ':' in domain ==> ':' in TrimEnd(domain)
    ensures TrimEnd(domain) == domain <==> domain == "" || !IsSpace(domain[|domain| - 1])
  {
    var kept := TrimEnd(domain);
    BlankHasNoColon(domain[|kept|..]);
    assert domain == kept + domain[|kept|..];
  }

  lemma BlankHasNoColon(s: string)
    requires IsBlank(s)
    ensures ':' !in s
  {
    assert !IsSpace(':');
  }

  /** What an installation must satisfy for its own messages to be recognised. */
  predicate SelfRecognising(self: Identity) {
    Trim(self.senderLocalpart) != "" && PlainDomain(self.domain) && AtMostOnePlaceholder(self.usernameTemplate)
  }

  /** The configuration is refused without a placeholder. */
  predicate HasPlaceholder(template: string) {
    FindFrom(template, PLACEHOLDER, 0).Some?
  }

  lemma BotRecognised(self: Identity)
    ensures SenderMatchesBridge(BotMxid(self), self)
  {
    EqIgnoreAsciiCaseReflexive(BotMxid(self));
  }

  lemma PuppetRecognised(self: Identity, id: string)
    requires HasPlaceholder(self.usernameTemplate) && SelfRecognising(self) && id != ""
    ensures SenderMatchesBridge(PuppetMxid(self, id), self)
  {
    hide SenderMatchesPuppet, Trim, FitsTemplate, PlainDomain, AtMostOnePlaceholder, EqIgnoreAsciiCase, FormatUsername;
    var (prefix, suffix) := SplitOnce(self.usernameTemplate, PLACEHOLDER).value;
    OwnPuppetRecognised(self, prefix, suffix, id);
  }

  /**
   * Exactly when the bridge knows all its puppets. A blank registration localpart returns before the puppet test,
   * so it belongs to the condition although no puppet's name depends on it; a second placeholder is filled in when a
   * name is made, and taken literally when it is recognised.
   */
  lemma EveryPuppetRecognised(self: Identity)
    requires HasPlaceholder(self.usernameTemplate)
    ensures (forall id | id != "" :: SenderMatchesBridge(PuppetMxid(self, id), self)) <==> SelfRecognising(self)
  {
    hide SenderMatchesBridge, SelfRecognising, HasPlaceholder;
    if SelfRecognising(self) {
      forall id | id != ""
        ensures SenderMatchesBridge(PuppetMxid(self, id), self)
      {
        PuppetRecognised(self, id);
      }
    } else {
      var id := LongPuppetMissed(self);
    }
  }

  /** A puppet with a name too long to be taken for the bot escapes a bridge that is not self-recognising. */
  lemma LongPuppetMissed(self: Identity) returns (id: string)
    requires HasPlaceholder(self.usernameTemplate) && !SelfRecognising(self)
    ensures id != "" && !SenderMatchesBridge(PuppetMxid(self, id), self)
  {
    hide SenderMatchesPuppet, Trim, FitsTemplate, PlainDomain, AtMostOnePlaceholder, FormatUsername, Replace;
    var n := |BotMxid(self)| + |self.senderLocalpart| + |self.domain| + 2;
    id := seq(n, i => 'u');
    assert id[|id| - 1] == 'u';
    var (prefix, suffix) := SplitOnce(self.usernameTemplate, PLACEHOLDER).value;
    FormatSplit(self.usernameTemplate, prefix, suffix, id);
    OwnPuppetRecognised(self, prefix, suffix, id);
    TrimNotLonger(self.senderLocalpart);
    var mxid := PuppetMxid(self, id);
    assert |mxid| > |BotMxid(self)| && |mxid| > |Mxid(Trim(self.senderLocalpart), self.domain)|;
  }

  lemma TrimNotLonger(s: string)
    ensures |Trim(s)| <= |s|
  {
  }
}
