/** What the scores of `Scoring` measure, in terms of words and substrings alone. */
module ScoreMeaning {
  import opened Scoring

  // ---------- words of substance ----------

  /** `w` is one of the words of `text` that count: at least four characters, or a digit. */
  predicate Counts(text: string, w: string) {
    w in Tokens(text) && (|w| >= 4 || exists i :: 0 <= i < |w| && '0' <= w[i] <= '9')
  }

  /** `needle` stands somewhere in `hay`. */
  ghost predicate StandsIn(needle: string, hay: string) {
    exists before, after :: hay == before + needle + after
  }

  /** Different words of substance of `item` that `text` has as well. */
  predicate Shares(text: string, item: string, words: seq<string>) {
    && (forall i, k :: 0 <= i < k < |words| ==> words[i] != words[k])
    && (forall i :: 0 <= i < |words| ==> Counts(item, words[i]) && words[i] in Tokens(text))
  }

  ghost predicate SharesMany(text: string, item: string, n: nat) {
    exists words :: |words| == n && Shares(text, item, words)
  }

  ghost predicate SharesAll(text: string, item: string) {
    && (exists w :: Counts(item, w))
    && (forall w :: Counts(item, w) ==> w in Tokens(text))
  }

  /** An expected item is caught by a report that contains it, or has three of its words of
      substance, or all of them when it has fewer. */
  ghost predicate Caught(output: string, item: string) {
    StandsIn(Normalize(item), Normalize(output)) || SharesMany(output, item, 3) || SharesAll(output, item)
  }

  lemma TokensKept(text: string)
    ensures forall w, i :: w in Tokens(text) && 0 <= i < |w| ==> Kept(w[i])
  { }

  lemma KeptDigit(c: char)
    requires Kept(c)
    ensures Digit(c) <==> '0' <= c <= '9'
  { }

  /** The important terms of a normalised text are its words of substance. */
  lemma TermsAre(text: string)
    ensures forall w :: w in ImportantTerms(Normalize(text)) <==> Counts(text, w)
  {
    NormalizedWords(text);
    TokensKept(text);
    forall w | w in Tokens(text) ensures Important(w) <==> Counts(text, w) {
      forall i | 0 <= i < |w| ensures Digit(w[i]) <==> '0' <= w[i] <= '9' { KeptDigit(w[i]); }
      hide Digit;
    }
    hide Important, Tokens, Normalize, Words, Digit;
  }

  lemma ContainsIs(hay: string, needle: string)
    ensures Contains(hay, needle) <==> StandsIn(needle, hay)
  {
    if Contains(hay, needle) {
      var i :| 0 <= i <= |hay| && FoundAt(hay, needle, i);
      assert hay == hay[..i] + needle + hay[i + |needle|..];
    }
    if StandsIn(needle, hay) {
      var before, after :| hay == before + needle + after;
      assert FoundAt(hay, needle, |before|);
    }
  }

  function Listed(words: seq<string>): set<string> {
    set w | w in words
  }

  lemma {:induction false} ListedSize(words: seq<string>)
    requires forall i, k :: 0 <= i < k < |words| ==> words[i] != words[k]
    ensures |Listed(words)| == |words|
  {
    if words != [] {
      var n := |words| - 1;
      ListedSize(words[..n]);
      assert words == words[..n] + [words[n]];
      assert Listed(words) == Listed(words[..n]) + {words[n]};
    }
  }

  /** A set of at least `n` words lists `n` different ones. */
  lemma {:induction false} Choose(terms: set<string>, n: nat) returns (words: seq<string>)
    requires n <= |terms|
    ensures |words| == n && (forall i :: 0 <= i < n ==> words[i] in terms)
    ensures forall i, k :: 0 <= i < k < n ==> words[i] != words[k]
    decreases n
  {
    if n == 0 {
      words := [];
    } else {
      var w :| w in terms;
      var rest := Choose(terms - {w}, n - 1);
      words := rest + [w];
    }
  }

  /** Common terms are counted one by one. */
  lemma SharedIs(text: string, item: string, n: nat)
    ensures |ImportantTerms(Normalize(item)) * ImportantTerms(Normalize(text))| >= n <==> SharesMany(text, item, n)
  {
    hide ImportantTerms, Normalize, Tokens;
    TermsAre(text);
    TermsAre(item);
    var common := ImportantTerms(Normalize(item)) * ImportantTerms(Normalize(text));
    if |common| >= n {
      var words := Choose(common, n);
      assert Shares(text, item, words);
    }
    if SharesMany(text, item, n) {
      var words :| |words| == n && Shares(text, item, words);
      ListedSize(words);
      Subset(Listed(words), common);
    }
  }

  lemma SharesAllIs(text: string, item: string)
    ensures var wanted, found := ImportantTerms(Normalize(item)), ImportantTerms(Normalize(text));
      SharesAll(text, item) <==> wanted != {} && wanted <= found
  {
    hide ImportantTerms, Normalize, Tokens;
    TermsAre(text);
    TermsAre(item);
  }

  lemma AllOrThree(wanted: set<string>, found: set<string>)
    requires wanted != {}
    ensures |wanted * found| >= Min(3, |wanted|) <==> |wanted * found| >= 3 || wanted <= found
  {
    Subset(wanted * found, wanted);
    if wanted <= found {
      assert wanted * found == wanted;
    } else {
      var w :| w in wanted && w !in found;
      Subset(wanted * found, wanted - {w});
    }
  }

  /** The test of the scorer catches exactly what it is meant to. */
  lemma CapturedIsCaught(output: string, item: string)
    ensures Captured(Normalize(output), item) <==> Caught(output, item)
  {
    hide ImportantTerms, Normalize, Contains, StandsIn, SharesMany, SharesAll;
    var wanted, found := ImportantTerms(Normalize(item)), ImportantTerms(Normalize(output));
    ContainsIs(Normalize(output), Normalize(item));
    SharedIs(output, item, 3);
    SharesAllIs(output, item);
    if wanted != {} { AllOrThree(wanted, found); } else { assert wanted * found == {}; }
  }

  /** A report that shares at most two words of substance with an item of at least three,
      and does not contain it, does not capture it. */
  lemma TwoWordsAreNotEnough(output: string, item: string)
    requires SharesMany(item, item, 3) && !SharesMany(output, item, 3)
    requires !StandsIn(Normalize(item), Normalize(output))
    ensures !Captured(Normalize(output), item)
  {
    CapturedIsCaught(output, item);
    if SharesAll(output, item) {
      var words :| |words| == 3 && Shares(item, item, words);
      assert Shares(output, item, words);
    }
  }

  // ---------- accuracy and completeness ----------

  /** The places of `items` that the report catches. */
  ghost function CaughtAt(output: string, items: seq<string>): set<nat> {
    set i: nat | i < |items| && Caught(output, items[i])
  }

  lemma {:induction false} CountIsCaught(output: string, items: seq<string>)
    ensures CountCaptured(output, items) == |CaughtAt(output, items)|
  {
    hide Captured, Caught, Normalize;
    if items == [] {
      assert CaughtAt(output, items) == {};
    } else {
      var n: nat := |items| - 1;
      CountIsCaught(output, items[..n]);
      CapturedIsCaught(output, items[n]);
      assert CaughtAt(output, items[..n]) == CaughtAt(output, items) - {n};
    }
  }

  lemma {:induction false} CountConcat(output: string, a: seq<string>, b: seq<string>)
    ensures CountCaptured(output, a + b) == CountCaptured(output, a) + CountCaptured(output, b)
  {
    hide Captured, Normalize;
    if b == [] {
      assert a + b == a;
    } else {
      assert (a + b)[..|a + b| - 1] == a + b[..|b| - 1];
      CountConcat(output, a, b[..|b| - 1]);
    }
  }

  /** A rounded share of `d`, or 0 of nothing. */
  function Share(n: nat, d: nat, r: real -> real): real {
    if d == 0 then 0.0 else r(n as real / d as real)
  }

  /** Accuracy is the rounded share of the expected facts that the report catches, and
      completeness that of all expected items. */
  lemma AccuracyIsShareCaught(c: Case, output: string, r: real -> real)
    ensures Score(c, Some(output), r).accuracy == Share(|CaughtAt(output, c.facts)|, |c.facts|, r)
    ensures Score(c, Some(output), r).completeness
         == Share(|CaughtAt(output, ExpectedItems(c))|, |ExpectedItems(c)|, r)
    ensures Score(c, None, r) == Score(c, Some(""), r)
  {
    hide CountCaptured, CaughtAt, ThemeItems, TimelineItems, UnsupportedRate;
    var themes, timeline := ThemeItems(c.themes), TimelineItems(c.timeline);
    CountIsCaught(output, c.facts);
    CountIsCaught(output, ExpectedItems(c));
    CountConcat(output, c.facts, c.risks);
    CountConcat(output, c.facts + c.risks, c.recommendations);
    CountConcat(output, c.facts + c.risks + c.recommendations, themes);
    CountConcat(output, c.facts + c.risks + c.recommendations + themes, timeline);
  }

  /** `part` is `s` without the blanks at its ends. */
  predicate Trimmed(s: string, part: string) {
    && (part != "" ==> !Blank(part[0]) && !Blank(part[|part| - 1]))
    && exists i, k :: 0 <= i <= k <= |s| && Within(s, part, i, k)
  }

  predicate Within(s: string, part: string, i: nat, k: nat)
    requires i <= k <= |s|
  {
    && part == s[i..k]
    && (forall a :: 0 <= a < i ==> Blank(s[a])) && (forall a :: k <= a < |s| ==> Blank(s[a]))
  }

  lemma StripStep(s: string)
    ensures s == "" ==> Strip(s) == ""
    ensures s != "" && Blank(s[0]) ==> Strip(s) == Strip(s[1..])
    ensures s != "" && !Blank(s[0]) && Blank(s[|s| - 1]) ==> Strip(s) == Strip(s[..|s| - 1])
    ensures s != "" && !Blank(s[0]) && !Blank(s[|s| - 1]) ==> Strip(s) == s
  {
    hide Blank;
  }

  lemma {:induction false} StripTrims(s: string)
    ensures Trimmed(s, Strip(s))
    decreases |s|
  {
    hide Blank, Strip;
    StripStep(s);
    if s == "" {
      assert Within(s, Strip(s), 0, 0);
    } else if Blank(s[0]) {
      StripTrims(s[1..]);
      var i, k :| 0 <= i <= k <= |s[1..]| && Within(s[1..], Strip(s), i, k);
      assert s[1..][i..k] == s[i + 1..k + 1];
      forall a | k + 1 <= a < |s| ensures Blank(s[a]) { assert s[a] == s[1..][a - 1]; }
      forall a | 0 <= a < i + 1 ensures Blank(s[a]) { if a > 0 { assert s[a] == s[1..][a - 1]; } }
      assert Within(s, Strip(s), i + 1, k + 1);
    } else if Blank(s[|s| - 1]) {
      var init := s[..|s| - 1];
      StripTrims(init);
      var i, k :| 0 <= i <= k <= |init| && Within(init, Strip(s), i, k);
      assert init[i..k] == s[i..k];
      assert Within(s, Strip(s), i, k);
    } else {
      assert Within(s, Strip(s), 0, |s|);
    }
  }

  /** `item` is what one moment of the timeline adds: its time or its event, trimmed. */
  predicate AddedBy(m: Moment, item: string) {
    item != "" && (Trimmed(m.time, item) || Trimmed(m.event, item))
  }

  predicate Unblanked(theme: string, item: string) {
    && |item| == |theme|
    && forall k :: 0 <= k < |theme| ==> item[k] == if theme[k] == '_' then ' ' else theme[k]
  }

  lemma {:induction false} TimelineAdds(timeline: seq<Moment>, item: string)
    ensures item in TimelineItems(timeline) ==> exists i :: 0 <= i < |timeline| && AddedBy(timeline[i], item)
    ensures |TimelineItems(timeline)| <= 2 * |timeline|
    ensures forall i :: 0 <= i < |timeline| ==>
      && (Strip(timeline[i].time) != "" ==> Strip(timeline[i].time) in TimelineItems(timeline))
      && (Strip(timeline[i].event) != "" ==> Strip(timeline[i].event) in TimelineItems(timeline))
  {
    hide Trimmed, Strip;
    if timeline != [] {
      var first, rest := timeline[0], timeline[1..];
      StripTrims(first.time);
      StripTrims(first.event);
      TimelineAdds(rest, item);
      if item in TimelineItems(rest) {
        var i :| 0 <= i < |rest| && AddedBy(rest[i], item);
        assert timeline[i + 1] == rest[i];
      }
    }
  }

  /** What is expected of a report: the facts, risks and recommendations as they stand, each
      theme with blanks for underscores, and what the moments of the timeline add. */
  lemma ExpectedAre(c: Case, item: string)
    ensures item in ExpectedItems(c) ==>
      || item in c.facts || item in c.risks || item in c.recommendations
      || (exists i :: 0 <= i < |c.themes| && Unblanked(c.themes[i], item))
      || (exists i :: 0 <= i < |c.timeline| && AddedBy(c.timeline[i], item))
    ensures item in c.facts || item in c.risks || item in c.recommendations ==> item in ExpectedItems(c)
    ensures forall i :: 0 <= i < |c.themes| && Unblanked(c.themes[i], item) ==> item in ExpectedItems(c)
    ensures item != "" ==>
      forall i :: 0 <= i < |c.timeline| && item in {Strip(c.timeline[i].time), Strip(c.timeline[i].event)} ==>
        item in ExpectedItems(c)
  {
    var themes, timeline := ThemeItems(c.themes), TimelineItems(c.timeline);
    forall i | 0 <= i < |c.themes| ensures Unblanked(c.themes[i], themes[i]) { }
    forall i | 0 <= i < |c.themes| && Unblanked(c.themes[i], item) ensures item == themes[i] { }
    hide Unblanked, TimelineItems, Strip, Spaced, AddedBy;
    TimelineAdds(c.timeline, item);
  }

  // ---------- support ----------

  /** A claim has the backing of the expectations when it says nothing of substance, or when
      every number in it is expected and it contains an expected item or has two words of
      substance in common with one. */
  ghost predicate Backed(claim: string, items: seq<string>) {
    || (forall w :: !Counts(claim, w))
    || (&& (forall n :: n in Numbers(claim) ==> exists i :: 0 <= i < |items| && n in Numbers(items[i]))
        && exists i :: 0 <= i < |items| && Bears(claim, items[i]))
  }

  ghost predicate Bears(claim: string, item: string) {
    (Normalize(item) != "" && StandsIn(Normalize(item), Normalize(claim))) || SharesMany(claim, item, 2)
  }

  lemma BearsIs(claim: string, item: string)
    ensures Backs(Normalize(claim), ImportantTerms(Normalize(claim)), item) <==> Bears(claim, item)
  {
    hide ImportantTerms, Normalize, Contains, StandsIn, SharesMany;
    ContainsIs(Normalize(claim), Normalize(item));
    SharedIs(claim, item, 2);
    var a, b := ImportantTerms(Normalize(claim)), ImportantTerms(Normalize(item));
    assert a * b == b * a;
  }

  /** The test of the scorer supports exactly the claims with backing. */
  lemma SupportedIsBacked(claim: string, items: seq<string>)
    ensures Supported(claim, items) <==> Backed(claim, items)
  {
    hide ImportantTerms, Normalize, Numbers, Backs, Bears, Join, Tokens;
    TermsAre(claim);
    NumbersOfJoin(items);
    forall i | 0 <= i < |items|
      ensures Backs(Normalize(claim), ImportantTerms(Normalize(claim)), items[i]) <==> Bears(claim, items[i])
    { BearsIs(claim, items[i]); }
  }

  /** Claims that share fewer than two words of substance with each item, and contain none,
      are unsupported as soon as they have a word of substance. */
  lemma OneWordIsNotEnough(claim: string, items: seq<string>, w: string)
    requires Counts(claim, w)
    requires forall i :: 0 <= i < |items| ==>
      && !SharesMany(claim, items[i], 2)
      && (Normalize(items[i]) == "" || !StandsIn(Normalize(items[i]), Normalize(claim)))
    ensures !Supported(claim, items)
  {
    hide Normalize, Numbers, Supported, SharesMany, StandsIn, Tokens, Counts;
    SupportedIsBacked(claim, items);
  }

  ghost function UnbackedAt(claims: seq<string>, items: seq<string>): set<nat> {
    set i: nat | i < |claims| && !Backed(claims[i], items)
  }

  lemma {:induction false} CountIsBacked(claims: seq<string>, items: seq<string>)
    ensures |claims| - CountSupported(claims, items) == |UnbackedAt(claims, items)|
  {
    hide Supported, Backed;
    if claims == [] {
      assert UnbackedAt(claims, items) == {};
    } else {
      var n: nat := |claims| - 1;
      CountIsBacked(claims[..n], items);
      SupportedIsBacked(claims[n], items);
      assert UnbackedAt(claims[..n], items) == UnbackedAt(claims, items) - {n};
    }
  }

  /** The unsupported rate is the rounded share of the claims without backing. */
  lemma RateIsShareUnbacked(c: Case, output: string, r: real -> real)
    ensures Score(c, Some(output), r).unsupported
         == Share(|UnbackedAt(Claims(output), ExpectedItems(c))|, |Claims(output)|, r)
  {
    hide Claims, ExpectedItems, CountSupported, CountCaptured, UnbackedAt;
    CountIsBacked(Claims(output), ExpectedItems(c));
  }

  // ---------- where claims end ----------

  lemma SeparatorIsNoDigit(sep: char)
    requires sep in "\n;."
    ensures !Digit(sep)
  { }

  /** Neither text has a digit next to the separator, which a point needs; a line break and a
      semicolon separate anyhow. */
  predicate Separates(x: string, sep: char, y: string) {
    || sep in "\n;"
    || (sep == '.' && (x == "" || !Digit(x[|x| - 1])) && (y == "" || !Digit(y[0])))
  }

  lemma ProtectStep(s: string, after: bool)
    requires s != ""
    ensures Protect(s, after)
         == (if s[0] == '.' && after && |s| > 1 && Digit(s[1]) then "<decimal>" else [s[0]])
            + Protect(s[1..], Digit(s[0]))
  { }

  lemma {:induction false} ProtectAround(x: string, sep: char, y: string, after: bool)
    requires Separates(x, sep, y) && (x == "" && sep == '.' ==> !after)
    ensures Protect(x + [sep] + y, after) == Protect(x, after) + [sep] + Protect(y, false)
  {
    SeparatorIsNoDigit(sep);
    hide Digit, Protect;
    var s := x + [sep] + y;
    ProtectStep(s, after);
    if x == "" {
      ProtectNothing(after);
      assert s[1..] == y && s[0] == sep;
    } else {
      ProtectStep(x, after);
      Onwards(x, sep, y);
      ProtectAround(x[1..], sep, y, Digit(x[0]));
      var head := if x[0] == '.' && after && |x| > 1 && Digit(x[1]) then "<decimal>" else [x[0]];
      Regroup(head, Protect(x[1..], Digit(x[0])), sep, Protect(y, false));
    }
  }

  lemma Onwards(x: string, sep: char, y: string)
    requires x != ""
    ensures var s := x + [sep] + y;
      && s[0] == x[0] && s[1..] == x[1..] + [sep] + y
      && (|x| > 1 ==> s[1] == x[1] && x[1..][|x| - 2] == x[|x| - 1]) && (|x| == 1 ==> s[1] == sep)
  { }

  lemma Regroup(a: string, b: string, sep: char, c: string)
    ensures a + (b + [sep] + c) == (a + b) + [sep] + c
  { }

  lemma ProtectNothing(after: bool)
    ensures Protect("", after) == ""
  { }

  lemma {:induction false} SplitAround(x: string, sep: char, y: string, after: bool)
    requires Separates(x, sep, y) && (x == "" && sep == '.' ==> !after)
    ensures Split(x + [sep] + y, after) == Split(x, after) + Split(y, false)
  {
    SeparatorIsNoDigit(sep);
    hide Digit, Split;
    var s := x + [sep] + y;
    SplitStep(s, after);
    if x == "" {
      SplitNothing(after);
      assert s[1..] == y && s[0] == sep;
      assert |s| > 1 ==> s[1] == y[0];
      assert Cut(s, after);
    } else {
      Onwards(x, sep, y);
      assert Cut(s, after) == Cut(x, after);
      SplitAround(x[1..], sep, y, Digit(x[0]));
      SplitStep(x, after);
      FirstPiece(Split(x[1..], Digit(x[0])), Split(y, false), x[0]);
    }
  }

  lemma SplitNothing(after: bool)
    ensures Split("", after) == [""]
  { }

  lemma {:induction false} ProtectEnds(x: string, after: bool)
    ensures var p := Protect(x, after);
      x != "" && !Digit(x[|x| - 1]) ==> p != "" && !Digit(p[|p| - 1])
    ensures x != "" && !Digit(x[0]) && !after ==> Protect(x, after) != "" && Protect(x, after)[0] == x[0]
    ensures x == "" ==> Protect(x, after) == ""
  {
    hide Digit;
    if |x| > 1 { ProtectEnds(x[1..], Digit(x[0])); }
  }

  /** A line break, a semicolon, and a point that no digit touches end a claim: the claims of
      the whole are those of the parts. */
  lemma ClaimsEnd(x: string, sep: char, y: string)
    requires Separates(x, sep, y)
    ensures Claims(x + [sep] + y) == Claims(x) + Claims(y)
  {
    hide Keep, Split, Protect, Digit;
    ProtectAround(x, sep, y, false);
    ProtectEnds(x, false);
    ProtectEnds(y, false);
    SplitAround(Protect(x, false), sep, Protect(y, false), false);
    KeepConcat(Split(Protect(x, false), false), Split(Protect(y, false), false));
  }

  lemma StripOnlyTrims(text: string)
    requires forall i :: 0 <= i < |text| ==> text[i] != '<'
    ensures forall i :: 0 <= i < |Strip(text)| ==> Strip(text)[i] != '<'
  {
    hide Strip, Blank;
    StripTrims(text);
    var i, k :| 0 <= i <= k <= |text| && Within(text, Strip(text), i, k);
  }

  lemma KeepOne(piece: string)
    ensures var claim := Restore(Strip(piece)); Keep([piece]) == if Scored(claim) then [claim] else []
  {
    hide Scored, Restore, Strip;
    assert [piece][1..] == [];
  }

  /** Without a separator a text is one claim, trimmed, or none when it is a heading. */
  lemma OneClaim(text: string)
    requires forall i :: 0 <= i < |text| ==> text[i] !in "\n;.<"
    ensures Claims(text) == if Scored(Strip(text)) then [Strip(text)] else []
  {
    hide Scored, Strip, Digit, Protect, Split, Restore, Keep;
    forall i | 0 <= i < |text| ensures text[i] != '<' { assert '<' in "\n;.<"; }
    WholeText(text, false);
    StripOnlyTrims(text);
    Unmarked(Strip(text));
    KeepOne(text);
  }

  lemma {:induction false} WholeText(text: string, after: bool)
    requires forall i :: 0 <= i < |text| ==> text[i] !in "\n;.<"
    ensures Protect(text, after) == text && Split(text, after) == [text]
  {
    hide Digit;
    if text != "" { WholeText(text[1..], Digit(text[0])); }
  }

  lemma {:induction false} Unmarked(text: string)
    requires forall i :: 0 <= i < |text| ==> text[i] != '<'
    ensures Restore(text) == text
  {
    if text != "" {
      assert "<decimal>"[0] == '<';
      Unmarked(text[1..]);
    }
  }
}
