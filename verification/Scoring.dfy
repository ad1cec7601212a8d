/** Deterministic scores of a generated report against the expectations of a test case.

    Everything is computed from text: words, numbers and substrings of normalised strings.
    The scores are meant to reward a report for what it adds. */
module Scoring {

  datatype Option<+T> = None | Some(value: T)

  // ---------- characters ----------

  /** The first code point of each block of ten decimal digits beyond the ASCII ones. */
  const DigitBlocks: seq<int> := [
    0x0660, 0x06F0, 0x07C0, 0x0966, 0x09E6, 0x0A66, 0x0AE6, 0x0B66, 0x0BE6, 0x0C66, 0x0CE6, 0x0D66,
    0x0DE6, 0x0E50, 0x0ED0, 0x0F20, 0x1040, 0x1090, 0x17E0, 0x1810, 0x1946, 0x19D0, 0x1A80, 0x1A90,
    0x1B50, 0x1BB0, 0x1C40, 0x1C50, 0xA620, 0xA8D0, 0xA900, 0xA9D0, 0xA9F0, 0xAA50, 0xABF0, 0xFF10,
    0x104A0, 0x10D30, 0x11066, 0x110F0, 0x11136, 0x111D0, 0x112F0, 0x11450, 0x114D0, 0x11650,
    0x116C0, 0x11730, 0x118E0, 0x11950, 0x11C50, 0x11D50, 0x11DA0, 0x11F50, 0x16A60, 0x16AC0,
    0x16B50, 0x1D7CE, 0x1D7D8, 0x1D7E2, 0x1D7EC, 0x1D7F6, 0x1E140, 0x1E2F0, 0x1E4D0, 0x1E950, 0x1FBF0]

  /** What the pattern \d matches. */
  predicate Digit(c: char) {
    || '0' <= c <= '9'
    || (c as int >= 0x0660
        && exists i :: 0 <= i < |DigitBlocks| && DigitBlocks[i] <= c as int < DigitBlocks[i] + 10)
  }

  predicate Blank(c: char) {
    || '\t' <= c <= '\r' || '\U{1C}' <= c <= ' ' || c == '\U{85}' || c == '\U{A0}' || c == '\U{1680}'
    || '\U{2000}' <= c <= '\U{200A}' || c == '\U{2028}' || c == '\U{2029}' || c == '\U{202F}'
    || c == '\U{205F}' || c == '\U{3000}'
  }

  /** The characters that survive normalisation. */
  predicate Kept(c: char) {
    'a' <= c <= 'z' || '0' <= c <= '9' || c in ".%$"
  }

  predicate NotSpace(c: char) {
    c != ' '
  }

  /** Lower case, exact as far as normalisation can see it: beside the ASCII capitals only
      the Kelvin sign and the dotted capital I become a kept letter. */
  function LowerChar(c: char): string {
    if 'A' <= c <= 'Z' then [(c as int + 32) as char]
    else if c == '\U{212A}' then "k"
    else if c == '\U{130}' then "i\U{307}"
    else [c]
  }

  function Lower(s: string): string {
    if s == "" then "" else LowerChar(s[0]) + Lower(s[1..])
  }

  lemma {:induction false} LowerConcat(a: string, b: string)
    ensures Lower(a + b) == Lower(a) + Lower(b)
  {
    if a == "" {
      assert a + b == b;
    } else {
      assert (a + b)[1..] == a[1..] + b;
      LowerConcat(a[1..], b);
    }
  }

  // ---------- runs of characters ----------

  function RunLength(s: string, p: char -> bool): (n: nat)
    ensures n <= |s|
    ensures forall i :: 0 <= i < n ==> p(s[i])
    ensures n < |s| ==> !p(s[n])
  {
    if s == "" || !p(s[0]) then 0 else 1 + RunLength(s[1..], p)
  }

  /** The maximal runs of characters that satisfy `p`: what is left of `s` when every run
      of other characters becomes a blank and the result is split at blanks. */
  function Runs(s: string, p: char -> bool): (r: seq<string>)
    ensures forall i :: 0 <= i < |r| ==> r[i] != "" && forall k :: 0 <= k < |r[i]| ==> p(r[i][k])
    decreases |s|
  {
    if s == "" then []
    else if !p(s[0]) then Runs(s[1..], p)
    else
      var n := RunLength(s, p);
      [s[..n]] + Runs(s[n..], p)
  }

  lemma RunLengthConcat(x: string, sep: char, y: string, p: char -> bool)
    requires !p(sep)
    ensures RunLength(x + [sep] + y, p) == RunLength(x, p)
  {
    var n, whole := RunLength(x, p), x + [sep] + y;
    var m := RunLength(whole, p);
    assert forall i :: 0 <= i < |x| ==> whole[i] == x[i];
    assert whole[|x|] == sep;
  }

  lemma RunsSkip(s: string, p: char -> bool)
    requires s != "" && !p(s[0])
    ensures Runs(s, p) == Runs(s[1..], p)
  { }

  lemma RunsTake(s: string, p: char -> bool)
    requires s != "" && p(s[0])
    ensures var n := RunLength(s, p); n > 0 && Runs(s, p) == [s[..n]] + Runs(s[n..], p)
  { }

  lemma RunsNone(p: char -> bool)
    ensures Runs("", p) == []
  { }

  /** No run crosses a separator. */
  lemma {:induction false} RunsConcat(x: string, sep: char, y: string, p: char -> bool)
    requires !p(sep)
    ensures Runs(x + [sep] + y, p) == Runs(x, p) + Runs(y, p)
    decreases |x|
  {
    hide Runs, RunLength;
    var whole := x + [sep] + y;
    if x == "" {
      RunsNone(p);
      RunsSkip(whole, p);
      assert whole[1..] == y;
    } else if p(x[0]) {
      var n := RunLength(x, p);
      RunLengthConcat(x, sep, y, p);
      RunsTake(whole, p);
      RunsTake(x, p);
      assert whole[..n] == x[..n] && whole[n..] == x[n..] + [sep] + y;
      RunsConcat(x[n..], sep, y, p);
    } else {
      RunsSkip(whole, p);
      RunsSkip(x, p);
      assert whole[1..] == x[1..] + [sep] + y;
      RunsConcat(x[1..], sep, y, p);
    }
  }

  // ---------- normalisation ----------

  function Join(words: seq<string>): string {
    if words == [] then ""
    else if |words| == 1 then words[0]
    else words[0] + " " + Join(words[1..])
  }

  function Tokens(s: string): seq<string> {
    Runs(Lower(s), Kept)
  }

  function Normalize(s: string): string {
    Join(Tokens(s))
  }

  function Words(s: string): seq<string> {
    Runs(s, NotSpace)
  }

  lemma {:induction false} JoinConcat(a: seq<string>, b: seq<string>)
    ensures Join(a + b) == if a == [] then Join(b) else if b == [] then Join(a) else Join(a) + " " + Join(b)
  {
    if a == [] {
      assert a + b == b;
    } else if b == [] {
      assert a + b == a;
    } else {
      assert (a + b)[1..] == a[1..] + b;
      JoinConcat(a[1..], b);
    }
  }

  lemma WholeRun(w: string, p: char -> bool)
    requires w != "" && forall k :: 0 <= k < |w| ==> p(w[k])
    ensures Runs(w, p) == [w]
  {
    assert RunLength(w, p) == |w|;
    assert w[|w|..] == "" && w[..|w|] == w;
  }

  /** Splitting a normalised text gives back its tokens. */
  lemma {:induction false} WordsOfJoin(words: seq<string>)
    requires forall i :: 0 <= i < |words| ==>
      words[i] != "" && forall k :: 0 <= k < |words[i]| ==> NotSpace(words[i][k])
    ensures Words(Join(words)) == words
  {
    if |words| == 1 {
      WholeRun(words[0], NotSpace);
    } else if |words| > 1 {
      WholeRun(words[0], NotSpace);
      assert words[0] + " " + Join(words[1..]) == words[0] + [' '] + Join(words[1..]);
      RunsConcat(words[0], ' ', Join(words[1..]), NotSpace);
      WordsOfJoin(words[1..]);
    }
  }

  lemma NormalizedWords(s: string)
    ensures Words(Normalize(s)) == Tokens(s)
  {
    forall i, k | 0 <= i < |Tokens(s)| && 0 <= k < |Tokens(s)[i]| ensures NotSpace(Tokens(s)[i][k]) {
      assert Kept(Tokens(s)[i][k]);
    }
    WordsOfJoin(Tokens(s));
  }

  /** The tokens of two lines are those of the first and then those of the second. */
  lemma TokensConcat(x: string, y: string)
    ensures Tokens(x + "\n" + y) == Tokens(x) + Tokens(y)
  {
    LowerConcat(x + "\n", y);
    LowerConcat(x, "\n");
    assert Lower("\n") == "\n";
    assert Lower(x + "\n" + y) == Lower(x) + ['\n'] + Lower(y);
    RunsConcat(Lower(x), '\n', Lower(y), Kept);
  }

  predicate FoundAt(hay: string, needle: string, i: nat) {
    i + |needle| <= |hay| && hay[i..i + |needle|] == needle
  }

  predicate Contains(hay: string, needle: string) {
    exists i :: 0 <= i <= |hay| && FoundAt(hay, needle, i)
  }

  lemma ContainsMore(hay: string, more: string, needle: string)
    requires Contains(hay, needle)
    ensures Contains(hay + more, needle)
  {
    var i :| 0 <= i <= |hay| && FoundAt(hay, needle, i);
    assert FoundAt(hay + more, needle, i);
  }

  predicate Important(term: string) {
    |term| >= 4 || exists i :: 0 <= i < |term| && Digit(term[i])
  }

  function ImportantTerms(s: string): set<string> {
    set t | t in Words(s) && Important(t)
  }

  lemma TermsConcat(x: string, y: string)
    ensures ImportantTerms(Normalize(x)) <= ImportantTerms(Normalize(x + "\n" + y))
  {
    NormalizedWords(x);
    NormalizedWords(x + "\n" + y);
    TokensConcat(x, y);
  }

  lemma Subset<T>(a: set<T>, b: set<T>)
    requires a <= b
    ensures |a| <= |b|
  {
    if a != b {
      var x :| x in b && x !in a;
      Subset(a, b - {x});
    }
  }

  // ---------- captured expectations ----------

  function Min(a: int, b: int): int {
    if a < b then a else b
  }

  predicate Captured(output: string, item: string) {
    var wanted, found := ImportantTerms(Normalize(item)), ImportantTerms(output);
    || Contains(output, Normalize(item))
    || (wanted != {} && |wanted * found| >= Min(3, |wanted|))
  }

  function CountCaptured(output: string, items: seq<string>): (n: nat)
    ensures n <= |items|
  {
    if items == [] then 0
    else
      CountCaptured(output, items[..|items| - 1])
      + if Captured(Normalize(output), items[|items| - 1]) then 1 else 0
  }

  lemma ContainedStays(x: string, y: string, needle: string)
    requires Contains(Normalize(x), needle)
    ensures Contains(Normalize(x + "\n" + y), needle)
  {
    hide Contains, FoundAt, Tokens, Join;
    TokensConcat(x, y);
    JoinConcat(Tokens(x), Tokens(y));
    if Tokens(x) == [] {
      EmptyNeedle(needle, Normalize(x + "\n" + y));
    } else if Tokens(y) != [] {
      assert Normalize(x + "\n" + y) == Normalize(x) + (" " + Normalize(y));
      ContainsMore(Normalize(x), " " + Normalize(y), needle);
    } else {
      assert Normalize(x + "\n" + y) == Normalize(x);
    }
  }

  lemma EmptyNeedle(needle: string, hay: string)
    ensures Contains(Join([]), needle) ==> Contains(hay, needle)
  {
    if Contains(Join([]), needle) {
      assert needle == "";
      assert FoundAt(hay, needle, 0);
    }
  }

  lemma CapturedStays(x: string, y: string, item: string)
    requires Captured(Normalize(x), item)
    ensures Captured(Normalize(x + "\n" + y), item)
  {
    hide Contains, Normalize, ImportantTerms;
    var a, b := Normalize(x), Normalize(x + "\n" + y);
    if Contains(a, Normalize(item)) {
      ContainedStays(x, y, Normalize(item));
    } else {
      TermsConcat(x, y);
      var wanted := ImportantTerms(Normalize(item));
      Subset(wanted * ImportantTerms(a), wanted * ImportantTerms(b));
    }
  }

  lemma {:induction false} CapturedCountGrows(x: string, y: string, items: seq<string>)
    ensures CountCaptured(x, items) <= CountCaptured(x + "\n" + y, items)
  {
    if items != [] {
      CapturedCountGrows(x, y, items[..|items| - 1]);
      if Captured(Normalize(x), items[|items| - 1]) { CapturedStays(x, y, items[|items| - 1]); }
    }
  }

  // ---------- numbers ----------

  /** The length of the number at the start of `s`: an optional dollar sign, digits, an
      optional fraction or clock part, and an optional percent sign; 0 when there is none. */
  function NumberLength(s: string): (n: nat)
    ensures n <= |s|
  {
    var sign := if IsAt(s, 0, "$") then 1 else 0;
    var digits := DigitsAt(s, sign);
    if digits == 0 then 0
    else
      var whole := sign + digits;
      var part := if IsAt(s, whole, ".:") then DigitsAt(s, whole + 1) else 0;
      var end := if part == 0 then whole else whole + 1 + part;
      if IsAt(s, end, "%") then end + 1 else end
  }

  predicate IsAt(s: string, k: nat, any: string) {
    k < |s| && s[k] in any
  }

  function DigitsAt(s: string, k: nat): (n: nat)
    ensures n > 0 ==> k + n <= |s|
  {
    if k <= |s| then RunLength(s[k..], Digit) else 0
  }

  /** Every number in the text, from left to right, without overlaps. */
  function Numbers(s: string): set<string>
    decreases |s|
  {
    if s == "" then {}
    else
      var n := NumberLength(s);
      if n == 0 then Numbers(s[1..]) else {s[..n]} + Numbers(s[n..])
  }

  lemma SpaceIsNoDigit()
    ensures !Digit(' ') && !Digit('\n') && !Digit('.') && !Digit('$')
  { }

  /** Up to a blank, a longer text looks the same. */
  lemma SameBefore(x: string, y: string, k: nat, any: string)
    requires k <= |x| && ' ' !in any
    ensures IsAt(x + " " + y, k, any) == IsAt(x, k, any)
    ensures DigitsAt(x + " " + y, k) == DigitsAt(x, k)
  {
    SpaceIsNoDigit();
    hide Digit;
    var s := x + " " + y;
    assert s[k..] == x[k..] + [' '] + y;
    assert k < |x| ==> s[k] == x[k];
    assert s[|x|] == ' ';
    RunLengthConcat(x[k..], ' ', y, Digit);
  }

  /** A number ends before a blank. */
  lemma NumberLengthConcat(x: string, y: string)
    ensures NumberLength(x + " " + y) == NumberLength(x)
  {
    hide IsAt, DigitsAt;
    SameBefore(x, y, 0, "$");
    var sign := if IsAt(x, 0, "$") then 1 else 0;
    AtMeans(x, 0, "$");
    SameBefore(x, y, sign, "");
    var whole := sign + DigitsAt(x, sign);
    SameBefore(x, y, whole, ".:");
    AtMeans(x, whole, ".:");
    if IsAt(x, whole, ".:") { SameBefore(x, y, whole + 1, ""); }
    var part := if IsAt(x, whole, ".:") then DigitsAt(x, whole + 1) else 0;
    SameBefore(x, y, if part == 0 then whole else whole + 1 + part, "%");
  }

  lemma AtMeans(s: string, k: nat, any: string)
    ensures IsAt(s, k, any) ==> k < |s|
  { }

  lemma {:induction false} NumbersConcat(x: string, y: string)
    ensures Numbers(x + " " + y) == Numbers(x) + Numbers(y)
    decreases |x|
  {
    SpaceIsNoDigit();
    hide Digit;
    var s := x + " " + y;
    if x == "" {
      assert s[1..] == y;
      NumberLengthConcat("", y);
      assert NumberLength("") == 0;
    } else {
      NumberLengthConcat(x, y);
      var n := NumberLength(x);
      var k := if n == 0 then 1 else n;
      assert s[k..] == x[k..] + " " + y && s[..n] == x[..n];
      NumbersConcat(x[k..], y);
    }
  }

  /** The numbers of joined items are the numbers of the items. */
  lemma {:induction false} NumbersOfJoin(items: seq<string>)
    ensures forall n :: n in Numbers(Join(items)) <==> exists i :: 0 <= i < |items| && n in Numbers(items[i])
  {
    if |items| == 1 {
    } else if |items| > 1 {
      NumbersConcat(items[0], Join(items[1..]));
      NumbersOfJoin(items[1..]);
      forall n ensures n in Numbers(Join(items)) <==> exists i :: 0 <= i < |items| && n in Numbers(items[i]) {
        if n in Numbers(Join(items[1..])) {
          var i :| 0 <= i < |items| - 1 && n in Numbers(items[1..][i]);
          assert n in Numbers(items[i + 1]);
        }
        if exists i :: 0 <= i < |items| && n in Numbers(items[i]) {
          var i :| 0 <= i < |items| && n in Numbers(items[i]);
          if i > 0 { assert n in Numbers(items[1..][i - 1]); }
        }
      }
    }
  }

  // ---------- claims ----------

  /** Write a point between digits as a word, so that it does not end a claim; `after` says
      that a digit comes before `s`. */
  function Protect(s: string, after: bool): string {
    if s == "" then ""
    else
      (if s[0] == '.' && after && |s| > 1 && Digit(s[1]) then "<decimal>" else [s[0]])
      + Protect(s[1..], Digit(s[0]))
  }

  predicate Cut(s: string, after: bool)
    requires s != ""
  {
    s[0] in "\n;" || (s[0] == '.' && !after && !(|s| > 1 && Digit(s[1])))
  }

  /** The text between separators.  A run of separators leaves empty pieces between them,
      which are never scored. */
  function Split(s: string, after: bool): (r: seq<string>)
    ensures |r| >= 1
  {
    if s == "" then [""]
    else
      var rest := Split(s[1..], Digit(s[0]));
      if Cut(s, after) then [""] + rest else [[s[0]] + rest[0]] + rest[1..]
  }

  function Strip(s: string): string
    decreases |s|
  {
    if s == "" then ""
    else if Blank(s[0]) then Strip(s[1..])
    else if Blank(s[|s| - 1]) then Strip(s[..|s| - 1])
    else s
  }

  function Restore(s: string): string
    decreases |s|
  {
    if s == "" then ""
    else if "<decimal>" <= s then "." + Restore(s[9..])
    else [s[0]] + Restore(s[1..])
  }

  predicate EndsWith(s: string, suffix: string) {
    |s| >= |suffix| && s[|s| - |suffix|..] == suffix
  }

  /** Headings and empty statements are not claims. */
  predicate Scored(claim: string) {
    var n := Normalize(claim);
    && n != "" && n !in {"executive summary", "summary", "none", "n a", "not applicable",
                         "key risks", "risks", "recommended actions", "recommendations"}
    && !EndsWith(n, "summary") && !EndsWith(n, "include")
  }

  function Keep(pieces: seq<string>): seq<string> {
    if pieces == [] then []
    else
      var claim := Restore(Strip(pieces[0]));
      (if Scored(claim) then [claim] else []) + Keep(pieces[1..])
  }

  function Claims(output: string): seq<string> {
    Keep(Split(Protect(output, false), false))
  }

  lemma {:induction false} ProtectConcat(x: string, y: string, after: bool)
    ensures Protect(x + "\n" + y, after) == Protect(x, after) + "\n" + Protect(y, false)
  {
    SpaceIsNoDigit();
    hide Digit;
    var s := x + "\n" + y;
    if x == "" {
      assert s[1..] == y && s[0] == '\n';
    } else {
      assert s[1..] == x[1..] + "\n" + y && s[0] == x[0];
      assert |x| > 1 ==> s[1] == x[1];
      assert |x| == 1 ==> s[1] == '\n';
      ProtectConcat(x[1..], y, Digit(x[0]));
    }
  }

  /** A line break ends a line as the end of the text does. */
  lemma SameCut(x: string, y: string, after: bool)
    requires x != ""
    ensures Cut(x + "\n" + y, after) == Cut(x, after)
  {
    SpaceIsNoDigit();
    hide Digit;
    var s := x + "\n" + y;
    assert s[0] == x[0];
    assert |x| > 1 ==> s[1] == x[1];
    assert |x| == 1 ==> s[1] == '\n';
  }

  lemma FirstPiece(a: seq<string>, b: seq<string>, c: char)
    requires |a| >= 1
    ensures [[c] + (a + b)[0]] + (a + b)[1..] == ([[c] + a[0]] + a[1..]) + b
    ensures [""] + (a + b) == ([""] + a) + b
  {
    assert (a + b)[0] == a[0] && (a + b)[1..] == a[1..] + b;
  }

  lemma SplitStep(s: string, after: bool)
    requires s != ""
    ensures var rest := Split(s[1..], Digit(s[0]));
      Split(s, after) == if Cut(s, after) then [""] + rest else [[s[0]] + rest[0]] + rest[1..]
  { }

  lemma {:induction false} SplitConcat(x: string, y: string, after: bool)
    ensures Split(x + "\n" + y, after) == Split(x, after) + Split(y, false)
  {
    var s := x + "\n" + y;
    SplitStep(s, after);
    if x == "" {
      SpaceIsNoDigit();
      hide Digit;
      assert s[1..] == y && s[0] == '\n' && Cut(s, after);
    } else {
      SameCut(x, y, after);
      SplitConcat(x[1..], y, Digit(x[0]));
      SplitStep(x, after);
      FirstPiece(Split(x[1..], Digit(x[0])), Split(y, false), x[0]);
      assert s[1..] == x[1..] + "\n" + y && s[0] == x[0];
      hide *;
    }
  }

  lemma {:induction false} KeepConcat(a: seq<string>, b: seq<string>)
    ensures Keep(a + b) == Keep(a) + Keep(b)
  {
    hide Scored, Restore, Strip;
    if a == [] {
      assert a + b == b;
    } else {
      assert (a + b)[1..] == a[1..] + b;
      KeepConcat(a[1..], b);
    }
  }

  /** The claims of two lines are those of the first and then those of the second. */
  lemma ClaimsConcat(x: string, y: string)
    ensures Claims(x + "\n" + y) == Claims(x) + Claims(y)
  {
    hide Keep, Split, Protect;
    ProtectConcat(x, y, false);
    SplitConcat(Protect(x, false), Protect(y, false), false);
    KeepConcat(Split(Protect(x, false), false), Split(Protect(y, false), false));
  }

  /** A claim without words of substance, or one whose numbers are all expected and which
      contains an expected item or shares two of its terms. */
  predicate Supported(claim: string, items: seq<string>) {
    var n := Normalize(claim);
    var terms := ImportantTerms(n);
    || terms == {}
    || (Numbers(claim) <= Numbers(Join(items))
        && exists i :: 0 <= i < |items| && Backs(n, terms, items[i]))
  }

  predicate Backs(claim: string, terms: set<string>, item: string) {
    || (Normalize(item) != "" && Contains(claim, Normalize(item)))
    || |terms * ImportantTerms(Normalize(item))| >= 2
  }

  function CountSupported(claims: seq<string>, items: seq<string>): (n: nat)
    ensures n <= |claims|
  {
    if claims == [] then 0
    else
      CountSupported(claims[..|claims| - 1], items) + if Supported(claims[|claims| - 1], items) then 1 else 0
  }

  lemma SupportedStays(claim: string, items: seq<string>, more: seq<string>)
    requires forall i :: 0 <= i < |items| ==> items[i] in more
    requires Supported(claim, items)
    ensures Supported(claim, more)
  {
    hide Backs, Numbers, Join, Normalize, ImportantTerms;
    NumbersOfJoin(items);
    NumbersOfJoin(more);
    forall n | n in Numbers(Join(items)) ensures n in Numbers(Join(more)) {
      var i :| 0 <= i < |items| && n in Numbers(items[i]);
      var k :| 0 <= k < |more| && more[k] == items[i];
    }
    var terms := ImportantTerms(Normalize(claim));
    if terms != {} {
      var i :| 0 <= i < |items| && Backs(Normalize(claim), terms, items[i]);
      var k :| 0 <= k < |more| && more[k] == items[i];
    }
  }

  lemma {:induction false} SupportedCountGrows(claims: seq<string>, items: seq<string>, more: seq<string>)
    requires forall i :: 0 <= i < |items| ==> items[i] in more
    ensures CountSupported(claims, items) <= CountSupported(claims, more)
  {
    hide Supported;
    if claims != [] {
      SupportedCountGrows(claims[..|claims| - 1], items, more);
      if Supported(claims[|claims| - 1], items) { SupportedStays(claims[|claims| - 1], items, more); }
    }
  }

  // ---------- scores ----------

  /** Rounding to four places: all that is needed of it is that it is monotone and leaves
      0 and 1 alone. */
  ghost predicate RoundingOk(r: real -> real) {
    && r(0.0) == 0.0 && r(1.0) == 1.0
    && forall x, y :: x <= y ==> r(x) <= r(y)
  }

  function SafeRatio(n: nat, d: nat, r: real -> real): real {
    if d == 0 then 0.0 else r(n as real / d as real)
  }

  datatype Moment = Moment(time: string, event: string)

  datatype Case = Case(
    facts: seq<string>, risks: seq<string>, recommendations: seq<string>,
    themes: seq<string>, timeline: seq<Moment>)

  function Spaced(s: string): string {
    seq(|s|, i requires 0 <= i < |s| => if s[i] == '_' then ' ' else s[i])
  }

  function ThemeItems(themes: seq<string>): seq<string> {
    seq(|themes|, i requires 0 <= i < |themes| => Spaced(themes[i]))
  }

  function TimelineItems(timeline: seq<Moment>): seq<string> {
    if timeline == [] then []
    else
      var time, event := Strip(timeline[0].time), Strip(timeline[0].event);
      (if time != "" then [time] else []) + (if event != "" then [event] else [])
      + TimelineItems(timeline[1..])
  }

  function ExpectedItems(c: Case): seq<string> {
    c.facts + c.risks + c.recommendations + ThemeItems(c.themes) + TimelineItems(c.timeline)
  }

  datatype Scores = Scores(accuracy: real, unsupported: real, completeness: real)

  function UnsupportedRate(output: string, items: seq<string>, r: real -> real): real {
    var claims := Claims(output);
    if claims == [] then 0.0
    else r((|claims| - CountSupported(claims, items)) as real / |claims| as real)
  }

  /** No output counts as an empty one. */
  function Score(c: Case, output: Option<string>, r: real -> real): Scores {
    var text := if output.Some? then output.value else "";
    var themes, timeline := ThemeItems(c.themes), TimelineItems(c.timeline);
    var facts := CountCaptured(text, c.facts);
    var all := facts + CountCaptured(text, c.risks) + CountCaptured(text, c.recommendations)
               + CountCaptured(text, themes) + CountCaptured(text, timeline);
    Scores(SafeRatio(facts, |c.facts|, r), UnsupportedRate(text, ExpectedItems(c), r),
           SafeRatio(all, |c.facts| + |c.risks| + |c.recommendations| + |themes| + |timeline|, r))
  }

  lemma RatioInRange(n: nat, d: nat, r: real -> real)
    requires RoundingOk(r) && n <= d
    ensures 0.0 <= SafeRatio(n, d, r) <= 1.0
  {
    if d > 0 {
      var x := n as real / d as real;
      assert 0.0 <= x <= 1.0;
      assert r(0.0) <= r(x) <= r(1.0);
    }
  }

  lemma RatioGrows(n: nat, m: nat, d: nat, r: real -> real)
    requires RoundingOk(r) && n <= m
    ensures SafeRatio(n, d, r) <= SafeRatio(m, d, r)
  {
    if d > 0 {
      var x, y := n as real / d as real, m as real / d as real;
      assert x * d as real == n as real && y * d as real == m as real;
      assert (y - x) * d as real >= 0.0;
    }
  }

  /** All three scores are proportions. */
  lemma ScoresAreProportions(c: Case, output: Option<string>, r: real -> real)
    requires RoundingOk(r)
    ensures var s := Score(c, output, r);
      0.0 <= s.accuracy <= 1.0 && 0.0 <= s.unsupported <= 1.0 && 0.0 <= s.completeness <= 1.0
  {
    hide Claims, ThemeItems, TimelineItems, RoundingOk, SafeRatio, CountCaptured, CountSupported;
    var text := if output.Some? then output.value else "";
    var themes, timeline := ThemeItems(c.themes), TimelineItems(c.timeline);
    var facts := CountCaptured(text, c.facts);
    var all := facts + CountCaptured(text, c.risks) + CountCaptured(text, c.recommendations)
               + CountCaptured(text, themes) + CountCaptured(text, timeline);
    RatioInRange(facts, |c.facts|, r);
    RatioInRange(all, |c.facts| + |c.risks| + |c.recommendations| + |themes| + |timeline|, r);
    UnsupportedIs(text, ExpectedItems(c), r);
    RatioInRange(|Claims(text)| - CountSupported(Claims(text), ExpectedItems(c)), |Claims(text)|, r);
  }

  lemma UnsupportedIs(text: string, items: seq<string>, r: real -> real)
    ensures UnsupportedRate(text, items, r)
         == SafeRatio(|Claims(text)| - CountSupported(Claims(text), items), |Claims(text)|, r)
  {
    hide Claims, CountSupported;
  }

  /** Appending a line to a report never lowers its accuracy or its completeness. */
  lemma AppendingNeverLowers(c: Case, output: string, line: string, r: real -> real)
    requires RoundingOk(r)
    ensures var before, after := Score(c, Some(output), r), Score(c, Some(output + "\n" + line), r);
      before.accuracy <= after.accuracy && before.completeness <= after.completeness
  {
    hide Claims, ThemeItems, TimelineItems, RoundingOk, SafeRatio, CountCaptured, UnsupportedRate;
    var themes, timeline := ThemeItems(c.themes), TimelineItems(c.timeline);
    var more := output + "\n" + line;
    CapturedCountGrows(output, line, c.facts);
    CapturedCountGrows(output, line, c.risks);
    CapturedCountGrows(output, line, c.recommendations);
    CapturedCountGrows(output, line, themes);
    CapturedCountGrows(output, line, timeline);
    RatioGrows(CountCaptured(output, c.facts), CountCaptured(more, c.facts), |c.facts|, r);
    RatioGrows(
      CountCaptured(output, c.facts) + CountCaptured(output, c.risks) + CountCaptured(output, c.recommendations)
        + CountCaptured(output, themes) + CountCaptured(output, timeline),
      CountCaptured(more, c.facts) + CountCaptured(more, c.risks) + CountCaptured(more, c.recommendations)
        + CountCaptured(more, themes) + CountCaptured(more, timeline),
      |c.facts| + |c.risks| + |c.recommendations| + |themes| + |timeline|, r);
  }

  /** A case that expects more never makes a report look less supported. */
  lemma ExpectingMoreNeverRaises(c: Case, more: Case, output: Option<string>, r: real -> real)
    requires RoundingOk(r)
    requires forall i :: 0 <= i < |ExpectedItems(c)| ==> ExpectedItems(c)[i] in ExpectedItems(more)
    ensures Score(more, output, r).unsupported <= Score(c, output, r).unsupported
  {
    hide Claims, ExpectedItems, RoundingOk, SafeRatio, CountCaptured, CountSupported, UnsupportedRate;
    var text := if output.Some? then output.value else "";
    SupportedCountGrows(Claims(text), ExpectedItems(c), ExpectedItems(more));
    UnsupportedIs(text, ExpectedItems(c), r);
    UnsupportedIs(text, ExpectedItems(more), r);
    RatioGrows(|Claims(text)| - CountSupported(Claims(text), ExpectedItems(more)),
               |Claims(text)| - CountSupported(Claims(text), ExpectedItems(c)), |Claims(text)|, r);
  }

  lemma {:induction false} SupportedConcat(a: seq<string>, b: seq<string>, items: seq<string>)
    ensures CountSupported(a + b, items) == CountSupported(a, items) + CountSupported(b, items)
  {
    hide Supported;
    if b == [] {
      assert a + b == a;
    } else {
      assert (a + b)[..|a + b| - 1] == a + b[..|b| - 1];
      SupportedConcat(a, b[..|b| - 1], items);
    }
  }

  lemma Mediant(a: nat, n: nat, b: nat, m: nat)
    requires n > 0 && m > 0
    ensures var x, y := a as real / n as real, b as real / m as real;
      var z := (a + b) as real / (n + m) as real;
      x <= y ==> x <= z <= y
  {
    var x, y := a as real / n as real, b as real / m as real;
    assert a as real == x * n as real && b as real == y * m as real;
    if x <= y {
      assert x * m as real <= y * m as real && x * n as real <= y * n as real;
      assert x * (n + m) as real <= (a + b) as real <= y * (n + m) as real;
      var z := (a + b) as real / (n + m) as real;
      assert z * (n + m) as real == (a + b) as real;
    }
  }

  /** The unsupported rate of two reports put together lies between theirs, when both make
      claims; a part without claims does not count. */
  lemma JoinedRateIsBetween(x: string, y: string, items: seq<string>, r: real -> real)
    requires RoundingOk(r)
    ensures var p, q := UnsupportedRate(x, items, r), UnsupportedRate(y, items, r);
      var joined := UnsupportedRate(x + "\n" + y, items, r);
      && (Claims(x) == [] ==> joined == q)
      && (Claims(y) == [] ==> joined == p)
      && (Claims(x) != [] && Claims(y) != [] ==> p <= joined <= q || q <= joined <= p)
  {
    ClaimsConcat(x, y);
    SupportedConcat(Claims(x), Claims(y), items);
    hide Claims, CountSupported;
    var n, m := |Claims(x)|, |Claims(y)|;
    var a, b := n - CountSupported(Claims(x), items), m - CountSupported(Claims(y), items);
    if n == 0 {
      assert Claims(x) + Claims(y) == Claims(y);
    } else if m == 0 {
      assert Claims(x) + Claims(y) == Claims(x);
    } else {
      Mediant(a, n, b, m);
      Mediant(b, m, a, n);
    }
  }

  // ---------- what the extremes mean ----------

  predicate LineAt(output: string, x: string, item: string, y: string) {
    "\n" + output + "\n" == x + "\n" + item + "\n" + y
  }

  /** `item` is a line, or a run of whole lines, of the output. */
  ghost predicate HasLine(output: string, item: string) {
    exists x, y :: LineAt(output, x, item, y)
  }

  /** Line breaks around a text do not change its words. */
  lemma NormalizeFramed(output: string)
    ensures Normalize("\n" + output + "\n") == Normalize(output)
  {
    TokensConcat("", output);
    TokensConcat("\n" + output, "");
    assert "" + "\n" + output == "\n" + output && "\n" + output + "\n" + "" == "\n" + output + "\n";
    assert Tokens("") == [];
    hide Tokens, Join;
    assert [] + Tokens(output) == Tokens(output) && Tokens(output) + [] == Tokens(output);
  }

  lemma FoundMeans(hay: string, item: string, i: nat)
    requires FoundAt(hay, Normalize(item), i)
    ensures Captured(hay, item)
  {
    hide Normalize, ImportantTerms;
  }

  /** The words of a line end the words of the text up to it. */
  lemma LineEnds(x: string, item: string) returns (i: nat)
    ensures FoundAt(Normalize(x + "\n" + item), Normalize(item), i)
  {
    hide Tokens, Join;
    TokensConcat(x, item);
    JoinConcat(Tokens(x), Tokens(item));
    if Tokens(x) == [] {
      i := 0;
    } else if Tokens(item) == [] {
      JoinNothing();
      i := 0;
    } else {
      i := |Normalize(x)| + 1;
    }
  }

  lemma JoinNothing()
    ensures Join([]) == ""
  { }

  lemma LineIsCaptured(x: string, item: string, y: string)
    ensures Captured(Normalize(x + "\n" + item + "\n" + y), item)
  {
    hide Captured, Normalize, FoundAt;
    var front := x + "\n" + item;
    var i := LineEnds(x, item);
    FoundMeans(Normalize(front), item, i);
    CapturedStays(front, y, item);
  }

  lemma VerbatimIsCaptured(output: string, item: string)
    requires HasLine(output, item)
    ensures Captured(Normalize(output), item)
  {
    var x, y :| LineAt(output, x, item, y);
    hide Captured, Normalize;
    LineIsCaptured(x, item, y);
    NormalizeFramed(output);
  }

  lemma {:induction false} AllCaptured(output: string, items: seq<string>)
    requires forall i :: 0 <= i < |items| ==> HasLine(output, items[i])
    ensures CountCaptured(output, items) == |items|
  {
    hide HasLine, Captured;
    if items != [] {
      AllCaptured(output, items[..|items| - 1]);
      VerbatimIsCaptured(output, items[|items| - 1]);
    }
  }

  /** A report that states every expected fact on a line of its own has full accuracy, and
      one that states every expected item has full completeness. */
  lemma VerbatimReportScoresFull(c: Case, output: string, r: real -> real)
    requires RoundingOk(r)
    ensures c.facts != [] && (forall i :: 0 <= i < |c.facts| ==> HasLine(output, c.facts[i])) ==>
              Score(c, Some(output), r).accuracy == 1.0
    ensures (&& ExpectedItems(c) != []
             && forall i :: 0 <= i < |ExpectedItems(c)| ==> HasLine(output, ExpectedItems(c)[i])) ==>
              Score(c, Some(output), r).completeness == 1.0
  {
    hide HasLine, CountCaptured, UnsupportedRate, ThemeItems, TimelineItems;
    if c.facts != [] && forall i :: 0 <= i < |c.facts| ==> HasLine(output, c.facts[i]) {
      AllCaptured(output, c.facts);
      FullRatio(|c.facts|, r);
    }
    if ExpectedItems(c) != [] && forall i :: 0 <= i < |ExpectedItems(c)| ==> HasLine(output, ExpectedItems(c)[i]) {
      FullRatio(|ExpectedItems(c)|, r);
      ItemsOf(c, output);
      AllCaptured(output, c.facts);
      AllCaptured(output, c.risks);
      AllCaptured(output, c.recommendations);
      AllCaptured(output, ThemeItems(c.themes));
      AllCaptured(output, TimelineItems(c.timeline));
    }
  }

  /** Texts one below the other. */
  function Listing(items: seq<string>): string {
    if items == [] then ""
    else if |items| == 1 then items[0]
    else Listing(items[..|items| - 1]) + "\n" + items[|items| - 1]
  }

  lemma {:induction false} ListingHasLines(items: seq<string>, i: nat)
    requires i < |items|
    ensures HasLine(Listing(items), items[i])
  {
    var n := |items| - 1;
    if n == 0 {
      assert LineAt(Listing(items), "", items[i], "");
    } else if i == n {
      assert LineAt(Listing(items), "\n" + Listing(items[..n]), items[n], "");
    } else {
      ListingHasLines(items[..n], i);
      var x, y :| LineAt(Listing(items[..n]), x, items[i], y);
      var more := items[n] + "\n";
      assert "\n" + Listing(items) + "\n" == ("\n" + Listing(items[..n]) + "\n") + more;
      assert LineAt(Listing(items), x, items[i], y + more);
    }
  }

  /** The report that lists exactly what is expected has full scores. */
  lemma ListingScoresFull(c: Case, r: real -> real)
    requires RoundingOk(r) && c.facts != []
    ensures var s := Score(c, Some(Listing(ExpectedItems(c))), r); s.accuracy == 1.0 && s.completeness == 1.0
  {
    hide HasLine, Score, Listing, RoundingOk, ThemeItems, TimelineItems;
    var items := ExpectedItems(c);
    forall i | 0 <= i < |items| ensures HasLine(Listing(items), items[i]) { ListingHasLines(items, i); }
    forall i | 0 <= i < |c.facts| ensures HasLine(Listing(items), c.facts[i]) { assert c.facts[i] == items[i]; }
    VerbatimReportScoresFull(c, Listing(items), r);
  }

  lemma FullRatio(n: nat, r: real -> real)
    requires RoundingOk(r) && n > 0
    ensures SafeRatio(n, n, r) == 1.0
  {
    assert n as real / n as real == 1.0;
  }

  lemma ItemsOf(c: Case, output: string)
    requires forall i :: 0 <= i < |ExpectedItems(c)| ==> HasLine(output, ExpectedItems(c)[i])
    ensures forall i :: 0 <= i < |c.facts| ==> HasLine(output, c.facts[i])
    ensures forall i :: 0 <= i < |c.risks| ==> HasLine(output, c.risks[i])
    ensures forall i :: 0 <= i < |c.recommendations| ==> HasLine(output, c.recommendations[i])
    ensures forall i :: 0 <= i < |ThemeItems(c.themes)| ==> HasLine(output, ThemeItems(c.themes)[i])
    ensures forall i :: 0 <= i < |TimelineItems(c.timeline)| ==> HasLine(output, TimelineItems(c.timeline)[i])
  {
    hide HasLine, ThemeItems, TimelineItems;
    var a, b, d := c.facts, c.risks, c.recommendations;
    var e, f, all := ThemeItems(c.themes), TimelineItems(c.timeline), ExpectedItems(c);
    assert forall i :: 0 <= i < |a| ==> all[i] == a[i];
    assert forall i :: 0 <= i < |b| ==> all[|a| + i] == b[i];
    assert forall i :: 0 <= i < |d| ==> all[|a| + |b| + i] == d[i];
    assert forall i :: 0 <= i < |e| ==> all[|a| + |b| + |d| + i] == e[i];
    assert forall i :: 0 <= i < |f| ==> all[|a| + |b| + |d| + |e| + i] == f[i];
  }

  /** A claim of substance that states a number which no expected item states is never
      supported. */
  lemma UnexpectedNumberIsUnsupported(claim: string, items: seq<string>, n: string)
    requires ImportantTerms(Normalize(claim)) != {} && n in Numbers(claim)
    requires forall i :: 0 <= i < |items| ==> n !in Numbers(items[i])
    ensures !Supported(claim, items)
  {
    hide Numbers, Normalize, ImportantTerms;
    NumbersOfJoin(items);
  }
}
