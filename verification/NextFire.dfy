/** When a cron schedule fires next, in a time zone whose clock jumps.

    Instants are UTC seconds and civil times are seconds on the zone's wall clock.  The
    zone is its wall clock and the rule that turns a civil time back into an instant; the
    cron library is the civil times that match and the next of them. */
module NextFire {

  datatype Option<+T> = None | Some(value: T)

  /** `civil` is the wall clock at an instant; `resolve` is the instant of a civil time
      read with fold 0. */
  datatype Zone = Zone(civil: int -> int, resolve: int -> int)

  const Day := 86400

  /** Offsets stay within a day, and a civil time that exists resolves to its first
      occurrence.  Nothing is assumed of one that does not. */
  ghost predicate ZoneOk(z: Zone) {
    && (forall t :: t - Day < z.civil(t) < t + Day)
    && (forall t :: z.civil(z.resolve(z.civil(t))) == z.civil(t) && z.resolve(z.civil(t)) <= t)
  }

  /** The wall clock shows `c` at some instant. */
  predicate Exists(z: Zone, c: int) {
    z.civil(z.resolve(c)) == c
  }

  /** The civil time of `t` exists, and its first instant is no later than `t`. */
  lemma Earliest(z: Zone, t: int)
    requires ZoneOk(z)
    ensures Exists(z, z.civil(t)) && z.resolve(z.civil(t)) <= t
  { }

  lemma Near(z: Zone, t: int)
    requires ZoneOk(z)
    ensures t - Day < z.civil(t) < t + Day
  { }

  /** `next` finds the first match after a civil time, or gives up after five years. */
  datatype Cron = Cron(matches: int -> bool, next: int -> Option<int>)

  ghost predicate CronOk(s: Cron) {
    forall c :: match s.next(c)
      case Some(n) => c < n && s.matches(n) && forall m :: c < m < n ==> !s.matches(m)
      case None => forall m :: c < m <= c + 5 * 365 * Day ==> !s.matches(m)
  }

  lemma NextIs(s: Cron, c: int)
    requires CronOk(s)
    ensures s.next(c).Some? ==> c < s.next(c).value
    ensures s.next(c).Some? ==> s.matches(s.next(c).value)
    ensures s.next(c).Some? ==> forall m :: c < m < s.next(c).value ==> !s.matches(m)
  { }

  datatype Result = Fire(instant: int) | NoOccurrence | SearchExhausted

  /** A candidate is passed over when its time has been, or never comes. */
  predicate Rejected(z: Zone, after: int, c: int) {
    z.resolve(c) <= after || !Exists(z, c)
  }

  lemma RejectedIs(z: Zone, after: int, c: int)
    ensures Rejected(z, after, c) <==> !(z.resolve(c) > after && z.civil(z.resolve(c)) == c)
  { }

  /** The first `n` candidates after `c`, fewer when the schedule gives up. */
  function Candidates(s: Cron, c: int, n: nat): (r: seq<int>)
    ensures |r| <= n
    decreases n
  {
    if n == 0 then []
    else
      match s.next(c)
      case None => []
      case Some(d) => [d] + Candidates(s, d, n - 1)
  }

  lemma CandidatesStep(s: Cron, c: int, n: nat)
    ensures Candidates(s, c, n) ==
      if n == 0 || s.next(c).None? then [] else [s.next(c).value] + Candidates(s, s.next(c).value, n - 1)
  { }

  lemma CandidatesSplit(s: Cron, c: int, n: nat)
    requires n > 0 && s.next(c).Some?
    ensures var d := s.next(c).value;
      && |Candidates(s, c, n)| == 1 + |Candidates(s, d, n - 1)|
      && forall m :: m in Candidates(s, c, n) <==> m == d || m in Candidates(s, d, n - 1)
  {
    hide Candidates;
    CandidatesStep(s, c, n);
  }

  /** `t` is the first instant of the first matching civil time after that of `after`
      which exists and has not been yet. */
  ghost predicate IsNext(z: Zone, s: Cron, after: int, t: int) {
    && after < t && z.civil(after) < z.civil(t)
    && s.matches(z.civil(t)) && t == z.resolve(z.civil(t))
    && forall m :: z.civil(after) < m < z.civil(t) && s.matches(m) ==> Rejected(z, after, m)
  }

  /** There is only one next firing. */
  lemma NextIsUnique(z: Zone, s: Cron, after: int, t: int)
    requires IsNext(z, s, after, t)
    ensures forall u :: IsNext(z, s, after, u) ==> u == t
  {
    forall u | IsNext(z, s, after, u) ensures u == t {
      assert z.civil(t) < z.civil(u) ==> Rejected(z, after, z.civil(t));
      assert z.civil(u) < z.civil(t) ==> Rejected(z, after, z.civil(u));
    }
  }

  // ---------- what the bounded search can find ----------

  /** The matches strictly between two civil times. */
  ghost function Between(s: Cron, c: int, m: int): set<int> {
    set k | c < k < m && s.matches(k)
  }

  /** The schedule gives up neither at `c` nor at any match before `m`. */
  ghost predicate Reaches(s: Cron, c: int, m: int) {
    s.next(c).Some? && forall k :: c < k < m && s.matches(k) ==> s.next(k).Some?
  }

  lemma BetweenStep(s: Cron, c: int, m: int)
    requires CronOk(s) && s.next(c).Some? && s.next(c).value < m
    ensures |Between(s, c, m)| == 1 + |Between(s, s.next(c).value, m)|
  {
    hide CronOk;
    NextIs(s, c);
    var d := s.next(c).value;
    assert Between(s, c, m) == {d} + Between(s, d, m);
  }

  /** The first `n` candidates are the matches that the schedule reaches with fewer than
      `n` matches before them. */
  lemma {:induction false} CandidatesAre(s: Cron, c: int, n: nat, m: int)
    requires CronOk(s)
    ensures m in Candidates(s, c, n) <==>
      c < m && s.matches(m) && Reaches(s, c, m) && |Between(s, c, m)| < n
    decreases n
  {
    hide CronOk, Candidates;
    CandidatesStep(s, c, n);
    NextIs(s, c);
    if n > 0 && s.next(c).Some? {
      var d := s.next(c).value;
      if m == d {
        assert Between(s, c, m) == {};
      } else {
        CandidatesAre(s, d, n - 1, m);
        if d < m { BetweenStep(s, c, m); }
      }
    }
  }

  const Bound := 2000

  /** A match after `after`'s civil time that exists and has not been, which the search
      reaches within its bound. */
  ghost predicate Qualifies(z: Zone, s: Cron, after: int, m: int) {
    && z.civil(after) < m && s.matches(m) && !Rejected(z, after, m)
    && Reaches(s, z.civil(after), m) && |Between(s, z.civil(after), m)| < Bound
  }

  method NextFire(z: Zone, s: Cron, after: int) returns (r: Result)
    requires ZoneOk(z) && CronOk(s)
    ensures r.Fire? <==> exists m :: Qualifies(z, s, after, m)
    ensures r.Fire? ==> forall t :: IsNext(z, s, after, t) <==> t == r.instant
    ensures r.NoOccurrence? <==> !r.Fire? && |Candidates(s, z.civil(after), Bound)| < Bound
  {
    hide ZoneOk, CronOk, Candidates, Between, Reaches, Rejected;
    var local := z.civil(after);
    ghost var tried := Candidates(s, local, Bound);
    forall m ensures Qualifies(z, s, after, m) <==> m in tried && !Rejected(z, after, m) {
      CandidatesAre(s, local, Bound, m);
    }
    hide Qualifies;
    var current, k := local, 0;
    while k < Bound
      invariant 0 <= k <= Bound && local <= current
      invariant |tried| == k + |Candidates(s, current, Bound - k)|
      invariant forall m :: m in Candidates(s, current, Bound - k) ==> m in tried
      invariant forall m :: m in tried && !Rejected(z, after, m) ==> m in Candidates(s, current, Bound - k)
      invariant forall m :: local < m <= current && s.matches(m) ==> Rejected(z, after, m)
    {
      NextIs(s, current);
      var found := s.next(current);
      if found.None? {
        CandidatesStep(s, current, Bound - k);
        return NoOccurrence;
      }
      var candidate := found.value;
      CandidatesSplit(s, current, Bound - k);
      var instant := z.resolve(candidate);
      RejectedIs(z, after, candidate);
      if instant > after && z.civil(instant) == candidate {
        assert Qualifies(z, s, after, candidate);
        NextIsUnique(z, s, after, instant);
        return Fire(instant);
      }
      current := candidate;
      k := k + 1;
    }
    CandidatesStep(s, current, 0);
    r := SearchExhausted;
  }

  // ---------- the bound on the search ----------

  /** The times of the schedule are whole minutes. */
  ghost predicate WholeMinutes(s: Cron) {
    forall k :: s.matches(k) ==> k % 60 == 0
  }

  lemma MinuteApart(s: Cron, k: int, m: int)
    requires WholeMinutes(s) && s.matches(k) && m % 60 == 0 && k < m
    ensures k <= m - 60
  { }

  /** Fewer than `n` whole minutes lie strictly within `n` minutes before one. */
  lemma {:induction false} MinutesBetween(s: Cron, c: int, m: int, n: nat)
    requires WholeMinutes(s) && m % 60 == 0 && c < m <= c + 60 * n
    ensures |Between(s, c, m)| < n
    decreases n
  {
    hide WholeMinutes;
    forall k | k in Between(s, c, m) ensures k <= m - 60 { MinuteApart(s, k, m); }
    if m - 60 <= c {
      assert Between(s, c, m) == {};
    } else {
      MinutesBetween(s, c, m - 60, n - 1);
      SubsetCard(Between(s, c, m), Between(s, c, m - 60) + {m - 60});
    }
  }

  lemma SubsetCard(a: set<int>, b: set<int>)
    requires a <= b
    ensures |a| <= |b|
  {
    assert b == a + (b - a);
  }

  /** A schedule of whole minutes fires whenever one of its times within 2000 minutes
      exists and has not been, however the clock jumps before or after. */
  lemma SearchIsLongEnough(z: Zone, s: Cron, after: int, m: int)
    requires CronOk(s) && WholeMinutes(s)
    requires s.matches(m) && z.civil(after) < m <= z.civil(after) + 60 * Bound && !Rejected(z, after, m)
    ensures Qualifies(z, s, after, m)
  {
    MinutesBetween(s, z.civil(after), m, Bound);
  }

  // ---------- a clock with summer time ----------

  const Year := 365 * Day

  /** Summer time begins after 182 days of each year and lasts to its end. */
  predicate Warm(t: int) {
    t % Year >= 182 * Day
  }

  /** The clock goes forward by `jump` when summer begins, and back when it ends. */
  function Summer(offset: int, jump: int): Zone {
    Zone(t => if Warm(t) then t + offset + jump else t + offset,
         c => if Warm(c - offset - jump) then c - offset - jump else c - offset)
  }

  ghost predicate SummerOk(offset: int, jump: int) {
    -Day < offset < offset + jump < Day && 0 < jump <= Day
  }

  lemma SeasonIs(t: int, year: int)
    ensures Year * year <= t < Year * year + 182 * Day ==> !Warm(t)
    ensures Year * year + 182 * Day <= t < Year * (year + 1) ==> Warm(t)
  {
    if Year * year <= t < Year * (year + 1) { assert t / Year == year; }
  }

  /** The seasons around `t`, which lies in the year that begins at `start`. */
  lemma Calendar(t: int) returns (start: int)
    ensures start <= t < start + Year
    ensures forall v :: start - Day <= v < start ==> Warm(v)
    ensures forall v :: start <= v < start + 182 * Day ==> !Warm(v)
    ensures forall v :: start + 182 * Day <= v < start + Year ==> Warm(v)
    ensures forall v :: start + Year <= v < start + Year + 3 * Day ==> !Warm(v)
  {
    hide Warm;
    var year := t / Year;
    start := Year * year;
    forall v
      ensures start - Day <= v < start ==> Warm(v)
      ensures start <= v < start + 182 * Day ==> !Warm(v)
      ensures start + 182 * Day <= v < start + Year ==> Warm(v)
      ensures start + Year <= v < start + Year + 3 * Day ==> !Warm(v)
    {
      SeasonIs(v, year - 1);
      SeasonIs(v, year);
      SeasonIs(v, year + 1);
    }
  }

  lemma SummerReads(offset: int, jump: int, t: int)
    requires SummerOk(offset, jump)
    ensures var z := Summer(offset, jump);
      && t - Day < z.civil(t) < t + Day
      && z.civil(z.resolve(z.civil(t))) == z.civil(t) && z.resolve(z.civil(t)) <= t
  {
    hide Warm;
    var start := Calendar(t);
    assert Warm(t) || Warm(t - jump) || !Warm(t - jump);
  }

  lemma SummerSeen(offset: int, jump: int, u: int, t: int)
    requires SummerOk(offset, jump)
    requires var z := Summer(offset, jump); u < t && z.civil(t) < z.civil(u)
    ensures exists w :: w <= u && Summer(offset, jump).civil(w) == Summer(offset, jump).civil(t)
  {
    hide Warm;
    var start := Calendar(t);
    assert Warm(u) && !Warm(t) && t < u + jump;
    assert Summer(offset, jump).civil(t - jump) == Summer(offset, jump).civil(t);
  }

  /** It is a zone, and it never returns to a civil time that it has jumped over, so
      `NothingSkipped` holds of it. */
  lemma SummerIsZone(offset: int, jump: int)
    requires SummerOk(offset, jump)
    ensures ZoneOk(Summer(offset, jump)) && NoReturn(Summer(offset, jump))
  {
    hide Summer;
    var z := Summer(offset, jump);
    assert ZoneOk(z) by {
      hide NoReturn;
      forall t ensures t - Day < z.civil(t) < t + Day { SummerReads(offset, jump, t); }
      forall t ensures z.civil(z.resolve(z.civil(t))) == z.civil(t) && z.resolve(z.civil(t)) <= t {
        SummerReads(offset, jump, t);
      }
    }
    assert NoReturn(z) by {
      hide ZoneOk;
      forall u, t | u < t && z.civil(t) < z.civil(u) { SummerSeen(offset, jump, u, t); }
    }
  }

  /** Past the length of one jump only a gap can reject, so a time outside the gaps fires
      although the gap comes back every year. */
  lemma FiresUnlessInGap(offset: int, jump: int, s: Cron, after: int, m: int)
    requires SummerOk(offset, jump) && CronOk(s) && WholeMinutes(s)
    requires var c := Summer(offset, jump).civil(after); c + jump < m <= c + 60 * Bound
    requires s.matches(m) && Exists(Summer(offset, jump), m)
    ensures Qualifies(Summer(offset, jump), s, after, m)
  {
    hide CronOk;
    SearchIsLongEnough(Summer(offset, jump), s, after, m);
  }

  /** The search covers a skipped civil day: a schedule of every minute always fires, even
      where each year a whole day is missing and a whole day comes twice. */
  lemma EveryMinuteFires(offset: int, jump: int, s: Cron, after: int) returns (m: int)
    requires SummerOk(offset, jump) && CronOk(s) && (forall k :: s.matches(k) <==> k % 60 == 0)
    ensures Qualifies(Summer(offset, jump), s, after, m)
    ensures m <= Summer(offset, jump).civil(after) + jump + 120
  {
    hide CronOk, Warm;
    var z := Summer(offset, jump);
    var c := z.civil(after);
    var soon := c + 60 - c % 60;
    var late := soon + jump + 59 - (soon + jump + 59) % 60;
    m := if Rejected(z, after, soon) then late else soon;
    var start := Calendar(after);
    SearchIsLongEnough(z, s, after, m);
  }

  // ---------- schedules over time ----------

  /** The instant from which firing `i` was looked for. */
  function From(after: int, fires: seq<int>, i: nat): int
    requires i <= |fires|
  {
    if i == 0 then after else fires[i - 1]
  }

  /** Each firing is the next one after the firing before it. */
  ghost predicate Firings(z: Zone, s: Cron, after: int, fires: seq<int>) {
    forall i :: 0 <= i < |fires| ==> IsNext(z, s, From(after, fires, i), fires[i])
  }

  lemma NextFacts(z: Zone, s: Cron, after: int, t: int)
    requires IsNext(z, s, after, t)
    ensures after < t && z.civil(after) < z.civil(t)
    ensures s.matches(z.civil(t)) && t == z.resolve(z.civil(t))
  { }

  /** Instants and civil times both increase strictly, so no civil time fires twice, not
      even in an hour that the clock repeats; each firing is the first instant of a civil
      time that exists and matches, so a time in a gap never fires. */
  lemma {:induction false} FiringsIncrease(z: Zone, s: Cron, after: int, fires: seq<int>, i: nat, k: nat)
    requires ZoneOk(z) && Firings(z, s, after, fires) && i <= k < |fires|
    ensures after < fires[i] && z.civil(after) < z.civil(fires[i])
    ensures i < k ==> fires[i] < fires[k] && z.civil(fires[i]) < z.civil(fires[k])
    ensures s.matches(z.civil(fires[k])) && Exists(z, z.civil(fires[k]))
    ensures forall t :: z.civil(t) == z.civil(fires[k]) ==> fires[k] <= t
    decreases k
  {
    hide ZoneOk, IsNext;
    NextFacts(z, s, From(after, fires, k), fires[k]);
    NextFacts(z, s, From(after, fires, i), fires[i]);
    Earliest(z, fires[k]);
    forall t | z.civil(t) == z.civil(fires[k]) ensures fires[k] <= t { Earliest(z, t); }
    if i < k { FiringsIncrease(z, s, after, fires, i, k - 1); }
    if i == k && i > 0 { FiringsIncrease(z, s, after, fires, i - 1, i - 1); }
  }

  /** The clock never jumps over a civil time and comes back to it: a time that shows up
      below an earlier reading has shown up before. */
  ghost predicate NoReturn(z: Zone) {
    forall u, t :: u < t && z.civil(t) < z.civil(u) ==> exists w :: w <= u && z.civil(w) == z.civil(t)
  }

  lemma SeenBefore(z: Zone, u: int, t: int)
    requires ZoneOk(z) && NoReturn(z) && u < t && z.civil(t) < z.civil(u)
    ensures z.resolve(z.civil(t)) <= u
  {
    hide ZoneOk;
    var w :| w <= u && z.civil(w) == z.civil(t);
    Earliest(z, w);
  }

  lemma FirstOccurrencesInOrder(z: Zone, c: int, d: int)
    requires ZoneOk(z) && NoReturn(z) && c < d && Exists(z, c) && Exists(z, d)
    ensures z.resolve(c) < z.resolve(d)
  {
    hide ZoneOk, NoReturn;
    var t, u := z.resolve(c), z.resolve(d);
    assert z.civil(t) == c && z.civil(u) == d;
    if u < t { SeenBefore(z, u, t); }
  }

  /** A matching civil time whose first instant lies between `after` and `t`. */
  predicate Skipped(z: Zone, s: Cron, after: int, t: int, m: int) {
    s.matches(m) && Exists(z, m) && after < z.resolve(m) < t
  }

  lemma NothingSkippedOnce(z: Zone, s: Cron, after: int, t: int, m: int)
    requires ZoneOk(z) && NoReturn(z) && IsNext(z, s, after, t)
    ensures !Skipped(z, s, after, t, m)
  {
    hide ZoneOk, NoReturn;
    if Skipped(z, s, after, t, m) {
      var u := z.resolve(m);
      Earliest(z, after);
      if m < z.civil(after) {
        SeenBefore(z, after, u);
      } else if m > z.civil(t) {
        Earliest(z, t);
        FirstOccurrencesInOrder(z, z.civil(t), m);
      }
    }
  }

  /** No matching time that exists is passed over: every one whose first instant comes
      before the last firing is one of the firings. */
  lemma {:induction false} NothingSkipped(z: Zone, s: Cron, after: int, fires: seq<int>, m: int)
    requires ZoneOk(z) && NoReturn(z) && Firings(z, s, after, fires) && |fires| > 0
    requires s.matches(m) && Exists(z, m) && after < z.resolve(m) <= fires[|fires| - 1]
    ensures z.resolve(m) in fires
  {
    hide ZoneOk, NoReturn, IsNext;
    var n := |fires| - 1;
    var prev := From(after, fires, n);
    assert IsNext(z, s, prev, fires[n]);
    NothingSkippedOnce(z, s, prev, fires[n], m);
    if z.resolve(m) != fires[n] {
      var init := fires[..n];
      forall i | 0 <= i < |init| ensures IsNext(z, s, From(after, init, i), init[i]) {
        assert IsNext(z, s, From(after, fires, i), fires[i]);
      }
      NothingSkipped(z, s, after, init, m);
    }
  }

  // ---------- the condition is exact ----------

  /** In zone `z` no schedule ever passes over a time. */
  ghost predicate NeverSkips(z: Zone) {
    forall s: Cron, after, t, m :: CronOk(s) && IsNext(z, s, after, t) ==> !Skipped(z, s, after, t, m)
  }

  /** A schedule of two civil times. */
  function Twice(c: int, d: int): Cron
    requires c < d
  {
    Cron(m => m == c || m == d, m => if m < c then Some(c) else if m < d then Some(d) else None)
  }

  lemma TwiceOk(c: int, d: int)
    requires c < d
    ensures CronOk(Twice(c, d))
  { }

  /** A schedule of an earlier civil time that first occurs after a later one misses the
      later one. */
  lemma ReturnSkips(z: Zone, c: int, d: int) returns (after: int)
    requires ZoneOk(z) && c < d && Exists(z, c) && Exists(z, d) && z.resolve(d) < z.resolve(c)
    ensures IsNext(z, Twice(c, d), after, z.resolve(c))
    ensures Skipped(z, Twice(c, d), after, z.resolve(c), d)
  {
    hide ZoneOk;
    var other := z.resolve(d);
    after := (if c < other then c else other) - 2 * Day;
    Near(z, after);
  }

  /** A zone skips nothing exactly when its clock never returns to a civil time it has
      jumped over. */
  lemma SkipsNothingIff(z: Zone)
    requires ZoneOk(z)
    ensures NeverSkips(z) <==> NoReturn(z)
  {
    hide ZoneOk, CronOk;
    if NoReturn(z) {
      forall s: Cron, after, t, m | CronOk(s) && IsNext(z, s, after, t)
        ensures !Skipped(z, s, after, t, m)
      { NothingSkippedOnce(z, s, after, t, m); }
    }
    if NeverSkips(z) {
      forall u, t | u < t && z.civil(t) < z.civil(u)
        ensures exists w :: w <= u && z.civil(w) == z.civil(t)
      {
        var c, d := z.civil(t), z.civil(u);
        Earliest(z, t);
        Earliest(z, u);
        if z.resolve(c) > u {
          var after := ReturnSkips(z, c, d);
          TwiceOk(c, d);
        }
        assert z.civil(z.resolve(c)) == c;
      }
    }
  }

  /** A clock that jumps from 100 to 300 and falls back to 200 at the instant 150: the time
      200 first exists after the time 300 has been. */
  function Returning(): Zone {
    Zone(t => if t < 100 then t else if t < 150 then t + 200 else t + 50,
         c => if c < 100 then c else if 300 <= c < 350 then c - 200 else c - 50)
  }

  /** On that clock a schedule of 200 and 300, asked at 0, fires at 200 and misses 300. */
  lemma ReturningSkips()
    ensures ZoneOk(Returning()) && CronOk(Twice(200, 300))
    ensures IsNext(Returning(), Twice(200, 300), 0, 150)
    ensures Skipped(Returning(), Twice(200, 300), 0, 150, 300)
  {
    TwiceOk(200, 300);
    hide CronOk;
  }
}
