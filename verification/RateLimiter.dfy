/** The sliding-window rate limiter: at most so many accepted calls in any 60 seconds.

    A call is one step: calls are assumed not to interleave.  The code takes no lock between
    the length check and the append, so two calls that run at once may both pass the check. */
module RateLimiter {

  datatype Option<+T> = None | Some(value: T)

  // ---------- keys ----------

  function Collapsed(path: string): string {
    if "/webhooks/" <= path then "/webhooks" else path
  }

  function Key(host: Option<string>, path: string): string {
    (if host.Some? then host.value else "unknown") + ":" + Collapsed(path)
  }

  lemma SlashOnce(k: string, h: string, p: string, h': string, p': string)
    requires k == h + ":" + p == h' + ":" + p' && '/' !in h && '/' !in h'
    requires p != "" && p[0] == '/' && p' != "" && p'[0] == '/'
    ensures h == h' && p == p'
  {
    assert k[|h| + 1] == '/' && k[|h'| + 1] == '/';
    assert forall i :: 0 <= i < |h| ==> k[i] == h[i];
    assert forall i :: 0 <= i < |h'| ==> k[i] == h'[i];
    assert k[|h|] == ':' && k[|h'|] == ':';
    assert |h| == |h'|;
    assert h == k[..|h|] == h' && p == k[|h| + 1..] == p';
  }

  predicate IsWebhook(path: string) {
    path == "/webhooks" || (|path| >= 10 && path[..10] == "/webhooks/")
  }

  predicate SamePlace(path: string, path': string) {
    path == path' || (IsWebhook(path) && IsWebhook(path'))
  }

  /** Host names hold no slash and paths begin with one, so two calls share a limit exactly
      when they come from one host and go to one path, all webhooks counting as one. */
  lemma KeysAreSeparate(host: Option<string>, path: string, host': Option<string>, path': string)
    requires host.Some? ==> '/' !in host.value
    requires host'.Some? ==> '/' !in host'.value
    requires path != "" && path[0] == '/' && path' != "" && path'[0] == '/'
    ensures Key(host, path) == Key(host', path') <==>
      && (if host.Some? then host.value else "unknown") == (if host'.Some? then host'.value else "unknown")
      && SamePlace(path, path')
  {
    var h := if host.Some? then host.value else "unknown";
    var h' := if host'.Some? then host'.value else "unknown";
    var k, k' := Key(host, path), Key(host', path');
    if k == k' {
      SlashOnce(k, h, Collapsed(path), h', Collapsed(path'));
    }
  }

  // ---------- windows ----------

  const Minute := 60

  /** Which of these calls fall into the closed interval. */
  function InWindow(times: seq<int>, from: int, to: int): set<int> {
    set i | 0 <= i < |times| && from <= times[i] <= to
  }

  predicate Sorted(times: seq<int>) {
    forall i, k :: 0 <= i <= k < |times| ==> times[i] <= times[k]
  }

  /** Any `limit` calls in a row are followed by one more than a minute after the first. */
  predicate Spread(times: seq<int>, limit: int)
    requires limit > 0
  {
    forall i :: 0 <= i < |times| - limit ==> times[i + limit] > times[i] + Minute
  }

  function Range(a: int, b: int): (s: set<int>)
    ensures forall i :: i in s <==> a <= i < b
    ensures |s| == if a <= b then b - a else 0
    decreases b - a
  {
    if a >= b then {} else Range(a, b - 1) + {b - 1}
  }

  lemma SubsetSize<T>(a: set<T>, b: set<T>)
    requires a <= b
    ensures |a| <= |b|
  {
    if a != b {
      var x :| x in b && x !in a;
      SubsetSize(a, b - {x});
    }
  }

  lemma SpreadAt(times: seq<int>, limit: int, i: nat, k: nat)
    requires limit > 0 && Sorted(times) && Spread(times, limit) && i + limit <= k < |times|
    ensures times[k] > times[i] + Minute
  {
    assert times[i + limit] > times[i] + Minute;
  }

  /** Spread calls never exceed the limit in any window of a minute, wherever it starts. */
  lemma WindowHoldsAtMostLimit(times: seq<int>, limit: int, from: int)
    requires limit > 0 && Sorted(times) && Spread(times, limit)
    ensures |InWindow(times, from, from + Minute)| <= limit
  {
    var w := InWindow(times, from, from + Minute);
    if w != {} {
      var first := Least(w, |times|);
      forall i | i in w ensures i < first + limit {
        if first + limit <= i { SpreadAt(times, limit, first, i); }
      }
      SubsetSize(w, Range(first, first + limit));
    }
  }

  lemma Least(s: set<int>, bound: nat) returns (x: int)
    requires s != {} && forall i :: i in s ==> 0 <= i < bound
    ensures x in s && forall i :: i in s ==> x <= i
  {
    x := 0;
    while x !in s
      invariant 0 <= x <= bound && forall i :: i in s ==> x <= i
      decreases bound - x
    {
      assert x == bound ==> s == {};
      x := x + 1;
    }
  }

  // ---------- the limiter ----------

  /** The calls that were let through for each key are recorded next to what the limiter
      still remembers of them. */
  class Limiter {
    const limit: int
    var hits: map<string, seq<int>>
    ghost var accepted: map<string, seq<int>>
    ghost var clock: int

    ghost predicate Valid()
      reads this
    {
      && hits.Keys == accepted.Keys
      && (limit <= 0 ==> hits == map[])
      && (limit > 0 ==> forall key :: key in hits ==> Remembers(limit, hits[key], accepted[key], clock))
    }

    constructor (limit: int, now: int)
      ensures Valid() && this.limit == limit && accepted == map[] && clock == now
    {
      this.limit := limit;
      hits, accepted, clock := map[], map[], now;
    }

    ghost function Accepted(key: string): seq<int>
      reads this
    {
      if key in accepted then accepted[key] else []
    }

    /** Let a call through, unless its key already has `limit` accepted calls in the closed
        minute that ends now.  The clock never runs backwards. */
    method Enforce(host: Option<string>, path: string, now: int) returns (ok: bool)
      requires Valid() && clock <= now
      modifies this
      ensures Valid() && clock == now
      ensures limit <= 0 ==> ok && accepted == old(accepted)
      ensures limit > 0 ==>
        && |InWindow(old(Accepted(Key(host, path))), now - Minute, now)| <= limit
        && (ok <==> |InWindow(old(Accepted(Key(host, path))), now - Minute, now)| < limit)
      ensures limit > 0 ==> accepted == old(accepted)[Key(host, path) :=
        old(Accepted(Key(host, path))) + if ok then [now] else []]
    {
      hide InWindow, Sorted, Spread, Remembers, Key;
      if limit <= 0 {
        clock := now;
        return true;
      }
      var key := Key(host, path);
      ghost var past := Accepted(key);
      var recent := if key in hits then hits[key] else [];
      Waited(limit, hits, accepted, clock, now);
      NothingYet(limit, now);
      clock := now;
      while recent != [] && recent[0] < now - Minute
        modifies {}
        invariant Remembers(limit, recent, past, now)
        decreases |recent|
      {
        Forget(limit, recent, past, now);
        recent := recent[1..];
      }
      WindowIsRecent(limit, recent, past, now);
      ok := |recent| < limit;
      if ok {
        Accepting(limit, recent, past, now);
        recent := recent + [now];
      }
      hits := hits[key := recent];
      accepted := accepted[key := past + if ok then [now] else []];
      assert past + [] == past;
    }
  }

  lemma NothingYet(limit: int, clock: int)
    requires limit > 0
    ensures Remembers(limit, [], [], clock)
  { }

  lemma Waited(limit: int, hits: map<string, seq<int>>, accepted: map<string, seq<int>>, clock: int, now: int)
    requires limit > 0 && clock <= now && hits.Keys == accepted.Keys
    requires forall key :: key in hits ==> Remembers(limit, hits[key], accepted[key], clock)
    ensures forall key :: key in hits ==> Remembers(limit, hits[key], accepted[key], now)
  { }

  lemma Forget(limit: int, recent: seq<int>, past: seq<int>, clock: int)
    requires limit > 0 && Remembers(limit, recent, past, clock)
    requires recent != [] && recent[0] < clock - Minute
    ensures Remembers(limit, recent[1..], past, clock)
  {
    assert recent[0] == past[|past| - |recent|];
  }

  /** `recent` is the end of the history `past`, at most `limit` long; whatever is no
      longer remembered is more than a minute old. */
  predicate Remembers(limit: int, recent: seq<int>, past: seq<int>, clock: int)
    requires limit > 0
  {
    && Sorted(past) && Spread(past, limit)
    && (past != [] ==> past[|past| - 1] <= clock)
    && |recent| <= limit && |recent| <= |past| && recent == past[|past| - |recent|..]
    && (forall i :: 0 <= i < |past| - |recent| ==> past[i] < clock - Minute)
  }

  lemma WindowIsRecent(limit: int, recent: seq<int>, past: seq<int>, now: int)
    requires limit > 0 && Remembers(limit, recent, past, now)
    requires recent == [] || recent[0] >= now - Minute
    ensures |InWindow(past, now - Minute, now)| == |recent| <= limit
  {
    var k := |past| - |recent|;
    assert forall i :: k <= i < |past| ==> past[i] == recent[i - k];
    assert InWindow(past, now - Minute, now) == Range(k, |past|);
  }

  lemma Accepting(limit: int, recent: seq<int>, past: seq<int>, now: int)
    requires limit > 0 && Remembers(limit, recent, past, now) && |recent| < limit
    ensures Remembers(limit, recent + [now], past + [now], now)
  {
    var next := past + [now];
    forall i | 0 <= i < |next| - limit ensures next[i + limit] > next[i] + Minute {
      if i + limit < |past| { assert past[i + limit] > past[i] + Minute; }
    }
  }

  /** The promise, at any moment and for any key: no window of a minute holds more than
      `limit` accepted calls. */
  lemma NeverOverLimit(l: Limiter, key: string, from: int)
    requires l.Valid() && l.limit > 0 && key in l.accepted
    ensures |InWindow(l.accepted[key], from, from + Minute)| <= l.limit
    ensures Sorted(l.hits[key]) && |l.hits[key]| <= l.limit
  {
    WindowHoldsAtMostLimit(l.accepted[key], l.limit, from);
  }
}
