/** The loop of a worker process: collect finished work, claim what there is room for, and
    drain before leaving.

    A `Moment` is what one turn of the loop sees of the world: which futures have finished,
    whether a stop was signalled, how many due jobs there are.  The loop is stated for every
    schedule of such moments. */
module WorkerLoop {

  datatype Option<+T> = None | Some(value: T)

  datatype Settings = Settings(capacity: int, poll: int, maxJobs: Option<int>, drain: bool)

  predicate SettingsOk(c: Settings) {
    1 <= c.capacity <= 32 && c.poll > 0 && (c.maxJobs.Some? ==> c.maxJobs.value >= 1)
  }

  /** How a future ended: with a result, with a claim that was lost, or with an error. */
  datatype Ending = Finished | Stale | Failed

  /** Futures are numbered in the order of their dispatch. */
  datatype Moment = Moment(done: nat -> bool, ending: nat -> Ending, stop: bool, due: nat, queued: bool)

  datatype Worker = Worker(active: set<nat>, dispatched: nat, collected: nat, failures: nat, running: bool)

  const Fresh := Worker({}, 0, 0, 0, true)

  function Min(a: int, b: int): int {
    if a < b then a else b
  }

  function Done(active: set<nat>, m: Moment): set<nat> {
    set f | f in active && m.done(f)
  }

  function Broken(active: set<nat>, m: Moment): set<nat> {
    set f | f in active && m.done(f) && m.ending(f) == Failed
  }

  /** The worker after it has looked at its finished futures. */
  function Collected(w: Worker, m: Moment): Worker {
    w.(active := w.active - Done(w.active, m), collected := w.collected + |Done(w.active, m)|,
       failures := w.failures + |Broken(w.active, m)|)
  }

  function Available(c: Settings, w: Worker): int {
    var room := c.capacity - |w.active|;
    if c.maxJobs.Some? then Min(room, c.maxJobs.value - w.dispatched) else room
  }

  /** The claim query returns due jobs, at most as many as it was asked for. */
  function Claimed(c: Settings, w: Worker, m: Moment): nat {
    if Available(c, w) <= 0 then 0 else Min(m.due, Available(c, w))
  }

  function Futures(from: nat, count: nat): (s: set<nat>)
    ensures forall f :: f in s <==> from <= f < from + count
    ensures |s| == count
  {
    if count == 0 then {} else Futures(from, count - 1) + {from + count - 1}
  }

  predicate Leaving(c: Settings, w: Worker, m: Moment) {
    m.stop || (c.maxJobs.Some? && w.dispatched >= c.maxJobs.value)
  }

  /** One turn of the loop. */
  function Turn(c: Settings, before: Worker, m: Moment): Worker {
    if !before.running then before
    else
      var w := Collected(before, m);
      if Leaving(c, w, m) then w.(running := w.active != {})
      else
        var n := Claimed(c, w, m);
        var active := w.active + Futures(w.dispatched, n);
        w.(active := active, dispatched := w.dispatched + n,
           running := !(c.drain && active == {} && n == 0 && !m.queued))
  }

  function Run(c: Settings, schedule: seq<Moment>): Worker {
    if schedule == [] then Fresh else Turn(c, Run(c, schedule[..|schedule| - 1]), schedule[|schedule| - 1])
  }

  // ---------- the loop ----------

  datatype Outcome = Invalid | Returned(failures: nat) | StillRunning(worker: Worker)

  /** Collect every finished future and count the broken ones. */
  method Collect(active: set<nat>, m: Moment) returns (left: set<nat>, collected: nat, failures: nat)
    ensures left == active - Done(active, m) && collected == |Done(active, m)| && failures == |Broken(active, m)|
  {
    left, collected, failures := active, 0, 0;
    ghost var gone, broken: set<nat> := {}, {};
    var todo := active;
    while todo != {}
      invariant todo <= active
      invariant gone == set f | f in active && f !in todo && m.done(f)
      invariant broken == set f | f in active && f !in todo && m.done(f) && m.ending(f) == Failed
      invariant left == active - gone && collected == |gone| && failures == |broken|
      decreases |todo|
    {
      var future :| future in todo;
      todo := todo - {future};
      if m.done(future) {
        left := left - {future};
        collected := collected + 1;
        gone := gone + {future};
        if m.ending(future) == Failed {
          failures := failures + 1;
          broken := broken + {future};
        }
      }
    }
    assert gone == Done(active, m) && broken == Broken(active, m);
  }

  /** Hand each claim to the pool. */
  method Submit(active: set<nat>, dispatched: nat, claims: nat) returns (next: set<nat>)
    ensures next == active + Futures(dispatched, claims)
  {
    next := active;
    var k := 0;
    while k < claims
      invariant k <= claims && next == active + Futures(dispatched, k)
    {
      next := next + {dispatched + k};
      k := k + 1;
    }
  }

  lemma RunNext(c: Settings, schedule: seq<Moment>, i: nat)
    requires i < |schedule|
    ensures Run(c, schedule[..i + 1]) == Turn(c, Run(c, schedule[..i]), schedule[i])
  {
    assert schedule[..i + 1][..i] == schedule[..i];
  }

  /** One turn: collect, then leave, wait, or claim what there is room for. */
  method TakeTurn(c: Settings, before: Worker, m: Moment) returns (w: Worker)
    requires before.running
    ensures w == Turn(c, before, m)
  {
    var active, ended, broken := Collect(before.active, m);
    hide Futures, Done, Broken;
    w := before.(active := active, collected := before.collected + ended, failures := before.failures + broken);
    assert w == Collected(before, m);
    hide Collected;
    if m.stop || (c.maxJobs.Some? && w.dispatched >= c.maxJobs.value) {
      return w.(running := active != {});
    }
    var available := c.capacity - |active|;
    if c.maxJobs.Some? { available := Min(available, c.maxJobs.value - w.dispatched); }
    var claims := if available > 0 then Min(m.due, available) else 0;
    assert claims == Claimed(c, w, m);
    active := Submit(active, w.dispatched, claims);
    w := w.(active := active, dispatched := w.dispatched + claims);
    if c.drain && active == {} && claims == 0 && !m.queued { w := w.(running := false); }
  }

  lemma RunNothing(c: Settings, schedule: seq<Moment>)
    ensures Run(c, schedule[..0]) == Fresh
  { }

  method RunWorker(c: Settings, schedule: seq<Moment>) returns (r: Outcome)
    ensures r.Invalid? <==> !SettingsOk(c)
    ensures r.Returned? ==> !Run(c, schedule).running && r.failures == Run(c, schedule).failures
    ensures r.StillRunning? ==> Run(c, schedule).running && r.worker == Run(c, schedule)
  {
    hide Turn, Run;
    if !(1 <= c.capacity <= 32) || c.poll <= 0 { return Invalid; }
    if c.maxJobs.Some? && c.maxJobs.value < 1 { return Invalid; }
    var w, i := Fresh, 0;
    RunNothing(c, schedule);
    while i < |schedule|
      invariant i <= |schedule|
      invariant Run(c, schedule[..i]) == w && w.running
    {
      RunNext(c, schedule, i);
      w := TakeTurn(c, w, schedule[i]);
      i := i + 1;
      if !w.running {
        Halted(c, schedule, i);
        return Returned(w.failures);
      }
    }
    assert schedule[..i] == schedule;
    r := StillRunning(w);
  }

  /** A worker that has returned stays as it is. */
  lemma {:induction false} Halted(c: Settings, schedule: seq<Moment>, i: nat)
    requires i <= |schedule| && !Run(c, schedule[..i]).running
    ensures Run(c, schedule) == Run(c, schedule[..i])
    decreases |schedule| - i
  {
    if i == |schedule| {
      assert schedule[..i] == schedule;
    } else {
      assert schedule[..i + 1][..i] == schedule[..i];
      Halted(c, schedule, i + 1);
    }
  }

  // ---------- what every schedule keeps ----------

  predicate Steady(c: Settings, w: Worker) {
    && |w.active| <= c.capacity
    && (c.maxJobs.Some? ==> w.dispatched <= c.maxJobs.value)
    && w.dispatched == |w.active| + w.collected
    && w.failures <= w.collected
    && (forall f :: f in w.active ==> f < w.dispatched)
    && (!w.running ==> w.active == {})
  }

  lemma Subset(a: set<nat>, b: set<nat>)
    requires a <= b
    ensures |a| <= |b|
  {
    assert b == a + (b - a) && a !! (b - a);
  }

  lemma CollectedSteady(c: Settings, w: Worker, m: Moment)
    requires Steady(c, w)
    ensures Steady(c, Collected(w, m).(running := true))
  {
    Subset(Done(w.active, m), w.active);
    Subset(Broken(w.active, m), Done(w.active, m));
    assert |w.active - Done(w.active, m)| == |w.active| - |Done(w.active, m)|;
  }

  lemma TurnSteady(c: Settings, w: Worker, m: Moment)
    requires SettingsOk(c) && Steady(c, w)
    ensures Steady(c, Turn(c, w, m))
  {
    if w.running {
      CollectedSteady(c, w, m);
      var next := Collected(w, m);
      if !Leaving(c, next, m) {
        var n := Claimed(c, next, m);
        assert next.active !! Futures(next.dispatched, n);
        assert |next.active + Futures(next.dispatched, n)| == |next.active| + n;
      }
    }
  }

  /** Under every schedule, outstanding work never exceeds the capacity, dispatched jobs never
      exceed the limit and are exactly those active or collected, and a worker that has
      returned has nothing left running. */
  lemma {:induction false} WorkerIsSteady(c: Settings, schedule: seq<Moment>)
    requires SettingsOk(c)
    ensures Steady(c, Run(c, schedule))
  {
    if schedule != [] {
      WorkerIsSteady(c, schedule[..|schedule| - 1]);
      TurnSteady(c, Run(c, schedule[..|schedule| - 1]), schedule[|schedule| - 1]);
    }
  }

  lemma LegalTurn(c: Settings, w: Worker, m: Moment)
    requires SettingsOk(c) && Steady(c, w)
    ensures var t := Turn(c, w, m);
      && (m.stop ==> t.dispatched == w.dispatched)
      && (t.dispatched > w.dispatched ==> 1 <= Available(c, Collected(w, m)) <= 32)
      && (w.running && !Leaving(c, Collected(w, m), m) ==> Available(c, Collected(w, m)) >= 0)
  {
    hide Futures, Done, Broken;
    CollectedSteady(c, w, m);
  }

  /** A turn that sees the stop flag, or finds the limit reached, claims nothing; any other
      turn that claims asks for between 1 and 32 jobs, so the query never refuses it. */
  lemma ClaimsAreLegal(c: Settings, schedule: seq<Moment>, m: Moment)
    requires SettingsOk(c)
    ensures var w, t := Run(c, schedule), Run(c, schedule + [m]);
      && (m.stop ==> t.dispatched == w.dispatched)
      && (t.dispatched > w.dispatched ==> 1 <= Available(c, Collected(w, m)) <= 32)
      && (w.running && !Leaving(c, Collected(w, m), m) ==> Available(c, Collected(w, m)) >= 0)
  {
    hide Turn, Run, Steady;
    WorkerIsSteady(c, schedule);
    LegalTurn(c, Run(c, schedule), m);
    RunNext(c, schedule + [m], |schedule|);
    assert (schedule + [m])[..|schedule|] == schedule && (schedule + [m])[..|schedule| + 1] == schedule + [m];
  }

  lemma StopTurn(c: Settings, before: Worker, m: Moment)
    requires m.stop && (before.running || before.active == {})
    ensures var t := Turn(c, before, m);
      && t.dispatched == before.dispatched && t.active == before.active - Done(before.active, m)
      && (t.running <==> t.active != {})
  { }

  /** Once the stop flag is set the worker drains: nothing more is dispatched, each future
      that is out leaves when a turn finds it done, and the worker returns in the very turn
      in which the last one has left. */
  lemma {:induction false} StopDrains(c: Settings, schedule: seq<Moment>, more: seq<Moment>)
    requires Run(c, schedule).running && more != []
    requires forall i :: 0 <= i < |more| ==> more[i].stop
    ensures var w, t := Run(c, schedule), Run(c, schedule + more);
      && t.dispatched == w.dispatched
      && (forall f :: f in t.active <==> f in w.active && forall i :: 0 <= i < |more| ==> !more[i].done(f))
      && (t.running <==> t.active != {})
  {
    hide Turn;
    var n := |more| - 1;
    var init, last := more[..n], more[n];
    assert (schedule + more)[..|schedule + more| - 1] == schedule + init;
    if init == [] {
      assert schedule + init == schedule;
    } else {
      StopDrains(c, schedule, init);
    }
    StopTurn(c, Run(c, schedule + init), last);
    assert forall i :: 0 <= i < n ==> init[i] == more[i];
  }

  /** The futures that a turn does not find done. */
  function LeftAfter(w: Worker, m: Moment): set<nat> {
    set f | f in w.active && !m.done(f)
  }

  /** How many jobs a turn may still take: the free places, within the limit of jobs. */
  predicate MayTake(c: Settings, w: Worker, m: Moment, n: int) {
    && |LeftAfter(w, m)| + n <= c.capacity
    && (c.maxJobs.Some? ==> w.dispatched + n <= c.maxJobs.value)
  }

  /** The turn is to leave once its work is done: a stop was signalled, or the limit of jobs
      is reached. */
  predicate Closing(c: Settings, w: Worker, m: Moment) {
    m.stop || (c.maxJobs.Some? && w.dispatched == c.maxJobs.value)
  }

  lemma CollectedIs(w: Worker, m: Moment)
    ensures var v := Collected(w, m);
      && v.active == LeftAfter(w, m) && v.collected == w.collected + |w.active| - |LeftAfter(w, m)|
      && v.failures == w.failures + |set f | f in w.active && m.done(f) && m.ending(f) == Failed|
      && v.dispatched == w.dispatched && v.running == w.running
  {
    var done, left := Done(w.active, m), LeftAfter(w, m);
    assert w.active == done + left && done !! left;
    assert w.active - done == left;
    assert Broken(w.active, m) == set f | f in w.active && m.done(f) && m.ending(f) == Failed;
  }

  /** A turn that is not closing takes as many due jobs as it may. */
  lemma ClaimedIs(c: Settings, w: Worker, m: Moment)
    requires SettingsOk(c) && Steady(c, w) && !Closing(c, w, m)
    ensures var n: int := Claimed(c, Collected(w, m), m);
      && 0 <= n <= m.due && MayTake(c, w, m, n) && (n == m.due || !MayTake(c, w, m, n + 1))
      && (LeftAfter(w, m) == {} && n == 0 ==> m.due == 0)
  {
    CollectedIs(w, m);
    Subset(LeftAfter(w, m), w.active);
    hide Collected, Done, Broken;
  }

  /** What one turn makes of a running worker. */
  ghost predicate TurnDoes(c: Settings, w: Worker, m: Moment, t: Worker) {
    var taken := t.dispatched - w.dispatched;
    && t.collected == w.collected + |w.active| - |LeftAfter(w, m)|
    && t.failures == w.failures + |set f | f in w.active && m.done(f) && m.ending(f) == Failed|
    && (forall f: nat :: f in t.active <==> f in LeftAfter(w, m) || w.dispatched <= f < t.dispatched)
    && (Closing(c, w, m) ==> taken == 0)
    && (!Closing(c, w, m) ==>
          && 0 <= taken <= m.due && MayTake(c, w, m, taken)
          && (taken == m.due || !MayTake(c, w, m, taken + 1)))
  }

  predicate Returns(c: Settings, w: Worker, m: Moment) {
    LeftAfter(w, m) == {} && (Closing(c, w, m) || (c.drain && m.due == 0 && !m.queued))
  }

  lemma ClosingTurn(c: Settings, w: Worker, m: Moment)
    requires Steady(c, w) && w.running && Closing(c, w, m)
    ensures TurnDoes(c, w, m, Turn(c, w, m)) && (!Turn(c, w, m).running <==> Returns(c, w, m))
  {
    hide Collected, Claimed, MayTake, LeftAfter, Futures;
    CollectedIs(w, m);
    assert Leaving(c, Collected(w, m), m);
  }

  lemma OpenTurn(c: Settings, w: Worker, m: Moment)
    requires SettingsOk(c) && Steady(c, w) && w.running && !Closing(c, w, m)
    ensures TurnDoes(c, w, m, Turn(c, w, m)) && (!Turn(c, w, m).running <==> Returns(c, w, m))
  {
    hide Collected, Claimed, MayTake, LeftAfter, Futures;
    CollectedIs(w, m);
    var v := Collected(w, m);
    assert !Leaving(c, v, m);
    ClaimedIs(c, w, m);
    FuturesNone(w.dispatched, Claimed(c, v, m));
    hide Closing, SettingsOk, Steady, Leaving;
  }

  lemma TurnIs(c: Settings, w: Worker, m: Moment)
    requires SettingsOk(c) && Steady(c, w) && w.running
    ensures TurnDoes(c, w, m, Turn(c, w, m)) && (!Turn(c, w, m).running <==> Returns(c, w, m))
  {
    hide *;
    if Closing(c, w, m) { ClosingTurn(c, w, m); } else { OpenTurn(c, w, m); }
  }

  lemma FuturesNone(from: nat, count: nat)
    ensures count > 0 ==> Futures(from, count) != {}
    ensures count == 0 ==> Futures(from, count) == {}
  {
    if count > 0 { assert from in Futures(from, count); }
  }

  /** What one turn of a running worker does.  It collects what is done; unless it is closing
      it takes as many due jobs as it may; and it returns if and only if no work is left and it
      is closing, or it is to drain and the queue holds nothing that is due or will be. */
  lemma TurnOutcome(c: Settings, schedule: seq<Moment>, m: Moment)
    requires SettingsOk(c) && Run(c, schedule).running
    ensures var w, t := Run(c, schedule), Run(c, schedule + [m]);
      TurnDoes(c, w, m, t) && (!t.running <==> Returns(c, w, m))
  {
    hide Turn, TurnDoes, Returns, Steady;
    assert (schedule + [m])[..|schedule|] == schedule;
    WorkerIsSteady(c, schedule);
    TurnIs(c, Run(c, schedule), m);
  }

  lemma Unclosed(c: Settings, w: Worker, m: Moment)
    requires c.maxJobs.None? && !c.drain && !m.stop
    ensures !Returns(c, w, m)
  { }

  /** A worker that is neither stopped, nor limited, nor to drain, never returns. */
  lemma {:induction false} StaysUp(c: Settings, schedule: seq<Moment>)
    requires SettingsOk(c) && c.maxJobs.None? && !c.drain
    requires forall i :: 0 <= i < |schedule| ==> !schedule[i].stop
    ensures Run(c, schedule).running
  {
    hide Run, TurnDoes, Returns;
    if schedule == [] {
      assert schedule[..0] == schedule;
      RunNothing(c, schedule);
    } else {
      var init, last := schedule[..|schedule| - 1], schedule[|schedule| - 1];
      StaysUp(c, init);
      TurnOutcome(c, init, last);
      Unclosed(c, Run(c, init), last);
      assert init + [last] == schedule;
    }
  }
}
