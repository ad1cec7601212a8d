/** The abort signal of an executor: callbacks to run once, when ownership is lost.

    Registering, unregistering and aborting each take the lock for one short section; the
    callbacks themselves run outside it, so any call may come between two of them. */
module AbortSignal {

  /** A callback is known by its identity; the same one may be registered again. */
  type Callback = nat

  // ---------- the locked sections ----------

  datatype Shared = Shared(aborted: bool, callbacks: seq<Callback>)

  function RemoveFirst(s: seq<Callback>, x: Callback): seq<Callback> {
    if s == [] then []
    else if s[0] == x then s[1..]
    else [s[0]] + RemoveFirst(s[1..], x)
  }

  lemma {:induction false} RemoveCounts(s: seq<Callback>, x: Callback)
    ensures x in s ==> multiset(RemoveFirst(s, x)) + multiset{x} == multiset(s)
    ensures x !in s ==> RemoveFirst(s, x) == s
  {
    if s != [] {
      assert s == [s[0]] + s[1..];
      if s[0] != x { RemoveCounts(s[1..], x); }
    }
  }

  function Registered(s: Shared, callback: Callback): Shared {
    if s.aborted then s else s.(callbacks := s.callbacks + [callback])
  }

  function Unregistered(s: Shared, callback: Callback): Shared {
    s.(callbacks := RemoveFirst(s.callbacks, callback))
  }

  class Signal {
    var aborted: bool
    var callbacks: seq<Callback>

    function Contents(): Shared
      reads this
    {
      Shared(aborted, callbacks)
    }

    constructor ()
      ensures Contents() == Shared(false, [])
    {
      aborted, callbacks := false, [];
    }

    /** `immediate` says that the caller is to run the callback itself. */
    method OnAbort(callback: Callback) returns (immediate: bool)
      modifies this
      ensures Contents() == Registered(old(Contents()), callback)
      ensures immediate == old(aborted)
    {
      immediate := aborted;
      if !immediate { callbacks := callbacks + [callback]; }
    }

    method Unregister(callback: Callback)
      modifies this
      ensures Contents() == Unregistered(old(Contents()), callback)
    {
      RemoveCounts(callbacks, callback);
      if callback in callbacks { callbacks := RemoveFirst(callbacks, callback); }
    }

    /** The first abort takes the callbacks it is to run; later ones find nothing. */
    method Abort() returns (taken: seq<Callback>)
      modifies this
      ensures Contents() == Shared(true, if old(aborted) then old(callbacks) else [])
      ensures taken == if old(aborted) then [] else old(callbacks)
    {
      if aborted { return []; }
      aborted := true;
      taken, callbacks := callbacks, [];
    }
  }

  // ---------- every interleaving ----------

  /** `late` are callbacks that their registering call still has to run, `queue` those that
      the abort call still has to run.  `owners` lists the callback of each registration and
      `uses` how often its unregister handle was used. */
  datatype State = State(
    shared: Shared,
    late: multiset<Callback>,
    queue: seq<Callback>,
    invoked: multiset<Callback>,
    removed: multiset<Callback>,
    owners: seq<Callback>,
    uses: seq<nat>)

  datatype Event =
    | Register(callback: Callback)
    | RunLate(callback: Callback)
    | Unregister(registration: nat)
    | Abort
    | RunNext

  const Initial := State(Shared(false, []), multiset{}, [], multiset{}, multiset{}, [], [])

  function Step(s: State, e: Event): State {
    match e
    case Register(callback) =>
      s.(shared := Registered(s.shared, callback),
         late := if s.shared.aborted then s.late + multiset{callback} else s.late,
         owners := s.owners + [callback], uses := s.uses + [0])
    case RunLate(callback) =>
      if callback in s.late
      then s.(late := s.late - multiset{callback}, invoked := s.invoked + multiset{callback})
      else s
    case Unregister(r) =>
      if r >= |s.owners| || r >= |s.uses| then s
      else
        var callback := s.owners[r];
        s.(shared := Unregistered(s.shared, callback),
           removed := if callback in s.shared.callbacks then s.removed + multiset{callback} else s.removed,
           uses := s.uses[r := s.uses[r] + 1])
    case Abort =>
      if s.shared.aborted then s
      else s.(shared := Shared(true, []), queue := s.shared.callbacks)
    case RunNext =>
      if s.queue == [] then s
      else s.(queue := s.queue[1..], invoked := s.invoked + multiset{s.queue[0]})
  }

  function Run(trace: seq<Event>): State {
    if trace == [] then Initial else Step(Run(trace[..|trace| - 1]), trace[|trace| - 1])
  }

  lemma RunNone()
    ensures Run([]) == Initial
  { }

  lemma RunOne(trace: seq<Event>, e: Event)
    ensures Run(trace + [e]) == Step(Run(trace), e)
  {
    assert (trace + [e])[..|trace|] == trace;
  }

  /** Where the registrations of a callback are: listed, about to run, run, or removed. */
  function Places(s: State, callback: Callback): nat {
    multiset(s.shared.callbacks)[callback] + s.late[callback] + multiset(s.queue)[callback]
    + s.invoked[callback] + s.removed[callback]
  }

  predicate Orderly(s: State) {
    && (s.shared.aborted ==> s.shared.callbacks == [])
    && (!s.shared.aborted ==> s.late == multiset{} && s.queue == [] && s.invoked == multiset{})
    && |s.uses| == |s.owners|
  }

  ghost predicate Conserved(s: State) {
    && Orderly(s)
    && forall callback :: multiset(s.owners)[callback] == Places(s, callback)
  }

  lemma Appended(s: seq<Callback>, x: Callback, callback: Callback)
    ensures multiset(s + [x])[callback] == multiset(s)[callback] + if x == callback then 1 else 0
  { }

  lemma Dropped(s: seq<Callback>, callback: Callback)
    requires s != []
    ensures multiset(s)[callback] == multiset(s[1..])[callback] + if s[0] == callback then 1 else 0
  {
    assert s == [s[0]] + s[1..];
  }

  lemma RemovedCount(s: seq<Callback>, x: Callback, callback: Callback)
    ensures multiset(s)[callback]
         == multiset(RemoveFirst(s, x))[callback] + if x in s && x == callback then 1 else 0
  {
    RemoveCounts(s, x);
    if x in s {
      assert multiset(s)[callback] == (multiset(RemoveFirst(s, x)) + multiset{x})[callback];
    }
  }

  lemma RegisterConserves(s: State, added: Callback, callback: Callback)
    requires Orderly(s) && multiset(s.owners)[callback] == Places(s, callback)
    ensures multiset(Step(s, Register(added)).owners)[callback] == Places(Step(s, Register(added)), callback)
  {
    hide RemoveFirst;
    Appended(s.owners, added, callback);
    Appended(s.shared.callbacks, added, callback);
  }

  lemma UnregisterConserves(s: State, r: nat, callback: Callback)
    requires Orderly(s) && multiset(s.owners)[callback] == Places(s, callback)
    ensures multiset(Step(s, Unregister(r)).owners)[callback] == Places(Step(s, Unregister(r)), callback)
  {
    hide RemoveFirst;
    if r < |s.owners| { RemovedCount(s.shared.callbacks, s.owners[r], callback); }
  }

  /** One step moves registrations between places and loses none. */
  lemma StepConserves(s: State, e: Event, callback: Callback)
    requires Orderly(s) && multiset(s.owners)[callback] == Places(s, callback)
    ensures multiset(Step(s, e).owners)[callback] == Places(Step(s, e), callback)
  {
    match e
    case Register(added) => RegisterConserves(s, added, callback); hide *;
    case Unregister(r) => UnregisterConserves(s, r, callback); hide *;
    case RunNext =>
      if s.queue != [] { Dropped(s.queue, callback); }
    case _ =>
  }

  lemma StepOrderly(s: State, e: Event)
    requires Orderly(s)
    ensures Orderly(Step(s, e))
  { }

  /** Nothing is lost and nothing runs twice: under every interleaving each registration is
      still listed, about to run, run, or removed, counted per callback.  Nothing runs
      before an abort. */
  lemma {:induction false} RegistrationsAreConserved(trace: seq<Event>)
    ensures Conserved(Run(trace))
  {
    if trace != [] {
      var s, e := Run(trace[..|trace| - 1]), trace[|trace| - 1];
      RegistrationsAreConserved(trace[..|trace| - 1]);
      StepOrderly(s, e);
      forall callback ensures multiset(Step(s, e).owners)[callback] == Places(Step(s, e), callback) {
        StepConserves(s, e, callback);
      }
      hide Step, Places, Orderly;
    }
  }

  /** Registrations that do not share their callback with another. */
  predicate Distinct(owners: seq<Callback>) {
    forall i, k :: 0 <= i < k < |owners| ==> owners[i] != owners[k]
  }

  lemma {:induction false} CountedOnce(owners: seq<Callback>, r: nat)
    requires Distinct(owners) && r < |owners|
    ensures multiset(owners)[owners[r]] == 1
  {
    var n := |owners| - 1;
    assert owners == owners[..n] + [owners[n]];
    if r < n {
      CountedOnce(owners[..n], r);
    } else {
      assert owners[n] !in owners[..n];
    }
  }

  /** Every call has returned. */
  predicate Quiet(s: State) {
    s.late == multiset{} && s.queue == []
  }

  /** Each registration is run at most once; once an abort has happened and every call has
      returned, it was run exactly once, or removed before the abort took the list.  This
      covers registrations made after the abort. */
  lemma EachRunsAtMostOnce(trace: seq<Event>, r: nat)
    requires Distinct(Run(trace).owners) && r < |Run(trace).owners|
    ensures var s := Run(trace);
      var callback := s.owners[r];
      && s.invoked[callback] + s.removed[callback] <= 1
      && (s.shared.aborted && Quiet(s) ==> s.invoked[callback] + s.removed[callback] == 1)
  {
    var s := Run(trace);
    RegistrationsAreConserved(trace);
    CountedOnce(s.owners, r);
    assert multiset(s.owners)[s.owners[r]] == Places(s, s.owners[r]);
  }

  lemma StepAfterAbort(s: State, e: Event)
    requires Orderly(s) && s.shared.aborted
    ensures var t := Step(s, e); t.shared.aborted && t.removed == s.removed && s.invoked <= t.invoked
  { }

  /** After an abort nothing is removed any more, and no run is taken back. */
  lemma {:induction false} AbortIsFinal(trace: seq<Event>, more: seq<Event>)
    requires Run(trace).shared.aborted
    ensures var s, t := Run(trace), Run(trace + more);
      t.shared.aborted && t.removed == s.removed && s.invoked <= t.invoked
  {
    hide Step, Places, Orderly, Run;
    if more == [] {
      assert trace + more == trace;
    } else {
      var init, last := more[..|more| - 1], more[|more| - 1];
      AbortIsFinal(trace, init);
      RegistrationsAreConserved(trace + init);
      StepAfterAbort(Run(trace + init), last);
      RunOne(trace + init, last);
      assert trace + more == trace + init + [last];
    }
  }

  // ---------- callbacks that are registered more than once ----------

  /** How often the handles of registrations of `callback` were used. */
  function Uses(owners: seq<Callback>, uses: seq<nat>, callback: Callback): nat
    requires |owners| == |uses|
  {
    if owners == [] then 0
    else
      var n := |owners| - 1;
      Uses(owners[..n], uses[..n], callback) + if owners[n] == callback then uses[n] else 0
  }

  lemma {:induction false} OneMoreUse(owners: seq<Callback>, uses: seq<nat>, r: nat, callback: Callback)
    requires |owners| == |uses| && r < |owners|
    ensures Uses(owners, uses[r := uses[r] + 1], callback)
         == Uses(owners, uses, callback) + if owners[r] == callback then 1 else 0
  {
    var n := |owners| - 1;
    if r < n {
      assert uses[r := uses[r] + 1][..n] == uses[..n][r := uses[..n][r] + 1];
      OneMoreUse(owners[..n], uses[..n], r, callback);
    } else {
      assert uses[r := uses[r] + 1][..n] == uses[..n];
    }
  }

  lemma {:induction false} RemovalsAreUses(trace: seq<Event>, callback: Callback)
    ensures var s := Run(trace); |s.owners| == |s.uses| && s.removed[callback] <= Uses(s.owners, s.uses, callback)
  {
    RegistrationsAreConserved(trace);
    if trace != [] {
      var s, e := Run(trace[..|trace| - 1]), trace[|trace| - 1];
      RemovalsAreUses(trace[..|trace| - 1], callback);
      RegistrationsAreConserved(trace[..|trace| - 1]);
      StepUses(s, e, callback);
      hide Step, Places, Orderly, Uses;
    }
  }

  lemma StepUses(s: State, e: Event, callback: Callback)
    requires Orderly(s) && s.removed[callback] <= Uses(s.owners, s.uses, callback)
    ensures var t := Step(s, e); |t.owners| == |t.uses| && t.removed[callback] <= Uses(t.owners, t.uses, callback)
  {
    hide RemoveFirst;
    match e
    case Register(added) =>
      assert (s.owners + [added])[..|s.owners|] == s.owners && (s.uses + [0])[..|s.uses|] == s.uses;
    case Unregister(r) =>
      if r < |s.owners| { OneMoreUse(s.owners, s.uses, r, callback); }
    case _ =>
  }

  /** How many registrations of `callback` never had their handle used. */
  function Kept(owners: seq<Callback>, uses: seq<nat>, callback: Callback): nat
    requires |owners| == |uses|
  {
    if owners == [] then 0
    else
      var n := |owners| - 1;
      Kept(owners[..n], uses[..n], callback) + if owners[n] == callback && uses[n] == 0 then 1 else 0
  }

  /** No handle of a registration of `callback` was used twice. */
  predicate UsedOnce(owners: seq<Callback>, uses: seq<nat>, callback: Callback)
    requires |owners| == |uses|
  {
    forall i :: 0 <= i < |owners| && owners[i] == callback ==> uses[i] <= 1
  }

  lemma UsedOnceStep(owners: seq<Callback>, uses: seq<nat>, callback: Callback)
    requires |owners| == |uses| && owners != []
    ensures var n := |owners| - 1;
      UsedOnce(owners, uses, callback) <==>
        UsedOnce(owners[..n], uses[..n], callback) && (owners[n] == callback ==> uses[n] <= 1)
  { }

  lemma {:induction false} KeptAndUsed(owners: seq<Callback>, uses: seq<nat>, callback: Callback)
    requires |owners| == |uses|
    ensures Kept(owners, uses, callback) + Uses(owners, uses, callback) >= multiset(owners)[callback]
    ensures Kept(owners, uses, callback) + Uses(owners, uses, callback) == multiset(owners)[callback]
        <==> UsedOnce(owners, uses, callback)
  {
    if owners != [] {
      var n := |owners| - 1;
      KeptAndUsed(owners[..n], uses[..n], callback);
      assert owners == owners[..n] + [owners[n]];
      UsedOnceStep(owners, uses, callback);
    }
    hide UsedOnce;
  }

  /** An abort has happened, every call has returned, and the registrations and the uses of
      their handles were these. */
  predicate Ends(trace: seq<Event>, owners: seq<Callback>, uses: seq<nat>) {
    var s := Run(trace);
    s.shared.aborted && Quiet(s) && s.owners == owners && s.uses == uses
  }

  /** When no handle of a callback is used twice, it runs at least once for every
      registration of it that was not unregistered, however many there are. */
  lemma UnregisteredOnceIsEnough(trace: seq<Event>, owners: seq<Callback>, uses: seq<nat>, callback: Callback)
    requires Ends(trace, owners, uses) && |owners| == |uses| && UsedOnce(owners, uses, callback)
    ensures Run(trace).invoked[callback] >= Kept(owners, uses, callback)
  {
    var s := Run(trace);
    RegistrationsAreConserved(trace);
    RemovalsAreUses(trace, callback);
    KeptAndUsed(owners, uses, callback);
    assert multiset(s.owners)[callback] == Places(s, callback);
  }

  /** So far every use of a handle removed a registration, as long as one was listed. */
  predicate Spent(s: State, callback: Callback) {
    && Orderly(s) && !s.shared.aborted
    && (callback in s.shared.callbacks ==> s.removed[callback] == Uses(s.owners, s.uses, callback))
  }

  lemma SpendOne(s: State, r: nat, callback: Callback)
    requires Spent(s, callback) && r < |s.owners|
    ensures var t := Step(s, Unregister(r));
      Spent(t, callback) && t.owners == s.owners && |s.uses| == |s.owners| && t.uses == s.uses[r := s.uses[r] + 1]
  {
    hide RemoveFirst, Uses;
    OneMoreUse(s.owners, s.uses, r, callback);
    RemovedCount(s.shared.callbacks, s.owners[r], callback);
  }

  function Sum(uses: seq<nat>): nat {
    if uses == [] then 0 else Sum(uses[..|uses| - 1]) + uses[|uses| - 1]
  }

  lemma {:induction false} SumDrops(uses: seq<nat>, r: nat)
    requires r < |uses| && uses[r] > 0
    ensures Sum(uses[r := uses[r] - 1]) < Sum(uses)
  {
    var n := |uses| - 1;
    if r < n {
      assert uses[r := uses[r] - 1][..n] == uses[..n][r := uses[..n][r] - 1];
      SumDrops(uses[..n], r);
    } else {
      assert uses[r := uses[r] - 1][..n] == uses[..n];
    }
  }

  lemma {:induction false} RegisterAll(owners: seq<Callback>, callback: Callback) returns (trace: seq<Event>)
    ensures var s := Run(trace);
      && Spent(s, callback) && s.owners == owners && |s.uses| == |owners|
      && s.removed[callback] == 0 && Uses(s.owners, s.uses, callback) == 0
      && forall i :: 0 <= i < |s.uses| ==> s.uses[i] == 0
  {
    hide Run, RemoveFirst;
    if owners == [] {
      trace := [];
      RunNone();
    } else {
      var n := |owners| - 1;
      var init := RegisterAll(owners[..n], callback);
      trace := init + [Register(owners[n])];
      RunOne(init, Register(owners[n]));
      assert owners == owners[..n] + [owners[n]];
      assert Run(trace).uses[..n] == Run(init).uses;
    }
  }

  /** Registers everything first, then uses every handle as often as asked. */
  lemma {:induction false} UseAll(owners: seq<Callback>, uses: seq<nat>, callback: Callback)
    returns (trace: seq<Event>)
    requires |owners| == |uses|
    ensures var s := Run(trace); Spent(s, callback) && s.owners == owners && s.uses == uses
    decreases Sum(uses)
  {
    hide Step, Run, Spent, Sum;
    if r: nat :| r < |uses| && uses[r] > 0 {
      SumDrops(uses, r);
      var init := UseAll(owners, uses[r := uses[r] - 1], callback);
      trace := init + [Unregister(r)];
      RunOne(init, Unregister(r));
      SpendOne(Run(init), r, callback);
      assert uses[r := uses[r] - 1][r := uses[r]] == uses;
    } else {
      trace := RegisterAll(owners, callback);
    }
  }

  /** Lets every callback that was taken run. */
  lemma {:induction false} Drain(trace: seq<Event>) returns (done: seq<Event>)
    requires Run(trace).shared.aborted && Run(trace).late == multiset{}
    ensures var s := Run(trace); Ends(done, s.owners, s.uses) && Run(done).removed == s.removed
    decreases |Run(trace).queue|
  {
    if Run(trace).queue == [] {
      done := trace;
    } else {
      RunOne(trace, RunNext);
      done := Drain(trace + [RunNext]);
    }
  }

  /** With a handle used twice, some order of the calls leaves fewer runs than kept
      registrations: registering everything first, then every use, then the abort. */
  lemma UsedTwiceSilences(owners: seq<Callback>, uses: seq<nat>, callback: Callback)
    returns (trace: seq<Event>)
    requires |owners| == |uses| && !UsedOnce(owners, uses, callback) && Kept(owners, uses, callback) > 0
    ensures Ends(trace, owners, uses) && Run(trace).invoked[callback] < Kept(owners, uses, callback)
  {
    hide Uses, Kept;
    var used := UseAll(owners, uses, callback);
    var s := Run(used);
    RunOne(used, Abort);
    trace := Drain(used + [Abort]);
    KeptAndUsed(owners, uses, callback);
    RegistrationsAreConserved(used);
    RegistrationsAreConserved(trace);
    assert multiset(owners)[callback] == Places(s, callback);
    assert multiset(owners)[callback] == Places(Run(trace), callback);
  }

  /** Exactly when is a kept registration sure to run: whatever the order of the calls, a
      callback runs at least once for each registration that was kept, if and only if none
      was kept or no handle of that callback was used twice. */
  lemma KeptRunIff(owners: seq<Callback>, uses: seq<nat>, callback: Callback)
    requires |owners| == |uses|
    ensures (forall trace :: Ends(trace, owners, uses) ==> Run(trace).invoked[callback] >= Kept(owners, uses, callback))
        <==> (Kept(owners, uses, callback) > 0 ==> UsedOnce(owners, uses, callback))
  {
    hide Ends, Kept, Run, UsedOnce;
    if UsedOnce(owners, uses, callback) {
      forall trace | Ends(trace, owners, uses)
        ensures Run(trace).invoked[callback] >= Kept(owners, uses, callback)
      { UnregisteredOnceIsEnough(trace, owners, uses, callback); }
    } else if Kept(owners, uses, callback) > 0 {
      var trace := UsedTwiceSilences(owners, uses, callback);
    }
  }

  /** Using one handle twice removes another registration of the same callback, which then
      never runs although nobody unregistered it. */
  lemma HandleUsedTwice()
    ensures var s := Run([Register(7), Register(7), Unregister(0), Unregister(0), Abort]);
      && s.shared.aborted && Quiet(s) && s.owners == [7, 7] && s.uses == [2, 0]
      && s.invoked[7] == 0
  {
    var t1 := [Register(7)];
    var t2 := t1 + [Register(7)];
    var t3 := t2 + [Unregister(0)];
    var t4 := t3 + [Unregister(0)];
    var t5 := t4 + [Abort];
    assert t1[..0] == [] && t2[..1] == t1 && t3[..2] == t2 && t4[..3] == t3 && t5[..4] == t4;
    assert t5 == [Register(7), Register(7), Unregister(0), Unregister(0), Abort];
    assert Run(t1) == Step(Initial, Register(7));
    assert Run(t2).shared.callbacks == [7, 7];
    assert Run(t3).shared.callbacks == [7];
    assert Run(t4).shared.callbacks == [];
  }
}
