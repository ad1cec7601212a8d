/** Choosing the next node of a linear graph: settle the routes that were not taken, then
    run a node that is ready.

    An edge is decided when its source has finished: taken or passed over.  A node whose
    edges are all passed over is skipped, which passes over its own edges in turn. */
module Routing {
  import Records
  import Runtime

  datatype Edge = Edge(source: string, target: string)

  datatype Graph = Graph(entry: string, nodes: seq<string>, edges: seq<Edge>)

  datatype Choice = Pick(node: string) | Stall | Finished

  /** Edges by their position in the graph: true when taken. */
  type Decisions = map<nat, bool>

  predicate GraphOk(g: Graph) {
    && g.entry in g.nodes
    && (forall i, k :: 0 <= i < k < |g.nodes| ==> g.nodes[i] != g.nodes[k])
    && (forall i :: 0 <= i < |g.edges| ==> g.edges[i].source in g.nodes && g.edges[i].target in g.nodes)
  }

  predicate Undecided(g: Graph, d: Decisions, n: string) {
    exists i :: 0 <= i < |g.edges| && g.edges[i].target == n && i !in d
  }

  predicate Taken(g: Graph, d: Decisions, n: string) {
    exists i :: 0 <= i < |g.edges| && g.edges[i].target == n && i in d && d[i]
  }

  /** The node may run: it is the entry, or some edge to it was taken and none is open. */
  predicate ReadyToRun(g: Graph, d: Decisions, n: string) {
    n == g.entry || (!Undecided(g, d, n) && Taken(g, d, n))
  }

  /** No route leads to the node any more. */
  predicate PassedOver(g: Graph, d: Decisions, n: string) {
    n != g.entry && !Undecided(g, d, n) && !Taken(g, d, n)
  }

  /** The edges of a finished node are decided. */
  predicate Settled(g: Graph, done: set<string>, d: Decisions) {
    forall i :: 0 <= i < |g.edges| && g.edges[i].source in done ==> i in d
  }

  function PassOver(g: Graph, d: Decisions, n: string, count: nat): (r: Decisions)
    requires count <= |g.edges|
    ensures forall i: nat :: i in r <==> i in d || (i < count && g.edges[i].source == n)
    ensures forall i: nat :: i in r ==> r[i] == if i < count && g.edges[i].source == n then false else d[i]
  {
    if count == 0 then d
    else
      var rest := PassOver(g, d, n, count - 1);
      if g.edges[count - 1].source == n then rest[count - 1 := false] else rest
  }

  /** Skip `skips` in order, each when no route leads to it any more. */
  predicate SkipsInOrder(g: Graph, before: Decisions, skips: seq<string>, after: Decisions)
    decreases |skips|
  {
    if skips == [] then after == before
    else
      var n := skips[0];
      PassedOver(g, before, n)
      && SkipsInOrder(g, PassOver(g, before, n, |g.edges|), skips[1..], after)
  }

  lemma {:induction false} SkipOneMore(g: Graph, before: Decisions, skips: seq<string>, after: Decisions, n: string)
    requires SkipsInOrder(g, before, skips, after) && PassedOver(g, after, n)
    ensures SkipsInOrder(g, before, skips + [n], PassOver(g, after, n, |g.edges|))
    decreases |skips|
  {
    if skips == [] {
      assert (skips + [n])[1..] == [];
    } else {
      assert (skips + [n])[1..] == skips[1..] + [n];
      SkipOneMore(g, PassOver(g, before, skips[0], |g.edges|), skips[1..], after, n);
    }
  }

  function Elements(s: seq<string>): set<string> {
    set n | n in s
  }

  /** `a` comes before `b` in the list of nodes. */
  ghost predicate Before(nodes: seq<string>, a: string, b: string) {
    exists i, k :: 0 <= i < k < |nodes| && nodes[i] == a && nodes[k] == b
  }

  /** What one call settles and chooses.  A node is picked only when every earlier node of
      the graph that is left had an open edge from the start. */
  ghost predicate Routed(g: Graph, rows: set<string>, before: Decisions, choice: Choice, skips: seq<string>,
                         after: Decisions) {
    && SkipsInOrder(g, before, skips, after)
    && (forall i :: 0 <= i < |skips| ==> skips[i] in g.nodes && skips[i] !in rows)
    && (forall i, k :: 0 <= i < k < |skips| ==> skips[i] != skips[k])
    && match choice
       case Pick(n) =>
         && n in g.nodes && n !in rows && n !in skips && ReadyToRun(g, after, n)
         && (forall m :: m in g.nodes && m !in rows && m !in skips && Before(g.nodes, m, n) ==>
               m != g.entry && Undecided(g, before, m))
       case Finished => forall n :: n in g.nodes ==> n in rows || n in skips
       case Stall =>
         && (exists n :: n in g.nodes && n !in rows && n !in skips)
         && (forall n :: n in g.nodes && n !in rows && n !in skips ==> n != g.entry && Undecided(g, after, n))
  }

  /** `skips` are settled so far; decisions only grow. */
  ghost predicate Progress(g: Graph, rows: set<string>, before: Decisions, skips: seq<string>, decided: Decisions) {
    && SkipsInOrder(g, before, skips, decided)
    && (forall i :: 0 <= i < |skips| ==> skips[i] in g.nodes && skips[i] !in rows)
    && (forall i, k :: 0 <= i < k < |skips| ==> skips[i] != skips[k])
    && (Settled(g, rows, before) ==> Settled(g, rows + Elements(skips), decided))
    && (forall i :: i in before ==> i in decided)
  }

  /** Different nodes in the order in which `nodes` lists them. */
  ghost predicate Ordered(nodes: seq<string>, rest: seq<string>) {
    forall i, k :: 0 <= i < k < |rest| ==> rest[i] != rest[k] && Before(nodes, rest[i], rest[k])
  }

  /** `rest` lists the nodes without a row that are not skipped, in the graph's order. */
  ghost predicate Left(g: Graph, rows: set<string>, skips: seq<string>, rest: seq<string>) {
    && (forall i :: 0 <= i < |rest| ==> rest[i] in g.nodes && rest[i] !in rows && rest[i] !in skips)
    && Ordered(g.nodes, rest)
    && (forall n :: n in g.nodes && n !in rows && n !in skips ==> n in rest)
  }

  lemma SkipNode(g: Graph, rows: set<string>, before: Decisions, skips: seq<string>, decided: Decisions, n: string)
    requires GraphOk(g) && Progress(g, rows, before, skips, decided)
    requires n in g.nodes && n !in rows && n !in skips && PassedOver(g, decided, n)
    ensures Progress(g, rows, before, skips + [n], PassOver(g, decided, n, |g.edges|))
  {
    SkipOneMore(g, before, skips, decided, n);
    if Settled(g, rows, before) { SkippedSettles(g, rows, skips, decided, n); }
    hide SkipsInOrder, PassOver, Settled;
  }

  lemma SkippedSettles(g: Graph, rows: set<string>, skips: seq<string>, decided: Decisions, n: string)
    requires Settled(g, rows + Elements(skips), decided)
    ensures Settled(g, rows + Elements(skips + [n]), PassOver(g, decided, n, |g.edges|))
  {
    hide PassOver;
    assert Elements(skips + [n]) == Elements(skips) + {n};
  }

  lemma SkipLeaves(g: Graph, rows: set<string>, skips: seq<string>, left: seq<string>, rest: seq<string>)
    requires rest != [] && Left(g, rows, skips, left + rest)
    ensures Left(g, rows, skips + [rest[0]], left + rest[1..])
  {
    hide Before;
    var all, fewer := left + rest, left + rest[1..];
    var n := rest[0];
    assert all[|left|] == n;
    assert forall i :: 0 <= i < |fewer| ==> fewer[i] == all[if i < |left| then i else i + 1];
    forall i | 0 <= i < |fewer|
      ensures fewer[i] in g.nodes && fewer[i] !in rows && fewer[i] !in skips + [n]
    {
      var j := if i < |left| then i else i + 1;
      assert all[j] != all[|left|];
    }
    forall i, k | 0 <= i < k < |fewer| ensures fewer[i] != fewer[k] && Before(g.nodes, fewer[i], fewer[k]) {
      assert all[if i < |left| then i else i + 1] != all[if k < |left| then k else k + 1];
    }
    forall m | m in g.nodes && m !in rows && m !in skips + [n] ensures m in fewer {
      assert m in all;
      var i :| 0 <= i < |all| && all[i] == m;
      assert i < |left| ==> fewer[i] == m;
      assert i > |left| ==> fewer[i - 1] == m;
    }
  }

  lemma InPlay(g: Graph, rows: set<string>, skips: seq<string>, left: seq<string>, rest: seq<string>)
    requires rest != [] && Left(g, rows, skips, left + rest)
    ensures rest[0] in g.nodes && rest[0] !in rows && rest[0] !in skips
  {
    assert (left + rest)[|left|] == rest[0];
  }

  lemma StillOpen(g: Graph, before: Decisions, decided: Decisions, n: string)
    requires (forall i :: i in before ==> i in decided) && Undecided(g, decided, n)
    ensures Undecided(g, before, n)
  { }

  lemma KeepNode(left: seq<string>, remaining: seq<string>, k: nat)
    requires k < |remaining|
    ensures left + remaining[k..] == (left + [remaining[k]]) + remaining[k + 1..]
    ensures remaining[..k] + [remaining[k]] == remaining[..k + 1]
  { }

  lemma OrderedLater(first: string, tail: seq<string>, rest: seq<string>)
    requires Ordered(tail, rest)
    ensures Ordered([first] + tail, rest)
  {
    var nodes := [first] + tail;
    forall i, k | 0 <= i < k < |rest| ensures Before(nodes, rest[i], rest[k]) {
      assert Before(tail, rest[i], rest[k]);
      var a, b :| 0 <= a < b < |tail| && tail[a] == rest[i] && tail[b] == rest[k];
      assert nodes[a + 1] == rest[i] && nodes[b + 1] == rest[k];
    }
  }

  lemma OrderedFirst(first: string, tail: seq<string>, rest: seq<string>)
    requires Ordered(tail, rest) && first !in tail && forall i :: 0 <= i < |rest| ==> rest[i] in tail
    ensures Ordered([first] + tail, [first] + rest)
  {
    var nodes, all := [first] + tail, [first] + rest;
    OrderedLater(first, tail, rest);
    forall i, k | 0 <= i < k < |all| ensures all[i] != all[k] && Before(nodes, all[i], all[k]) {
      assert all[k] == rest[k - 1];
      if i == 0 {
        var b :| 0 <= b < |tail| && tail[b] == all[k];
        assert nodes[0] == first && nodes[b + 1] == all[k];
      } else {
        assert all[i] == rest[i - 1];
      }
    }
  }

  lemma {:induction false} RemainingIs(nodes: seq<string>, rows: set<string>)
    requires forall i, k :: 0 <= i < k < |nodes| ==> nodes[i] != nodes[k]
    ensures forall n :: n in Remaining(nodes, rows) <==> n in nodes && n !in rows
    ensures Ordered(nodes, Remaining(nodes, rows))
  {
    if nodes != [] {
      var first, tail := nodes[0], nodes[1..];
      assert nodes == [first] + tail;
      RemainingIs(tail, rows);
      var rest := Remaining(tail, rows);
      if first in rows { OrderedLater(first, tail, rest); } else { OrderedFirst(first, tail, rest); }
    }
    hide Ordered;
  }

  /** Nodes before `n` that are left were visited before it. */
  lemma EarlierLeft(g: Graph, rows: set<string>, skips: seq<string>, left: seq<string>, rest: seq<string>, m: string)
    requires GraphOk(g) && rest != [] && Left(g, rows, skips, left + rest)
    requires m in g.nodes && m !in rows && m !in skips && Before(g.nodes, m, rest[0])
    ensures m in left
  {
    var all := left + rest;
    var i :| 0 <= i < |all| && all[i] == m;
    assert all[|left|] == rest[0];
    if i == |left| {
      NotBefore(g.nodes, m, m);
    } else if i > |left| {
      NotBefore(g.nodes, rest[0], m);
    }
  }

  lemma NotBefore(nodes: seq<string>, a: string, b: string)
    requires forall i, k :: 0 <= i < k < |nodes| ==> nodes[i] != nodes[k]
    requires a == b || Before(nodes, a, b)
    ensures !Before(nodes, b, a)
  { }

  /** A node that is picked now comes first among those left that were free at the start. */
  lemma FirstFree(g: Graph, rows: set<string>, before: Decisions, skips: seq<string>, left: seq<string>,
                  rest: seq<string>)
    requires GraphOk(g) && rest != [] && Left(g, rows, skips, left + rest)
    requires forall i :: 0 <= i < |left| ==> left[i] != g.entry && Undecided(g, before, left[i])
    ensures forall m :: m in g.nodes && m !in rows && m !in skips && Before(g.nodes, m, rest[0]) ==>
      m != g.entry && Undecided(g, before, m)
  {
    hide GraphOk, Left, Undecided, Before;
    forall m | m in g.nodes && m !in rows && m !in skips && Before(g.nodes, m, rest[0])
      ensures m != g.entry && Undecided(g, before, m)
    { EarlierLeft(g, rows, skips, left, rest, m); }
  }

  /** The pass over the remaining nodes, in graph order. */
  method NextNode(g: Graph, rows: set<string>, edges: Decisions)
    returns (choice: Choice, skips: seq<string>, decided: Decisions)
    requires GraphOk(g)
    ensures Routed(g, rows, edges, choice, skips, decided)
    ensures Settled(g, rows, edges) ==> Settled(g, rows + Elements(skips), decided)
  {
    hide SkipsInOrder, PassOver, Remaining, GraphOk, Left, Ordered, Before, Undecided, Taken;
    skips, decided := [], edges;
    var remaining := Remaining(g.nodes, rows);
    FirstPass(g, rows, edges);
    while remaining != []
      invariant Progress(g, rows, edges, skips, decided)
      invariant Left(g, rows, skips, remaining)
      decreases |remaining|
    {
      var left: seq<string>, changed := [], false;
      var k := 0;
      assert left + remaining[k..] == remaining;
      while k < |remaining|
        invariant k <= |remaining| && |left| <= k && (changed <==> |left| < k)
        invariant Progress(g, rows, edges, skips, decided)
        invariant Left(g, rows, skips, left + remaining[k..])
        invariant forall i :: 0 <= i < |left| ==> left[i] != g.entry && Undecided(g, edges, left[i])
        invariant !changed ==> left == remaining[..k]
        invariant !changed ==> forall i :: 0 <= i < |left| ==> left[i] != g.entry && Undecided(g, decided, left[i])
      {
        var key := remaining[k];
        InPlay(g, rows, skips, left, remaining[k..]);
        FirstFree(g, rows, edges, skips, left, remaining[k..]);
        if key == g.entry { return Pick(key), skips, decided; }
        if Undecided(g, decided, key) {
          KeepNode(left, remaining, k);
          StillOpen(g, edges, decided, key);
          left := left + [key];
        } else {
          if Taken(g, decided, key) { return Pick(key), skips, decided; }
          SkipNode(g, rows, edges, skips, decided, key);
          SkipLeaves(g, rows, skips, left, remaining[k..]);
          assert remaining[k..][1..] == remaining[k + 1..];
          skips := skips + [key];
          decided := PassOver(g, decided, key, |g.edges|);
          changed := true;
        }
        k := k + 1;
      }
      assert left + remaining[k..] == left;
      if !changed {
        Stalled(g, rows, skips, decided, left);
        return Stall, skips, decided;
      }
      remaining := left;
    }
    NoneLeft(g, rows, skips);
    choice := Finished;
  }

  lemma FirstPass(g: Graph, rows: set<string>, edges: Decisions)
    requires GraphOk(g)
    ensures Progress(g, rows, edges, [], edges) && Left(g, rows, [], Remaining(g.nodes, rows))
  {
    RemainingIs(g.nodes, rows);
    assert rows + Elements([]) == rows;
  }

  lemma NoneLeft(g: Graph, rows: set<string>, skips: seq<string>)
    requires Left(g, rows, skips, [])
    ensures forall n :: n in g.nodes ==> n in rows || n in skips
  { }

  lemma Stalled(g: Graph, rows: set<string>, skips: seq<string>, decided: Decisions, rest: seq<string>)
    requires rest != [] && Left(g, rows, skips, rest)
    requires forall i :: 0 <= i < |rest| ==> rest[i] != g.entry && Undecided(g, decided, rest[i])
    ensures exists n :: n in g.nodes && n !in rows && n !in skips
    ensures forall n :: n in g.nodes && n !in rows && n !in skips ==> n != g.entry && Undecided(g, decided, n)
  {
    assert rest[0] in g.nodes;
  }

  function Remaining(nodes: seq<string>, rows: set<string>): seq<string> {
    if nodes == [] then []
    else (if nodes[0] in rows then [] else [nodes[0]]) + Remaining(nodes[1..], rows)
  }

  // ---------- routing never stalls ----------

  /** Every edge leads to a node of greater rank: the graph has no cycle. */
  ghost predicate Ranked(g: Graph, rank: string -> nat) {
    forall i :: 0 <= i < |g.edges| ==> rank(g.edges[i].source) < rank(g.edges[i].target)
  }

  /** In a graph without cycles some node is always free to run or to be skipped, as long as
      the edges of finished nodes are decided. */
  lemma {:induction false} SomeNodeIsFree(g: Graph, done: set<string>, d: Decisions, rank: string -> nat, n: string)
    returns (free: string)
    requires GraphOk(g) && Ranked(g, rank) && Settled(g, done, d)
    requires n in g.nodes && n !in done
    ensures free in g.nodes && free !in done && !Undecided(g, d, free)
    decreases rank(n)
  {
    if Undecided(g, d, n) {
      var i :| 0 <= i < |g.edges| && g.edges[i].target == n && i !in d;
      free := SomeNodeIsFree(g, done, d, rank, g.edges[i].source);
    } else {
      free := n;
    }
  }

  /** Skipping keeps the edges of finished nodes decided, and decides those of skipped ones. */
  lemma {:induction false} SkippingSettles(g: Graph, done: set<string>, before: Decisions, skips: seq<string>,
                                           after: Decisions)
    requires SkipsInOrder(g, before, skips, after) && Settled(g, done, before)
    ensures Settled(g, done + Elements(skips), after)
    ensures forall i :: i in before ==> i in after
    decreases |skips|
  {
    if skips == [] {
      assert done + Elements(skips) == done;
    } else {
      var n := skips[0];
      SkippingSettles(g, done + {n}, PassOver(g, before, n, |g.edges|), skips[1..], after);
      assert done + Elements(skips) == done + {n} + Elements(skips[1..]);
    }
  }

  /** When the edges of finished nodes are decided, a call finds a node to run or settles
      every node: the routing error does not arise. */
  lemma NeverStalls(g: Graph, rows: set<string>, before: Decisions, choice: Choice, skips: seq<string>,
                    after: Decisions, rank: string -> nat)
    requires GraphOk(g) && Ranked(g, rank) && Settled(g, rows, before)
    requires Routed(g, rows, before, choice, skips, after)
    ensures !choice.Stall?
  {
    if choice.Stall? {
      SkippingSettles(g, rows, before, skips, after);
      var n :| n in g.nodes && n !in rows && n !in skips;
      var free := SomeNodeIsFree(g, rows + Elements(skips), after, rank, n);
    }
  }

  // ---------- routing and the runtime ----------

  /** What routing settles is what the runtime expects of a plan for its checkpoint. */
  lemma RoutingIsAPlan(c: Records.Config, s: Records.State, g: Graph, rows: set<string>, before: Decisions,
                       choice: Choice, skips: seq<string>, after: Decisions,
                       output: Records.Outcome<Records.Json>, inputs: Records.Outcome<Records.Input>)
    requires Routed(g, rows, before, choice, skips, after)
    requires forall n :: n in g.nodes <==> n in c.nodes
    requires forall n :: n in rows <==> Runtime.HasRow(s.steps, n)
    ensures var chosen := match choice
              case Pick(n) => Runtime.Pick(n)
              case Stall => Runtime.Stall
              case Finished => Runtime.Finish(output);
      Runtime.PlanOk(c, s, Runtime.Plan(skips, chosen, inputs))
  {
    hide SkipsInOrder, Runtime.HasRow, Undecided, Taken;
  }
}
