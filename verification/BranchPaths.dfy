/** Branch identities of a workflow graph with fork/join regions.

    A recursive walk from the entry labels each node with the fork branches it lies in.
    The walk shares one table of labels and stops early at a node it has already labelled,
    so what it has checked of the graph is not evident from one call. */
module BranchPaths {

  datatype Branch = Branch(name: string, entry: string)

  /** Only a fork is special to the walk; a join is an ordinary node of it. */
  datatype Node = Fork(branches: seq<Branch>, join: string) | Plain

  datatype Edge = Edge(source: string, target: string)

  datatype Graph = Graph(entry: string, nodes: map<string, Node>, edges: seq<Edge>)

  datatype Option<+T> = None | Some(value: T)

  function Targets(edges: seq<Edge>, key: string): seq<string> {
    if edges == [] then []
    else (if edges[0].source == key then [edges[0].target] else []) + Targets(edges[1..], key)
  }

  // ---------- labels ----------

  /** One branch of one fork. */
  datatype Seg = Seg(fork: string, name: string)

  function Render(at: seq<Seg>): string {
    if at == [] then "main"
    else
      var last := at[|at| - 1];
      Render(at[..|at| - 1]) + "/" + (last.fork + ":" + last.name)
  }

  lemma RenderNext(at: seq<Seg>, seg: Seg)
    ensures Render(at + [seg]) == Render(at) + "/" + (seg.fork + ":" + seg.name)
  {
    assert (at + [seg])[..|at|] == at;
  }

  /** Node identifiers and branch names contain neither separator. */
  predicate Clean(id: string) {
    '/' !in id && ':' !in id
  }

  predicate IdsOk(g: Graph) {
    forall n :: n in g.nodes ==>
      Clean(n) && (g.nodes[n].Fork? ==> forall b :: b in g.nodes[n].branches ==> Clean(b.name))
  }

  predicate SegsOk(g: Graph, at: seq<Seg>) {
    forall i :: 0 <= i < |at| ==>
      at[i].fork in g.nodes && g.nodes[at[i].fork].Fork? && Clean(at[i].fork) && Clean(at[i].name)
  }

  lemma SplitAt(mark: char, x: string, u: string, y: string, v: string)
    requires x + [mark] + u == y + [mark] + v
    requires mark !in u && mark !in v
    ensures x == y && u == v
  {
    var whole := x + [mark] + u;
    assert forall i :: |x| < i < |whole| ==> whole[i] == u[i - |x| - 1];
    assert forall i :: |y| < i < |whole| ==> whole[i] == v[i - |y| - 1];
    assert whole[|x|] == mark && whole[|y|] == mark;
    assert |x| == |y|;
    assert x == whole[..|x|] == y && u == whole[|x| + 1..] == v;
  }

  lemma HasSlash(at: seq<Seg>)
    requires at != []
    ensures '/' in Render(at)
  {
    var head := Render(at[..|at| - 1]);
    assert Render(at)[|head|] == '/';
  }

  /** A label decodes in one way only. */
  lemma {:induction false} RenderIsInjective(g: Graph, a: seq<Seg>, b: seq<Seg>)
    requires SegsOk(g, a) && SegsOk(g, b) && Render(a) == Render(b)
    ensures a == b
  {
    if a != [] { HasSlash(a); }
    if b != [] { HasSlash(b); }
    if a != [] && b != [] {
      var p, q := a[|a| - 1], b[|b| - 1];
      SplitAt('/', Render(a[..|a| - 1]), p.fork + ":" + p.name,
              Render(b[..|b| - 1]), q.fork + ":" + q.name);
      SplitAt(':', p.fork, p.name, q.fork, q.name);
      RenderIsInjective(g, a[..|a| - 1], b[..|b| - 1]);
    }
  }

  // ---------- the calls of the walk ----------

  /** Visit `key`, up to the node `stop`, under the label that `at` renders to. */
  datatype Call = Call(key: string, stop: Option<string>, at: seq<Seg>)

  predicate Live(g: Graph, c: Call) {
    c.stop != Some(c.key)
  }

  function Children(g: Graph, c: Call): seq<Call>
    requires c.key in g.nodes
  {
    match g.nodes[c.key]
    case Fork(branches, join) =>
      seq(|branches|, i requires 0 <= i < |branches| =>
        Call(branches[i].entry, Some(join), c.at + [Seg(c.key, branches[i].name)]))
      + [Call(join, c.stop, c.at)]
    case Plain =>
      var targets := Targets(g.edges, c.key);
      seq(|targets|, i requires 0 <= i < |targets| => Call(targets[i], c.stop, c.at))
  }

  predicate Expands(g: Graph, c: Call, d: Call) {
    Live(g, c) && c.key in g.nodes && d in Children(g, c)
  }

  /** A chain of calls from the root of the walk, each made by the one before. */
  predicate Chain(g: Graph, chain: seq<Call>) {
    && |chain| > 0 && chain[0] == Call(g.entry, None, [])
    && forall i :: 0 <= i < |chain| - 1 ==> Expands(g, chain[i], chain[i + 1])
  }

  /** The graph calls for a visit of this kind, whether or not the walk gets to make it. */
  ghost predicate Demanded(g: Graph, c: Call) {
    exists chain :: Chain(g, chain) && chain[|chain| - 1] == c
  }

  lemma RootDemanded(g: Graph)
    ensures Demanded(g, Call(g.entry, None, []))
  {
    assert Chain(g, [Call(g.entry, None, [])]);
  }

  lemma ChildDemanded(g: Graph, c: Call, d: Call)
    requires Demanded(g, c) && Expands(g, c, d)
    ensures Demanded(g, d)
  {
    var chain :| Chain(g, chain) && chain[|chain| - 1] == c;
    var longer := chain + [d];
    forall i | 0 <= i < |longer| - 1 ensures Expands(g, longer[i], longer[i + 1]) {
      if i < |chain| - 1 { assert Expands(g, chain[i], chain[i + 1]); }
    }
    assert Chain(g, longer);
  }

  /** Where a walk under this label has to stop: at the join of the innermost fork. */
  function StopOf(g: Graph, at: seq<Seg>): Option<string>
    requires SegsOk(g, at)
  {
    if at == [] then None else Some(g.nodes[at[|at| - 1].fork].join)
  }

  predicate Placed(g: Graph, c: Call) {
    SegsOk(g, c.at) && c.stop == StopOf(g, c.at)
  }

  lemma {:induction false} ChainPlaced(g: Graph, chain: seq<Call>)
    requires IdsOk(g) && Chain(g, chain)
    ensures Placed(g, chain[|chain| - 1])
  {
    if |chain| > 1 {
      var prefix := chain[..|chain| - 1];
      forall i | 0 <= i < |prefix| - 1 ensures Expands(g, prefix[i], prefix[i + 1]) {
        assert Expands(g, chain[i], chain[i + 1]);
      }
      ChainPlaced(g, prefix);
      assert Expands(g, chain[|chain| - 2], chain[|chain| - 1]);
    }
  }

  /** The label alone determines where a demanded visit stops. */
  lemma DemandedPlaced(g: Graph, c: Call)
    requires IdsOk(g) && Demanded(g, c)
    ensures Placed(g, c)
  {
    var chain :| Chain(g, chain) && chain[|chain| - 1] == c;
    ChainPlaced(g, chain);
  }

  // ---------- when a labelling exists ----------

  predicate Fits(g: Graph, c: Call) {
    Live(g, c) ==> c.key in g.nodes && |Render(c.at)| <= 256
  }

  predicate Agree(g: Graph, c: Call, d: Call) {
    Live(g, c) && Live(g, d) && c.key == d.key ==> c.at == d.at
  }

  /** Every demanded visit has a node and a short enough label, and no node is demanded
      under two labels. */
  ghost predicate Labellable(g: Graph) {
    && (forall c :: Demanded(g, c) ==> Fits(g, c))
    && (forall c, d :: Demanded(g, c) && Demanded(g, d) ==> Agree(g, c, d))
  }

  /** Node `n` is demanded under the label `path`. */
  ghost predicate LabelOf(g: Graph, n: string, path: string) {
    exists c :: Demanded(g, c) && Live(g, c) && c.key == n && Render(c.at) == path
  }

  datatype Result = Labels(paths: map<string, string>) | Error(error: Problem)

  datatype Problem = TooLong | CrossesBoundary | MissingNode

  /** What an error of the walk says about the graph. */
  ghost predicate Explains(g: Graph, e: Problem) {
    match e
    case TooLong => exists c :: Demanded(g, c) && Live(g, c) && |Render(c.at)| > 256
    case MissingNode => exists c :: Demanded(g, c) && Live(g, c) && c.key !in g.nodes
    case CrossesBoundary => exists c, d :: Demanded(g, c) && Demanded(g, d) && !Agree(g, c, d)
  }

  // ---------- the table of labels ----------

  type Table = map<string, seq<Seg>>

  /** The visit would return at once: it is at its stop, or its node has this label. */
  predicate Met(g: Graph, table: Table, c: Call) {
    Live(g, c) ==> c.key in table && table[c.key] == c.at
  }

  ghost predicate TableOk(g: Graph, table: Table) {
    forall n :: n in table ==>
      && n in g.nodes && SegsOk(g, table[n]) && |Render(table[n])| <= 256
      && Demanded(g, Call(n, StopOf(g, table[n]), table[n]))
      && Live(g, Call(n, StopOf(g, table[n]), table[n]))
  }

  /** Every visit that node `n` asks for has been met. */
  predicate Done(g: Graph, table: Table, n: string) {
    && n in table && n in g.nodes && SegsOk(g, table[n])
    && forall d :: d in Children(g, Call(n, StopOf(g, table[n]), table[n])) ==> Met(g, table, d)
  }

  predicate Grows(old_: Table, table: Table) {
    forall n :: n in old_ ==> n in table && table[n] == old_[n]
  }

  lemma DoneStays(g: Graph, old_: Table, table: Table, n: string)
    requires Done(g, old_, n) && Grows(old_, table)
    ensures Done(g, table, n)
  { }

  /** When every labelled node is done, every demanded visit has been met. */
  lemma {:induction false} ChainMet(g: Graph, table: Table, chain: seq<Call>)
    requires IdsOk(g) && Chain(g, chain) && TableOk(g, table)
    requires Met(g, table, Call(g.entry, None, []))
    requires forall n :: n in table ==> Done(g, table, n)
    ensures Met(g, table, chain[|chain| - 1])
  {
    if |chain| > 1 {
      var prefix := chain[..|chain| - 1];
      var c, d := chain[|chain| - 2], chain[|chain| - 1];
      forall i | 0 <= i < |prefix| - 1 ensures Expands(g, prefix[i], prefix[i + 1]) {
        assert Expands(g, chain[i], chain[i + 1]);
      }
      ChainMet(g, table, prefix);
      ChainPlaced(g, prefix);
      assert Expands(g, c, d);
      assert Done(g, table, c.key);
    }
  }

  /** A finished table answers for the whole graph. */
  lemma TableIsComplete(g: Graph, table: Table)
    requires IdsOk(g) && TableOk(g, table)
    requires Met(g, table, Call(g.entry, None, []))
    requires forall n :: n in table ==> Done(g, table, n)
    ensures Labellable(g)
    ensures forall c :: Demanded(g, c) ==> Met(g, table, c)
  {
    forall c | Demanded(g, c) ensures Met(g, table, c) {
      var chain :| Chain(g, chain) && chain[|chain| - 1] == c;
      ChainMet(g, table, chain);
    }
  }

  /** A visit has returned: it has been met, and all it labelled is done. */
  ghost predicate Explored(g: Graph, before: Table, table: Table, c: Call) {
    && Grows(before, table) && Met(g, table, c)
    && (forall n :: n in table && n !in before ==> Done(g, table, n))
  }

  /** The visit `c` has labelled its node and made its first `k` calls. */
  ghost predicate Partly(g: Graph, before: Table, table: Table, c: Call, k: nat) {
    && c.key in g.nodes && c.key !in before && Placed(g, c)
    && Grows(before[c.key := c.at], table) && k <= |Children(g, c)|
    && (forall i :: 0 <= i < k ==> Met(g, table, Children(g, c)[i]))
    && (forall n :: n in table && n !in before && n != c.key ==> Done(g, table, n))
  }

  lemma AlreadyMet(g: Graph, table: Table, c: Call)
    requires !Live(g, c) || (c.key in table && table[c.key] == c.at)
    ensures Explored(g, table, table, c)
  { }

  lemma TwoLabels(g: Graph, table: Table, c: Call)
    requires TableOk(g, table) && Demanded(g, c) && Live(g, c)
    requires c.key in table && Render(table[c.key]) != Render(c.at)
    ensures Explains(g, CrossesBoundary)
  {
    var d := Call(c.key, StopOf(g, table[c.key]), table[c.key]);
    assert Demanded(g, d) && !Agree(g, c, d);
  }

  lemma SameLabel(g: Graph, table: Table, c: Call)
    requires TableOk(g, table) && Placed(g, c)
    requires c.key in table && Render(table[c.key]) == Render(c.at)
    ensures Explored(g, table, table, c)
  {
    RenderIsInjective(g, c.at, table[c.key]);
  }

  lemma Entered(g: Graph, before: Table, c: Call)
    requires TableOk(g, before) && Demanded(g, c) && Placed(g, c) && Live(g, c)
    requires c.key in g.nodes && c.key !in before && |Render(c.at)| <= 256
    ensures TableOk(g, before[c.key := c.at])
    ensures Partly(g, before, before[c.key := c.at], c, 0)
  {
    hide Demanded, Render;
  }

  lemma Further(g: Graph, before: Table, sofar: Table, table: Table, c: Call, k: nat)
    requires Partly(g, before, sofar, c, k)
    requires c.key in g.nodes && k < |Children(g, c)|
    requires Explored(g, sofar, table, Children(g, c)[k])
    ensures Partly(g, before, table, c, k + 1)
  {
    hide Children, Placed;
    forall n | n in table && n !in before && n != c.key ensures Done(g, table, n) {
      if n in sofar { DoneStays(g, sofar, table, n); }
    }
  }

  lemma AllExplored(g: Graph, before: Table, table: Table, c: Call)
    requires c.key in g.nodes && Partly(g, before, table, c, |Children(g, c)|)
    ensures Explored(g, before, table, c)
  {
    hide Children;
    assert table[c.key] == c.at;
    assert Done(g, table, c.key);
  }

  class Walk {
    const g: Graph
    var paths: map<string, string>
    ghost var table: Table

    ghost predicate Valid()
      reads this
    {
      && IdsOk(g) && TableOk(g, table)
      && paths.Keys == table.Keys
      && (forall n :: n in paths ==> paths[n] == Render(table[n]))
    }

    constructor (g: Graph)
      requires IdsOk(g)
      ensures Valid() && this.g == g && table == map[]
    {
      this.g := g;
      paths := map[];
      table := map[];
    }

    method Visit(key: string, stop: Option<string>, path: string, ghost at: seq<Seg>)
      returns (error: Option<Problem>)
      requires Valid() && Demanded(g, Call(key, stop, at)) && path == Render(at)
      modifies this
      decreases g.nodes.Keys - paths.Keys
      ensures error.Some? ==> Explains(g, error.value)
      ensures error.None? ==> old(paths).Keys <= paths.Keys
      ensures error.None? ==> Valid() && Explored(g, old(table), table, Call(key, stop, at))
    {
      hide Demanded, Render, IdsOk, Targets, TableOk, Explored, Partly, Placed, SegsOk, StopOf;
      ghost var c := Call(key, stop, at);
      DemandedPlaced(g, c);
      if stop == Some(key) {
        AlreadyMet(g, table, c);
        return None;
      }
      if |path| > 256 { return Some(TooLong); }
      if key in paths {
        if paths[key] != path {
          TwoLabels(g, table, c);
          return Some(CrossesBoundary);
        }
        SameLabel(g, table, c);
        return None;
      }
      paths := paths[key := path];
      if key !in g.nodes { return Some(MissingNode); }
      ghost var before := table;
      table := table[key := at];
      Entered(g, before, c);
      ghost var calls := Children(g, c);
      var k := 0;
      match g.nodes[key] {
        case Fork(branches, join) =>
          while k < |branches|
            invariant k <= |branches|
            invariant Valid() && key in paths && old(paths).Keys <= paths.Keys
            invariant Partly(g, before, table, c, k)
          {
            ChildDemanded(g, c, calls[k]);
            RenderNext(at, Seg(key, branches[k].name));
            ghost var sofar := table;
            error := Visit(branches[k].entry, Some(join), path + "/" + (key + ":" + branches[k].name),
                           at + [Seg(key, branches[k].name)]);
            if error.Some? { return; }
            Further(g, before, sofar, table, c, k);
            k := k + 1;
          }
          ChildDemanded(g, c, calls[k]);
          ghost var sofar := table;
          error := Visit(join, stop, path, at);
          if error.Some? { return; }
          Further(g, before, sofar, table, c, k);
          k := k + 1;
        case Plain =>
          var targets := Targets(g.edges, key);
          while k < |targets|
            invariant k <= |targets|
            invariant Valid() && key in paths && old(paths).Keys <= paths.Keys
            invariant Partly(g, before, table, c, k)
          {
            ChildDemanded(g, c, calls[k]);
            ghost var sofar := table;
            error := Visit(targets[k], stop, path, at);
            if error.Some? { return; }
            Further(g, before, sofar, table, c, k);
            k := k + 1;
          }
      }
      AllExplored(g, before, table, c);
      error := None;
    }
  }
  lemma ExplainsRefutes(g: Graph, e: Problem)
    requires Explains(g, e)
    ensures !Labellable(g)
  { }

  lemma TableLabels(g: Graph, table: Table, n: string, path: string)
    requires IdsOk(g) && TableOk(g, table)
    requires forall c :: Demanded(g, c) ==> Met(g, table, c)
    ensures (n in table && Render(table[n]) == path) <==> LabelOf(g, n, path)
  {
    hide Demanded, Render;
    if n in table && Render(table[n]) == path {
      var c := Call(n, StopOf(g, table[n]), table[n]);
      assert Demanded(g, c) && Live(g, c);
    }
  }

  /** The walk succeeds on exactly the graphs that can be labelled, whatever shape their
      edges have, and then finds every label the graph asks for and no other. */
  method LabelBranches(g: Graph) returns (r: Result)
    requires IdsOk(g)
    ensures r.Labels? <==> Labellable(g)
    ensures r.Labels? ==> IsLabelling(g, r.paths)
    ensures r.Error? ==> Explains(g, r.error)
  {
    hide Demanded, Labellable, Explains, Explored;
    var walk := new Walk(g);
    RootDemanded(g);
    var error := walk.Visit(g.entry, None, "main", []);
    if error.Some? {
      ExplainsRefutes(g, error.value);
      return Error(error.value);
    }
    WholeTable(g, walk.table);
    TableIsComplete(g, walk.table);
    forall n, path
      ensures (n in walk.paths && walk.paths[n] == path) <==> LabelOf(g, n, path)
    { TableLabels(g, walk.table, n, path); }
    r := Labels(walk.paths);
  }

  lemma WholeTable(g: Graph, table: Table)
    requires Explored(g, map[], table, Call(g.entry, None, []))
    ensures Met(g, table, Call(g.entry, None, []))
    ensures forall n :: n in table ==> Done(g, table, n)
  { }

  // ---------- what a labelling says about the graph ----------

  /** `paths` has exactly the labels the graph asks for, each node one of them. */
  ghost predicate IsLabelling(g: Graph, paths: map<string, string>) {
    && Labellable(g)
    && (forall n, path :: (n in paths && paths[n] == path) <==> LabelOf(g, n, path))
  }

  /** A demanded visit finds its label in the table. */
  lemma DemandedLabel(g: Graph, paths: map<string, string>, c: Call)
    requires IsLabelling(g, paths) && Demanded(g, c) && Live(g, c)
    ensures c.key in paths && paths[c.key] == Render(c.at) && |paths[c.key]| <= 256
    ensures c.key in g.nodes
  {
    hide Demanded, Render;
    assert LabelOf(g, c.key, Render(c.at));
  }

  /** The visit that labelled node `n`. */
  lemma LabelledBy(g: Graph, paths: map<string, string>, n: string) returns (c: Call)
    requires IdsOk(g) && IsLabelling(g, paths) && n in paths
    ensures Demanded(g, c) && Live(g, c) && c.key == n && Render(c.at) == paths[n]
    ensures n in g.nodes && Placed(g, c)
  {
    hide Demanded, Render;
    assert LabelOf(g, n, paths[n]);
    c :| Demanded(g, c) && Live(g, c) && c.key == n && Render(c.at) == paths[n];
    DemandedPlaced(g, c);
  }

  /** A successor of an ordinary node lies in the same branches, or is the join at which
      they end. */
  lemma SuccessorsStayInBranch(g: Graph, paths: map<string, string>, n: string, t: string)
    returns (at: seq<Seg>)
    requires IdsOk(g) && IsLabelling(g, paths) && n in paths
    requires n in g.nodes && g.nodes[n].Plain? && t in Targets(g.edges, n)
    ensures SegsOk(g, at) && paths[n] == Render(at)
    ensures StopOf(g, at) == Some(t) || (t in paths && paths[t] == paths[n])
  {
    hide Demanded, Render, IsLabelling;
    var c := LabelledBy(g, paths, n);
    at := c.at;
    var k :| 0 <= k < |Targets(g.edges, n)| && Targets(g.edges, n)[k] == t;
    var d := Call(t, c.stop, c.at);
    assert Children(g, c)[k] == d;
    ChildDemanded(g, c, d);
    if Live(g, d) { DemandedLabel(g, paths, d); }
  }

  /** A branch of a fork opens a new region; the join takes the fork's own label, unless it
      is where the enclosing branch ends as well. */
  lemma ForkOpensRegions(g: Graph, paths: map<string, string>, n: string) returns (at: seq<Seg>)
    requires IdsOk(g) && IsLabelling(g, paths) && n in paths
    requires n in g.nodes && g.nodes[n].Fork?
    ensures SegsOk(g, at) && paths[n] == Render(at)
    ensures var join := g.nodes[n].join;
      StopOf(g, at) == Some(join) || (join in paths && paths[join] == paths[n])
    ensures forall b :: b in g.nodes[n].branches && b.entry != g.nodes[n].join ==>
      b.entry in paths && paths[b.entry] == paths[n] + "/" + (n + ":" + b.name)
  {
    hide Demanded, Render, IsLabelling;
    var c := LabelledBy(g, paths, n);
    at := c.at;
    var branches, join := g.nodes[n].branches, g.nodes[n].join;
    var out := Call(join, c.stop, c.at);
    assert Children(g, c)[|branches|] == out;
    ChildDemanded(g, c, out);
    if Live(g, out) { DemandedLabel(g, paths, out); }
    forall b | b in branches && b.entry != join
      ensures b.entry in paths && paths[b.entry] == paths[n] + "/" + (n + ":" + b.name)
    {
      var k :| 0 <= k < |branches| && branches[k] == b;
      var d := Call(b.entry, Some(join), c.at + [Seg(n, b.name)]);
      assert Children(g, c)[k] == d;
      ChildDemanded(g, c, d);
      DemandedLabel(g, paths, d);
      RenderNext(c.at, Seg(n, b.name));
    }
  }

  // ---------- regions ----------

  /** `path` lies in the region labelled `region`, or in one nested in it. */
  predicate Within(path: string, region: string) {
    path == region || region + "/" <= path
  }

  lemma {:induction false} PrefixDecodes(g: Graph, at: seq<Seg>, q: seq<Seg>)
    requires SegsOk(g, at) && SegsOk(g, q) && Within(Render(at), Render(q))
    ensures q <= at
  {
    if Render(at) == Render(q) {
      RenderIsInjective(g, at, q);
    } else {
      var x, whole := Render(q), Render(at);
      assert whole[|x|] == '/';
      if at != [] {
        var head := Render(at[..|at| - 1]);
        var tail := at[|at| - 1].fork + ":" + at[|at| - 1].name;
        assert forall i :: |head| < i < |whole| ==> whole[i] == tail[i - |head| - 1];
        assert '/' !in tail;
        assert |x| <= |head|;
        assert head == whole[..|head|] && x == whole[..|x|];
        if |x| < |head| {
          assert x + "/" == whole[..|x| + 1] == head[..|x| + 1];
          PrefixDecodes(g, at[..|at| - 1], q);
        } else {
          RenderIsInjective(g, at[..|at| - 1], q);
        }
      }
    }
  }

  /** Two branches of one fork share no node, nested regions included. */
  lemma BranchesShareNoNode(g: Graph, paths: map<string, string>, f: string, a: string, b: string, n: string)
    requires IdsOk(g) && IsLabelling(g, paths) && f in paths && n in paths
    requires f in g.nodes && g.nodes[f].Fork? && Clean(a) && Clean(b)
    requires Within(paths[n], paths[f] + "/" + (f + ":" + a))
    requires Within(paths[n], paths[f] + "/" + (f + ":" + b))
    ensures a == b
  {
    hide Demanded, Render, IsLabelling, Labellable;
    var c := LabelledBy(g, paths, f);
    var d := LabelledBy(g, paths, n);
    RenderNext(c.at, Seg(f, a));
    RenderNext(c.at, Seg(f, b));
    PrefixDecodes(g, d.at, c.at + [Seg(f, a)]);
    PrefixDecodes(g, d.at, c.at + [Seg(f, b)]);
    assert d.at[|c.at|] == Seg(f, a) == Seg(f, b);
  }

  // ---------- nothing reachable is left out ----------

  /** The visit of the fork whose branch the visit `c` lies in. */
  lemma {:induction false} InnermostFork(g: Graph, chain: seq<Call>) returns (d: Call)
    requires IdsOk(g) && Chain(g, chain) && chain[|chain| - 1].at != []
    ensures Demanded(g, d) && Live(g, d) && d.key in g.nodes && g.nodes[d.key].Fork?
    ensures var at := chain[|chain| - 1].at;
      d.at == at[..|at| - 1] && d.key == at[|at| - 1].fork
  {
    var c := chain[|chain| - 1];
    var prefix := chain[..|chain| - 1];
    var p := prefix[|prefix| - 1];
    assert Expands(g, p, c);
    forall i | 0 <= i < |prefix| - 1 ensures Expands(g, prefix[i], prefix[i + 1]) {
      assert Expands(g, chain[i], chain[i + 1]);
    }
    assert Chain(g, prefix);
    if c.at == p.at {
      d := InnermostFork(g, prefix);
    } else {
      d := p;
      assert Demanded(g, p);
    }
  }

  /** A labelled fork has a labelled join: its own, or one that the enclosing fork shares. */
  lemma {:induction false} JoinIsLabelled(g: Graph, paths: map<string, string>, d: Call)
    requires IdsOk(g) && IsLabelling(g, paths)
    requires Demanded(g, d) && Live(g, d) && d.key in g.nodes && g.nodes[d.key].Fork?
    ensures g.nodes[d.key].join in paths
    decreases |d.at|
  {
    hide Render, IsLabelling, Labellable;
    var join := g.nodes[d.key].join;
    var out := Call(join, d.stop, d.at);
    assert Children(g, d)[|g.nodes[d.key].branches|] == out;
    ChildDemanded(g, d, out);
    if Live(g, out) {
      DemandedLabel(g, paths, out);
    } else {
      DemandedPlaced(g, d);
      var chain :| Chain(g, chain) && chain[|chain| - 1] == d;
      var e := InnermostFork(g, chain);
      JoinIsLabelled(g, paths, e);
    }
  }

  predicate Follows(g: Graph, n: string, m: string) {
    && n in g.nodes
    && match g.nodes[n]
       case Fork(branches, join) => m == join || exists b :: b in branches && m == b.entry
       case Plain => m in Targets(g.edges, n)
  }

  predicate Route(g: Graph, route: seq<string>) {
    && |route| > 0 && route[0] == g.entry
    && forall i :: 0 <= i < |route| - 1 ==> Follows(g, route[i], route[i + 1])
  }

  /** Where a demanded visit stops, the node is labelled anyway. */
  lemma StopIsLabelled(g: Graph, paths: map<string, string>, c: Call)
    requires IdsOk(g) && IsLabelling(g, paths) && Demanded(g, c)
    ensures c.stop.Some? ==> c.stop.value in paths
  {
    hide Render, IsLabelling;
    DemandedPlaced(g, c);
    if c.stop.Some? {
      var chain :| Chain(g, chain) && chain[|chain| - 1] == c;
      var d := InnermostFork(g, chain);
      JoinIsLabelled(g, paths, d);
    }
  }

  /** Every node that can be reached from the entry has a label. */
  lemma {:induction false} ReachableIsLabelled(g: Graph, paths: map<string, string>, route: seq<string>)
    requires IdsOk(g) && IsLabelling(g, paths) && Route(g, route)
    ensures route[|route| - 1] in paths
  {
    hide Render, IsLabelling, Labellable, Demanded;
    if |route| == 1 {
      RootDemanded(g);
      DemandedLabel(g, paths, Call(g.entry, None, []));
    } else {
      var prefix := route[..|route| - 1];
      forall i | 0 <= i < |prefix| - 1 ensures Follows(g, prefix[i], prefix[i + 1]) {
        assert Follows(g, route[i], route[i + 1]);
      }
      ReachableIsLabelled(g, paths, prefix);
      var n, m := route[|route| - 2], route[|route| - 1];
      assert Follows(g, n, m);
      var c := LabelledBy(g, paths, n);
      var d := NextCall(g, c, m);
      ChildDemanded(g, c, d);
      if Live(g, d) { DemandedLabel(g, paths, d); } else { StopIsLabelled(g, paths, d); }
    }
  }

  lemma NextCall(g: Graph, c: Call, m: string) returns (d: Call)
    requires Live(g, c) && Follows(g, c.key, m)
    ensures Expands(g, c, d) && d.key == m
  {
    match g.nodes[c.key]
    case Fork(branches, join) =>
      if m == join {
        d := Children(g, c)[|branches|];
      } else {
        var b :| b in branches && m == b.entry;
        var k :| 0 <= k < |branches| && branches[k] == b;
        d := Children(g, c)[k];
      }
    case Plain =>
      var k :| 0 <= k < |Targets(g.edges, c.key)| && Targets(g.edges, c.key)[k] == m;
      d := Children(g, c)[k];
  }
}
