/**
 The import-cycle convention check: a three-colour depth-first search whose colours are shared
 by all roots of a package and whose stack is the path being explored.
 */
module CycleFinder {
  import opened Ordering

  type Graph = map<string, set<string>>

  ghost predicate Closed(g: Graph) {
    forall m | m in g :: g[m] <= g.Keys
  }

  ghost predicate Edge(g: Graph, a: string, b: string) {
    a in g && b in g[a]
  }

  ghost predicate IsPath(g: Graph, p: seq<string>) {
    forall i | 0 <= i < |p| - 1 :: Edge(g, p[i], p[i + 1])
  }

  ghost predicate Distinct(p: seq<string>) {
    forall i, j | 0 <= i < j < |p| :: p[i] != p[j]
  }

  /** A closed walk: at least one edge, ending where it starts. */
  ghost predicate IsCycle(g: Graph, c: seq<string>) {
    |c| >= 2 && c[0] == c[|c| - 1] && IsPath(g, c)
  }

  /** A cycle that visits no module twice, apart from closing on its first one. */
  ghost predicate IsSimpleCycle(g: Graph, c: seq<string>) {
    IsCycle(g, c) && Distinct(c[..|c| - 1])
  }

  ghost predicate Acyclic(g: Graph) {
    forall c :: !IsCycle(g, c)
  }

  // ---------------------------------------------------------------- the import graph

  /** One `import` node of a parsed file. Only relative imports of level 1 make edges. */
  datatype Import =
    | FromModule(level: nat, target: string)
    | FromNames(level: nat, names: seq<string>)

  /** `name` is what `dotted` starts with, up to its first dot or its end. */
  ghost predicate StartsWith(dotted: string, name: string) {
    name <= dotted && '.' !in name && (|name| == |dotted| || dotted[|name|] == '.')
  }

  /** `target.split(".")[0]`. */
  function FirstSegment(dotted: string): (s: string)
    ensures StartsWith(dotted, s)
  {
    if dotted == [] || dotted[0] == '.' then []
    else
      var rest := FirstSegment(dotted[1..]);
      assert dotted == [dotted[0]] + dotted[1..];
      [dotted[0]] + rest
  }

  /** It is the only name it can be. */
  lemma {:induction false} FirstSegmentIsTheOnlyStart(dotted: string, name: string)
    ensures StartsWith(dotted, name) <==> FirstSegment(dotted) == name
  {
    if dotted != [] && dotted[0] != '.' && name != [] {
      var rest, tail := dotted[1..], name[1..];
      assert dotted == [dotted[0]] + rest && name == [name[0]] + tail;
      FirstSegmentIsTheOnlyStart(rest, tail);
      assert StartsWith(dotted, name) <==> name[0] == dotted[0] && StartsWith(rest, tail);
    } else if name != [] && dotted != [] {
      assert name <= dotted ==> name[0] == dotted[0];
    }
  }

  function Targets(node: Import): seq<string> {
    match node
    case FromModule(_, target) => [target]
    case FromNames(_, names) => names
  }

  /** `from .name... import ...`, or `from . import name...`, at level 1. */
  ghost predicate ImportsAt(node: Import, name: string) {
    match node
    case FromModule(level, target) => level == 1 && StartsWith(target, name)
    case FromNames(level, names) => level == 1 && exists k :: 0 <= k < |names| && StartsWith(names[k], name)
  }

  ghost predicate Imports(nodes: seq<Import>, name: string) {
    exists i :: 0 <= i < |nodes| && ImportsAt(nodes[i], name)
  }

  ghost predicate HasImports(deps: set<string>, modules: set<string>, nodes: seq<Import>) {
    forall b :: b in deps <==> b in modules && Imports(nodes, b)
  }

  /** Nodes are the package's modules; edges are exactly the level-1 imports between them. */
  ghost predicate IsImportGraph(files: map<string, seq<Import>>, g: Graph) {
    g.Keys == files.Keys && forall a | a in g :: HasImports(g[a], files.Keys, files[a])
  }

  method PackageImportGraph(files: map<string, seq<Import>>) returns (graph: Graph)
    ensures IsImportGraph(files, graph)
  {
    graph := map m | m in files :: {};
    var rest := files.Keys;
    while rest != {}
      invariant graph.Keys == files.Keys && rest <= files.Keys
      invariant forall m | m in graph && m !in rest :: HasImports(graph[m], files.Keys, files[m])
      decreases |rest|
    {
      hide HasImports;
      var stem :| stem in rest;
      var deps := ModuleImports(files[stem], files.Keys);
      graph := graph[stem := deps];
      rest := rest - {stem};
    }
  }

  method ModuleImports(nodes: seq<Import>, modules: set<string>) returns (deps: set<string>)
    ensures HasImports(deps, modules, nodes)
  {
    deps := {};
    for i := 0 to |nodes|
      invariant HasImports(deps, modules, nodes[..i])
    {
      hide FirstSegment, Imports;
      ghost var before := deps;
      var targets := Targets(nodes[i]);
      if nodes[i].level == 1 {
        deps := deps + set t | t in targets && FirstSegment(t) in modules :: FirstSegment(t);
      }
      forall b ensures b in deps <==> b in modules && Imports(nodes[..i + 1], b) {
        ImportsOneMore(nodes, i, b);
        ImportsByTarget(nodes[i], b);
        if nodes[i].level == 1 {
          assert b in deps <==> b in before || (b in modules && exists t | t in targets :: FirstSegment(t) == b);
        }
      }
    }
    assert nodes[..|nodes|] == nodes;
  }

  lemma ImportsByTarget(node: Import, name: string)
    ensures ImportsAt(node, name) <==> node.level == 1 && exists t | t in Targets(node) :: FirstSegment(t) == name
  {
    hide StartsWith;
    forall t ensures StartsWith(t, name) <==> FirstSegment(t) == name {
      FirstSegmentIsTheOnlyStart(t, name);
    }
    if node.FromModule? {
      assert node.target in Targets(node);
    } else {
      assert forall k | 0 <= k < |node.names| :: node.names[k] in Targets(node);
    }
  }

  lemma ImportsOneMore(nodes: seq<Import>, i: nat, name: string)
    requires i < |nodes|
    ensures Imports(nodes[..i + 1], name) <==> Imports(nodes[..i], name) || ImportsAt(nodes[i], name)
  {
    hide ImportsAt;
    var shorter, longer := nodes[..i], nodes[..i + 1];
    assert longer[i] == nodes[i];
    if Imports(shorter, name) {
      var n :| 0 <= n < |shorter| && ImportsAt(shorter[n], name);
      assert longer[n] == shorter[n];
    }
    if Imports(longer, name) {
      var n :| 0 <= n < |longer| && ImportsAt(longer[n], name);
      if n < i { assert shorter[n] == longer[n]; }
    }
  }

  // ---------------------------------------------------------------- the search

  datatype Color = Unseen | OnStack | Done

  /** `list.index`: the first position of `x`. */
  function IndexOf(s: seq<string>, x: string): (i: nat)
    requires x in s
    ensures i < |s| && s[i] == x && x !in s[..i]
  {
    if s[0] == x then 0
    else
      var i := 1 + IndexOf(s[1..], x);
      assert s[..i] == [s[0]] + s[1..][..i - 1];
      i
  }

  lemma {:induction false} IndexOfFirst(s: seq<string>, k: nat)
    requires k < |s|
    ensures IndexOf(s, s[k]) <= k
  {
    if k > 0 { IndexOfFirst(s[1..], k - 1); }
  }

  /** What holds between steps: `stack` is a path of exactly the grey modules, `finished` lists
      exactly the black ones, each after everything it imports. */
  ghost predicate Inv(g: Graph, state: map<string, Color>, stack: seq<string>, finished: seq<string>) {
    && Closed(g)
    && state.Keys <= g.Keys
    && IsPath(g, stack) && Distinct(stack)
    && (forall m :: m in stack <==> m in state && state[m] == OnStack)
    && (forall m :: m in finished <==> m in state && state[m] == Done)
    && FinishingOrder(g, finished)
  }

  function Unvisited(g: Graph, state: map<string, Color>): set<string> {
    set m | m in g && (m !in state || state[m] == Unseen)
  }

  predicate White(state: map<string, Color>, m: string) {
    m !in state || state[m] == Unseen
  }

  lemma Default(g: Graph, state: map<string, Color>, stack: seq<string>, finished: seq<string>, m: string)
    requires Inv(g, state, stack, finished) && m in g && m !in state
    ensures Inv(g, state[m := Unseen], stack, finished)
    ensures Unvisited(g, state[m := Unseen]) == Unvisited(g, state)
  {
  }

  lemma Push(g: Graph, state: map<string, Color>, stack: seq<string>, finished: seq<string>, m: string)
    requires Inv(g, state, stack, finished) && m in g && White(state, m)
    requires stack != [] ==> Edge(g, stack[|stack| - 1], m)
    ensures Inv(g, state[m := OnStack], stack + [m], finished)
    ensures Unvisited(g, state[m := OnStack]) < Unvisited(g, state)
  {
    var longer := stack + [m];
    forall x ensures x in longer <==> x in stack || x == m {}
    assert m in Unvisited(g, state) && m !in Unvisited(g, state[m := OnStack]);
  }

  lemma Pop(g: Graph, state: map<string, Color>, stack: seq<string>, finished: seq<string>, m: string)
    requires Inv(g, state, stack + [m], finished)
    requires m in g && forall d | d in g[m] :: d in finished
    ensures Inv(g, state[m := Done], stack, finished + [m])
    ensures Unvisited(g, state[m := Done]) <= Unvisited(g, state)
  {
    var longer := stack + [m];
    assert longer[|stack|] == m;
    forall x ensures x in stack <==> x in longer && x != m {
      if x in stack {
        var i :| 0 <= i < |stack| && stack[i] == x;
        assert longer[i] == x;
      }
    }
    forall i | 0 <= i < |stack| - 1 ensures Edge(g, stack[i], stack[i + 1]) {
      assert Edge(g, longer[i], longer[i + 1]);
    }
    forall i, j | 0 <= i < j < |stack| ensures stack[i] != stack[j] {
      assert longer[i] != longer[j];
    }
    FinishOne(g, finished, m);
  }

  lemma ClosedUnder(g: Graph, state: map<string, Color>, stack: seq<string>, finished: seq<string>, m: string)
    requires Inv(g, state, stack, finished) && m in g
    ensures g[m] <= g.Keys
  {
  }

  /** A colour other than white says where the module is. */
  lemma Locate(g: Graph, state: map<string, Color>, stack: seq<string>, finished: seq<string>, m: string)
    requires Inv(g, state, stack, finished) && m in state
    ensures state[m] == OnStack ==> m in stack
    ensures state[m] == Done ==> m in finished
  {
  }

  /** The traversal state that `find_cycle` mutates: the colour dict and the shared stack. */
  class Traversal {
    const graph: Graph
    var state: map<string, Color>
    var stack: seq<string>
    /** The black modules in the order they were finished. */
    ghost var finished: seq<string>

    constructor (graph: Graph)
      requires Closed(graph)
      ensures this.graph == graph && Valid() && stack == [] && finished == []
    {
      this.graph := graph;
      state, stack, finished := map[], [], [];
    }

    ghost predicate Valid()
      reads this
    {
      Inv(graph, state, stack, finished)
    }

    /**
     An empty answer finishes `node` and leaves the stack as it was; otherwise the answer is
     a simple cycle. The colours and the stack are left as they are when a cycle is found.
     */
    method FindCycle(node: string) returns (cycle: seq<string>)
      requires Valid()
      requires node in graph && White(state, node)
      requires stack != [] ==> Edge(graph, stack[|stack| - 1], node)
      modifies this
      ensures cycle == [] ==> Valid() && stack == old(stack) && node in finished && old(finished) <= finished
      ensures cycle == [] ==> Unvisited(graph, state) < old(Unvisited(graph, state))
      ensures cycle != [] ==> IsSimpleCycle(graph, cycle)
      decreases Unvisited(graph, state)
    {
      hide Inv, IsSimpleCycle, Unvisited, StrictlySorted, Sorted;
      ghost var before := stack;
      ClosedUnder(graph, state, stack, finished, node);
      Push(graph, state, stack, finished, node);
      state := state[node := OnStack];
      stack := stack + [node];
      var deps := Sorted(graph[node]);
      for i := 0 to |deps|
        invariant Valid() && stack == before + [node]
        invariant old(finished) <= finished
        invariant forall k | 0 <= k < i :: deps[k] in finished
        invariant Unvisited(graph, state) < old(Unvisited(graph, state))
      {
        var dep := deps[i];
        assert dep in deps;
        if dep !in state {
          Default(graph, state, stack, finished, dep);
          state := state[dep := Unseen];
        }
        Locate(graph, state, stack, finished, dep);
        if state[dep] == OnStack {
          CloseCycle(graph, state, stack, finished, dep);
          return stack[IndexOf(stack, dep)..] + [dep];
        }
        if state[dep] == Unseen {
          cycle := FindCycle(dep);
          if cycle != [] {
            return;
          }
        }
      }
      forall d | d in graph[node] ensures d in finished {
        assert d in deps;
      }
      Pop(graph, state, before, finished, node);
      stack := stack[..|stack| - 1];
      assert stack == before;
      state := state[node := Done];
      finished := finished + [node];
      cycle := [];
    }
  }

  /** Every edge out of a finished module leads to one finished before it. */
  ghost predicate FinishingOrder(g: Graph, finished: seq<string>) {
    forall i | 0 <= i < |finished| :: finished[i] in g && forall d | d in g[finished[i]] :: d in finished[..i]
  }

  lemma FinishOne(g: Graph, finished: seq<string>, m: string)
    requires FinishingOrder(g, finished) && m in g && forall d | d in g[m] :: d in finished
    ensures FinishingOrder(g, finished + [m])
  {
    var longer := finished + [m];
    forall i | 0 <= i < |longer| ensures longer[i] in g && forall d | d in g[longer[i]] :: d in longer[..i] {
      assert longer[..i] == finished[..i];
      assert finished[..|finished|] == finished;
    }
  }

  /** A suffix of a repeat-free path, closed by an edge back to its start, is a simple cycle. */
  lemma CloseAt(g: Graph, stack: seq<string>, j: nat)
    requires j < |stack| && IsPath(g, stack) && Distinct(stack)
    requires Edge(g, stack[|stack| - 1], stack[j])
    ensures IsSimpleCycle(g, stack[j..] + [stack[j]])
  {
    hide Edge;
    var c := stack[j..] + [stack[j]];
    assert c[..|c| - 1] == stack[j..];
    forall i | 0 <= i < |c| - 1 ensures Edge(g, c[i], c[i + 1]) {
      assert c[i] == stack[j + i];
      if i + 1 < |c| - 1 { assert Edge(g, stack[j + i], stack[j + i + 1]) && c[i + 1] == stack[j + i + 1]; }
    }
  }

  /** Meeting a module on the stack again closes a simple cycle along the stack. */
  lemma CloseCycle(g: Graph, state: map<string, Color>, stack: seq<string>, finished: seq<string>, dep: string)
    requires Inv(g, state, stack, finished) && dep in stack
    requires Edge(g, stack[|stack| - 1], dep)
    ensures IsSimpleCycle(g, stack[IndexOf(stack, dep)..] + [dep])
  {
    hide Edge, IsPath, Distinct, FinishingOrder, IsSimpleCycle;
    CloseAt(g, stack, IndexOf(stack, dep));
  }

  /** Along any path of finished modules, the finishing position strictly falls. */
  lemma {:induction false} PositionFalls(g: Graph, finished: seq<string>, p: seq<string>)
    requires FinishingOrder(g, finished) && IsPath(g, p) && |p| >= 2 && p[0] in finished
    ensures p[|p| - 1] in finished && IndexOf(finished, p[|p| - 1]) < IndexOf(finished, p[0])
  {
    var i := IndexOf(finished, p[0]);
    assert Edge(g, p[0], p[1]);
    assert p[1] in finished[..i];
    var k :| 0 <= k < i && finished[k] == p[1];
    IndexOfFirst(finished, k);
    if |p| > 2 {
      var rest := p[1..];
      forall n | 0 <= n < |rest| - 1 ensures Edge(g, rest[n], rest[n + 1]) {
        assert Edge(g, p[n + 1], p[n + 2]);
      }
      PositionFalls(g, finished, rest);
    }
  }

  lemma AllFinishedMeansAcyclic(g: Graph, state: map<string, Color>, stack: seq<string>, finished: seq<string>)
    requires Inv(g, state, stack, finished) && forall m | m in g :: m in finished
    ensures Acyclic(g)
  {
    forall c ensures !IsCycle(g, c) {
      if IsCycle(g, c) {
        assert Edge(g, c[0], c[1]);
        PositionFalls(g, finished, c);
      }
    }
  }

  lemma SimpleCycleRefutes(g: Graph, c: seq<string>)
    requires IsSimpleCycle(g, c)
    ensures !Acyclic(g)
  {
    assert IsCycle(g, c);
  }

  /** The search over all roots of one package, with one shared colour dict. */
  method PackageCycle(graph: Graph) returns (cycle: seq<string>)
    requires Closed(graph)
    ensures cycle == [] <==> Acyclic(graph)
    ensures cycle != [] ==> IsSimpleCycle(graph, cycle)
  {
    hide Acyclic, IsSimpleCycle, Unvisited, Inv, StrictlySorted, Sorted;
    var t := new Traversal(graph);
    var roots := Sorted(graph.Keys);
    cycle := [];
    for i := 0 to |roots|
      invariant fresh(t) && t.graph == graph && t.Valid() && t.stack == []
      invariant cycle == [] && forall k | 0 <= k < i :: roots[k] in t.finished
    {
      var root := roots[i];
      assert root in roots;
      if root !in t.state {
        Default(graph, t.state, t.stack, t.finished, root);
        t.state := t.state[root := Unseen];
      }
      Locate(graph, t.state, t.stack, t.finished, root);
      if t.state[root] == Unseen {
        cycle := t.FindCycle(root);
        if cycle != [] {
          SimpleCycleRefutes(graph, cycle);
          return;
        }
      }
    }
    forall m | m in graph ensures m in t.finished {
      assert m in roots;
    }
    AllFinishedMeansAcyclic(graph, t.state, t.stack, t.finished);
  }

  // ---------------------------------------------------------------- the check

  /** A package directory: its name and, when it exists, its parsed files. */
  datatype Package = Missing(name: string) | Found(name: string, files: map<string, seq<Import>>)

  /** The package's own modules, read as a graph by their level-1 imports, contain a cycle. */
  ghost predicate HasImportCycle(p: Package) {
    p.Found? && exists g: Graph :: IsImportGraph(p.files, g) && !Acyclic(g)
  }

  ghost predicate IsImportCycle(p: Package, c: seq<string>) {
    p.Found? && exists g: Graph :: IsImportGraph(p.files, g) && IsSimpleCycle(g, c)
  }

  /** `errors` lists, in order, one simple cycle for each package that has any, and no other. */
  ghost predicate Reports(packages: seq<Package>, errors: seq<(string, seq<string>)>) {
    if packages == [] then errors == []
    else
      var n, e := |packages| - 1, |errors| - 1;
      if HasImportCycle(packages[n])
      then e >= 0 && errors[e].0 == packages[n].name && IsImportCycle(packages[n], errors[e].1)
           && Reports(packages[..n], errors[..e])
      else Reports(packages[..n], errors)
  }

  method CheckImportCycles(packages: seq<Package>) returns (errors: seq<(string, seq<string>)>)
    ensures Reports(packages, errors)
  {
    errors := [];
    for n := 0 to |packages|
      invariant Reports(packages[..n], errors)
    {
      hide IsImportGraph, IsSimpleCycle, Acyclic, Closed;
      ghost var before := errors;
      assert packages[..n + 1][..n] == packages[..n];
      var p := packages[n];
      if p.Found? {
        var graph := PackageImportGraph(p.files);
        GraphIsUnique(p, graph);
        var cycle := PackageCycle(graph);
        if cycle != [] {
          errors := errors + [(p.name, cycle)];
          assert errors[..|errors| - 1] == before;
        }
      }
    }
    assert packages[..|packages|] == packages;
  }

  lemma GraphIsUnique(p: Package, graph: Graph)
    requires p.Found? && IsImportGraph(p.files, graph)
    ensures Closed(graph)
    ensures HasImportCycle(p) <==> !Acyclic(graph)
  {
    if HasImportCycle(p) {
      var g: Graph :| IsImportGraph(p.files, g) && !Acyclic(g);
      forall a | a in g ensures g[a] == graph[a] {
        assert HasImports(g[a], p.files.Keys, p.files[a]) && HasImports(graph[a], p.files.Keys, p.files[a]);
      }
      assert g == graph;
    }
  }

  // ---------------------------------------------------------------- what the graph says

  /** A package of two modules whose imports are given. */
  function TwoModules(a: string, ofA: seq<Import>, b: string, ofB: seq<Import>): map<string, seq<Import>> {
    map[a := ofA, b := ofB]
  }

  /** `from .b import ...` and `from . import b` both make an edge to `b`, deeper imports from inside it too. */
  lemma ImportOfAModuleIsAnEdge(files: map<string, seq<Import>>, g: Graph, a: string, b: string, inside: string, i: nat, k: nat)
    requires IsImportGraph(files, g) && a in files && b in files && '.' !in b && i < |files[a]|
    requires match files[a][i]
      case FromModule(level, target) => level == 1 && (target == b || target == b + "." + inside)
      case FromNames(level, names) => level == 1 && k < |names| && names[k] == b
    ensures Edge(g, a, b)
  {
    assert HasImports(g[a], files.Keys, files[a]);
    assert ImportsAt(files[a][i], b) by {
      if files[a][i].FromModule? {
        assert StartsWith(b, b) && StartsWith(b + "." + inside, b);
      } else {
        assert StartsWith(files[a][i].names[k], b);
      }
    }
  }

  /** Two modules that import each other are reported; imports of any other level are not looked at. */
  lemma MutualImportsAreReported(name: string, a: string, b: string, level: nat, errors: seq<(string, seq<string>)>)
    requires a != b && '.' !in a && '.' !in b
    requires Reports([Found(name, TwoModules(a, [FromModule(level, b)], b, [FromModule(level, a)]))], errors)
    ensures if level == 1 then |errors| == 1 && errors[0].0 == name else errors == []
  {
    var files := TwoModules(a, [FromModule(level, b)], b, [FromModule(level, a)]);
    var p := Found(name, files);
    assert [p][..0] == [];
    assert HasImportCycle(p) <==> level == 1 by {
      var g: Graph := if level == 1 then map[a := {b}, b := {a}] else map[a := {}, b := {}];
      MutualGraph(a, b, level, files, g);
      GraphIsUnique(p, g);
      MutualCycle(a, b, g);
    }
    if level == 1 { assert errors == errors[..0] + [errors[0]]; }
  }

  lemma MutualGraph(a: string, b: string, level: nat, files: map<string, seq<Import>>, g: Graph)
    requires a != b && '.' !in a && '.' !in b && files == TwoModules(a, [FromModule(level, b)], b, [FromModule(level, a)])
    requires g == if level == 1 then map[a := {b}, b := {a}] else map[a := {}, b := {}]
    ensures IsImportGraph(files, g)
  {
    OnlyItself(a);
    OnlyItself(b);
    forall name ensures Imports([FromModule(level, b)], name) <==> level == 1 && name == b {
      assert ImportsAt([FromModule(level, b)][0], name) <==> level == 1 && name == b;
    }
    forall name ensures Imports([FromModule(level, a)], name) <==> level == 1 && name == a {
      assert ImportsAt([FromModule(level, a)][0], name) <==> level == 1 && name == a;
    }
  }

  lemma OnlyItself(a: string)
    requires '.' !in a
    ensures forall name :: StartsWith(a, name) <==> name == a
  {
    forall name ensures StartsWith(a, name) <==> name == a {
      assert StartsWith(a, a);
      FirstSegmentIsTheOnlyStart(a, a);
      FirstSegmentIsTheOnlyStart(a, name);
    }
  }

  lemma MutualCycle(a: string, b: string, g: Graph)
    requires a != b && g.Keys == {a, b} && (g == map[a := {b}, b := {a}] || g == map[a := {}, b := {}])
    ensures Acyclic(g) <==> g == map[a := {}, b := {}]
  {
    if g == map[a := {b}, b := {a}] {
      assert IsCycle(g, [a, b, a]);
    } else {
      forall c ensures !IsCycle(g, c) {
        if |c| >= 2 { assert !Edge(g, c[0], c[1]); }
      }
    }
  }
}
