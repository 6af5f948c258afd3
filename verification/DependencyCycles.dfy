/** The workspace dependency cycle check: a coloured depth-first search with an explicit stack. */
module DependencyCycles {

  /** A package name, as its position in the order Python's `sorted` gives the names. */
  type Name = nat

  datatype DependencyKind = Normal | Build | Dev

  datatype Dependency = Dependency(name: Name, kind: DependencyKind)

  type Graph = map<Name, set<Name>>

  predicate Closed(graph: Graph) {
    forall n :: n in graph ==> graph[n] <= graph.Keys
  }

  predicate Edge(graph: Graph, u: Name, v: Name) {
    u in graph && v in graph[u]
  }

  predicate IsPath(graph: Graph, path: seq<Name>) {
    forall i {:trigger path[i]} :: 0 <= i < |path| - 1 ==> Edge(graph, path[i], path[i + 1])
  }

  /** A closed walk of at least one edge; a self-loop is `[n, n]`. */
  predicate IsCycle(graph: Graph, path: seq<Name>) {
    |path| >= 2 && path[0] == path[|path| - 1] && IsPath(graph, path)
  }

  ghost predicate Cyclic(graph: Graph) {
    exists path :: IsCycle(graph, path)
  }

  /** The production graph: workspace members only, development edges excluded. */
  function ProductionGraph(packages: map<Name, seq<Dependency>>): (graph: Graph)
    ensures Closed(graph) && graph.Keys == packages.Keys
    ensures forall u, v :: Edge(graph, u, v) <==>
              u in packages && v in packages && exists d :: d in packages[u] && d.name == v && d.kind != Dev
  {
    map n | n in packages :: set d | d in packages[n] && d.kind != Dev && d.name in packages :: d.name
  }

  // ------------------------------------------------------------------ sorting

  predicate IsLeast(least: Name, names: set<Name>) {
    least in names && forall other :: other in names ==> least <= other
  }

  lemma {:induction false} LeastExists(names: set<Name>)
    requires names != {}
    ensures exists least :: IsLeast(least, names)
  {
    var some :| some in names;
    var rest := names - {some};
    if rest == {} {
      assert names == {some};
      assert IsLeast(some, names);
    } else {
      LeastExists(rest);
      var least :| IsLeast(least, rest);
      var m := if some <= least then some else least;
      forall other | other in names ensures m <= other {
        assert other == some || other in rest;
      }
      assert IsLeast(m, names);
    }
  }

  function Least(names: set<Name>): (least: Name)
    requires names != {}
    ensures IsLeast(least, names)
  {
    LeastExists(names);
    var least :| IsLeast(least, names);
    least
  }

  predicate Ascending(list: seq<Name>) {
    forall i, j :: 0 <= i < j < |list| ==> list[i] < list[j]
  }

  lemma PrependLeast(least: Name, rest: seq<Name>, names: set<Name>)
    requires IsLeast(least, names) && Ascending(rest)
    requires forall n :: n in names - {least} <==> n in rest
    ensures Ascending([least] + rest)
    ensures forall n :: n in names <==> n in [least] + rest
  {
    var list := [least] + rest;
    forall i, j | 0 <= i < j < |list| ensures list[i] < list[j] {
      assert list[j] == rest[j - 1] && rest[j - 1] in rest;
      assert i > 0 ==> list[i] == rest[i - 1];
    }
    forall n | n in names ensures n in list {
      assert n == least || n in rest;
    }
  }

  /** `sorted(names)`: every name once, in order. */
  function Sorted(names: set<Name>): (list: seq<Name>)
    ensures forall n :: n in names <==> n in list
    ensures Ascending(list)
    decreases |names|
  {
    if names == {} then []
    else
      var least := Least(names);
      var rest := Sorted(names - {least});
      PrependLeast(least, rest, names);
      [least] + rest
  }

  // ------------------------------------------------------------------- search

  datatype Color = Unvisited | Visiting | Visited

  /** Some report ends by going along this edge. */
  predicate Reports(failures: seq<seq<Name>>, u: Name, v: Name) {
    exists f :: f in failures && |f| >= 2 && f[|f| - 2] == u && f[|f| - 1] == v
  }

  /** Every edge of a finished package is accounted for: its dependency finished before it, or a report
      ends along that edge. */
  ghost predicate Accounted(graph: Graph, finished: seq<Name>, failures: seq<seq<Name>>) {
    forall i, v :: 0 <= i < |finished| && Edge(graph, finished[i], v) ==>
                     v in finished[..i] || Reports(failures, finished[i], v)
  }

  lemma ReportsStay(failures: seq<seq<Name>>, more: seq<seq<Name>>)
    requires failures <= more
    ensures forall u, v :: Reports(failures, u, v) ==> Reports(more, u, v)
  {
    forall f | f in failures ensures f in more {}
  }

  lemma AccountsStay(graph: Graph, finished: seq<Name>, failures: seq<seq<Name>>, more: seq<seq<Name>>)
    requires Accounted(graph, finished, failures) && failures <= more
    ensures Accounted(graph, finished, more)
  {
    hide Edge, Reports;
    ReportsStay(failures, more);
  }

  predicate NoRepeats(names: seq<Name>) {
    forall i, j :: 0 <= i < j < |names| ==> names[i] != names[j]
  }

  /** The stack is exactly the visiting packages, each once, and spells a path of the graph. */
  predicate StackIsVisiting(graph: Graph, states: map<Name, Color>, stack: seq<Name>) {
    && states.Keys == graph.Keys
    && NoRepeats(stack)
    && (forall n :: n in stack ==> n in states && states[n] == Visiting)
    && (forall n :: n in states && states[n] == Visiting ==> n in stack)
    && IsPath(graph, stack)
  }

  predicate FinishedIsVisited(states: map<Name, Color>, finished: seq<Name>) {
    && NoRepeats(finished)
    && (forall n :: n in finished ==> n in states && states[n] == Visited)
    && (forall n :: n in states && states[n] == Visited ==> n in finished)
  }

  lemma PathGrows(graph: Graph, stack: seq<Name>, name: Name)
    requires IsPath(graph, stack)
    requires stack == [] || Edge(graph, stack[|stack| - 1], name)
    ensures IsPath(graph, stack + [name])
  {
    hide Edge;
    var grown := stack + [name];
    forall i | 0 <= i < |grown| - 1 ensures Edge(graph, grown[i], grown[i + 1]) {
      if i < |stack| - 1 {
        assert Edge(graph, stack[i], stack[i + 1]);
      }
    }
  }

  lemma PathShrinks(graph: Graph, stack: seq<Name>)
    requires IsPath(graph, stack) && stack != []
    ensures IsPath(graph, stack[..|stack| - 1])
  {
    hide Edge;
    var rest := stack[..|stack| - 1];
    forall i | 0 <= i < |rest| - 1 ensures Edge(graph, rest[i], rest[i + 1]) {
      assert Edge(graph, stack[i], stack[i + 1]);
    }
  }

  lemma EnterKeeps(graph: Graph, states: map<Name, Color>, stack: seq<Name>, finished: seq<Name>, name: Name)
    requires StackIsVisiting(graph, states, stack) && FinishedIsVisited(states, finished)
    requires name in states && states[name] == Unvisited
    requires stack == [] || Edge(graph, stack[|stack| - 1], name)
    ensures StackIsVisiting(graph, states[name := Visiting], stack + [name])
    ensures FinishedIsVisited(states[name := Visiting], finished)
  {
    PathGrows(graph, stack, name);
    hide Edge, IsPath;
    var after := states[name := Visiting];
    assert name !in stack && name !in finished;
    assert forall n :: n in after ==> n == name || after[n] == states[n];
  }

  lemma LeaveKeeps(graph: Graph, states: map<Name, Color>, stack: seq<Name>, finished: seq<Name>)
    requires StackIsVisiting(graph, states, stack) && FinishedIsVisited(states, finished)
    requires stack != []
    ensures StackIsVisiting(graph, states[stack[|stack| - 1] := Visited], stack[..|stack| - 1])
    ensures FinishedIsVisited(states[stack[|stack| - 1] := Visited], finished + [stack[|stack| - 1]])
  {
    hide Edge, IsPath;
    var name := stack[|stack| - 1];
    var rest := stack[..|stack| - 1];
    var after := states[name := Visited];
    assert stack == rest + [name];
    assert IsPath(graph, rest) by {
      PathShrinks(graph, stack);
    }
    assert name !in rest && name !in finished;
    forall n | n in after && after[n] == Visiting ensures n in rest {
      assert n in stack;
    }
    forall n | n in after && after[n] == Visited ensures n in finished + [name] {
      assert n == name || n in finished;
    }
  }

  lemma FinishingKeepsTheOrder(graph: Graph, finished: seq<Name>, failures: seq<seq<Name>>, name: Name)
    requires Accounted(graph, finished, failures)
    requires forall v :: Edge(graph, name, v) ==> v in finished || Reports(failures, name, v)
    ensures Accounted(graph, finished + [name], failures)
  {
    hide Edge, Reports;
    var grown := finished + [name];
    forall i, v | 0 <= i < |grown| && Edge(graph, grown[i], v) ensures v in grown[..i] || Reports(failures, grown[i], v) {
      assert grown[..i] == finished[..i];
      assert i == |finished| ==> finished[..i] == finished;
    }
  }

  class CycleCheck {
    const graph: Graph
    var states: map<Name, Color>
    var stack: seq<Name>
    var failures: seq<seq<Name>>
    ghost var finished: seq<Name>

    /** The search's invariant. Every report is a cycle, and packages finish after their dependencies but
        for the edges along which a report ends. */
    ghost predicate Valid()
      reads this
    {
      && Closed(graph)
      && StackIsVisiting(graph, states, stack)
      && FinishedIsVisited(states, finished)
      && (forall f :: f in failures ==> IsCycle(graph, f))
      && Accounted(graph, finished, failures)
    }

    ghost function Open(): set<Name>
      reads this
    {
      OpenNames(states)
    }

    constructor (packages: map<Name, seq<Dependency>>)
      ensures graph == ProductionGraph(packages)
      ensures Valid() && stack == [] && failures == [] && finished == []
    {
      var production := ProductionGraph(packages);
      graph := production;
      states := map n | n in production :: Unvisited;
      stack, failures, finished := [], [], [];
    }

    /** Colours a package and puts it on the stack. */
    method Enter(name: Name)
      requires Valid() && name in states && states[name] == Unvisited
      requires stack == [] || Edge(graph, stack[|stack| - 1], name)
      modifies this`states, this`stack
      ensures Valid() && stack == old(stack) + [name]
      ensures states == old(states)[name := Visiting]
    {
      hide StackIsVisiting, FinishedIsVisited, IsCycle, Accounted, Closed;
      EnterKeeps(graph, states, stack, finished, name);
      states := states[name := Visiting];
      stack := stack + [name];
    }

    /** A dependency still on the stack closes a cycle: the report follows the stack from there and ends
        along the edge that closes it. */
    method Report(dependency: Name)
      requires Valid() && dependency in stack && Edge(graph, stack[|stack| - 1], dependency)
      modifies this`failures
      ensures Valid() && |failures| == |old(failures)| + 1 && old(failures) < failures
      ensures Reports(failures, stack[|stack| - 1], dependency)
    {
      hide StackIsVisiting, FinishedIsVisited, Accounted, Closed;
      var start :| 0 <= start < |stack| && stack[start] == dependency;
      var cycle := stack[start..] + [dependency];
      StackIsPath(graph, states, stack);
      ClosingEdgeMakesACycle(graph, stack, start);
      AccountsStay(graph, finished, failures, failures + [cycle]);
      failures := failures + [cycle];
      assert cycle in failures && cycle[|cycle| - 2] == stack[|stack| - 1];
    }

    /** Takes a finished package off the stack. */
    method Leave(name: Name)
      requires Valid() && stack != [] && stack[|stack| - 1] == name
      requires forall v :: Edge(graph, name, v) ==> v in finished || Reports(failures, name, v)
      modifies this`states, this`stack, this`finished
      ensures Valid() && stack == old(stack)[..|old(stack)| - 1]
      ensures states == old(states)[name := Visited]
      ensures finished == old(finished) + [name]
    {
      hide StackIsVisiting, FinishedIsVisited, IsCycle, Accounted, Closed, Edge, Reports;
      LeaveKeeps(graph, states, stack, finished);
      FinishingKeepsTheOrder(graph, finished, failures, name);
      states := states[name := Visited];
      stack := stack[..|stack| - 1];
      finished := finished + [name];
    }

    /** One turn of the loop over the dependencies of `name`, the package on top of the stack. */
    method Follow(name: Name, dependency: Name)
      requires Valid() && stack != [] && stack[|stack| - 1] == name && Edge(graph, name, dependency)
      modifies this
      ensures Valid() && stack == old(stack)
      ensures Open() <= old(Open()) && old(failures) <= failures && old(finished) <= finished
      ensures dependency in finished || Reports(failures, name, dependency)
      decreases |Open()|, 1
    {
      hide StackIsVisiting, FinishedIsVisited, IsCycle, Accounted, Closed, IsPath;
      EdgesStayInside(graph, states, stack, finished, name, dependency);
      if states[dependency] == Unvisited {
        Visit(dependency);
      } else if states[dependency] == Visiting {
        Report(dependency);
      }
    }

    /** Follows every edge of the package on top of the stack, in name order. */
    method FollowAll(name: Name)
      requires Valid() && name in graph && stack != [] && stack[|stack| - 1] == name
      modifies this
      ensures Valid() && stack == old(stack)
      ensures Open() <= old(Open()) && old(failures) <= failures && old(finished) <= finished
      ensures forall d :: Edge(graph, name, d) ==> d in finished || Reports(failures, name, d)
      decreases |Open()|, 2
    {
      hide StackIsVisiting, FinishedIsVisited, IsCycle, Accounted, Closed, Edge, Ascending, Reports;
      ghost var entered := Open();
      var dependencies := Sorted(graph[name]);
      var i := 0;
      while i < |dependencies|
        invariant 0 <= i <= |dependencies|
        invariant Valid() && stack == old(stack)
        invariant Open() <= entered
        invariant old(failures) <= failures && old(finished) <= finished
        invariant forall j :: 0 <= j < i ==> dependencies[j] in finished || Reports(failures, name, dependencies[j])
      {
        ghost var reported := failures;
        Listed(graph, name, dependencies, i);
        Included(Open(), entered);
        Follow(name, dependencies[i]);
        ReportsStay(reported, failures);
        i := i + 1;
      }
      AllListed(graph, name, dependencies);
    }

    method Visit(name: Name)
      requires Valid() && name in states && states[name] == Unvisited
      requires stack == [] || Edge(graph, stack[|stack| - 1], name)
      modifies this
      ensures Valid() && stack == old(stack)
      ensures Open() <= old(Open()) && old(failures) <= failures && old(finished) <= finished
      ensures name in finished
      decreases |Open()|, 0
    {
      hide StackIsVisiting, FinishedIsVisited, IsCycle, Accounted, Closed, Edge, Ascending, Reports;
      EnteringCloses(states, name);
      SameNames(graph, states, stack);
      Enter(name);
      FollowAll(name);
      LeavingOpensNothing(states, name);
      Leave(name);
    }

    /** Visits every package that no earlier visit reached, in name order. */
    method VisitAll()
      requires Valid() && stack == []
      modifies this
      ensures Valid() && stack == []
      ensures forall n :: n in states ==> n in finished
    {
      hide StackIsVisiting, FinishedIsVisited, IsCycle, Accounted, Closed, Edge, Ascending, NoRepeats;
      SameNames(graph, states, stack);
      var names := Sorted(graph.Keys);
      var i := 0;
      while i < |names|
        invariant 0 <= i <= |names|
        invariant Valid() && stack == []
        invariant forall j :: 0 <= j < i ==> names[j] in finished
      {
        assert names[i] in names;
        SameNames(graph, states, stack);
        VisitedAreFinished(states, finished);
        NothingIsVisiting(graph, states);
        if states[names[i]] == Unvisited {
          Visit(names[i]);
        }
        i := i + 1;
      }
      SameNames(graph, states, stack);
    }
  }

  ghost function OpenNames(states: map<Name, Color>): set<Name> {
    set n | n in states && states[n] == Unvisited
  }

  lemma EnteringCloses(states: map<Name, Color>, name: Name)
    requires name in states && states[name] == Unvisited
    ensures OpenNames(states[name := Visiting]) <= OpenNames(states)
    ensures |OpenNames(states[name := Visiting])| < |OpenNames(states)|
  {
    assert OpenNames(states[name := Visiting]) == OpenNames(states) - {name};
    assert name in OpenNames(states);
  }

  lemma LeavingOpensNothing(states: map<Name, Color>, name: Name)
    ensures OpenNames(states[name := Visited]) <= OpenNames(states)
  {
  }

  lemma Listed(graph: Graph, name: Name, dependencies: seq<Name>, i: nat)
    requires name in graph && dependencies == Sorted(graph[name]) && i < |dependencies|
    ensures Edge(graph, name, dependencies[i])
  {
    assert dependencies[i] in dependencies;
  }

  lemma AllListed(graph: Graph, name: Name, dependencies: seq<Name>)
    requires name in graph && dependencies == Sorted(graph[name])
    ensures forall v :: Edge(graph, name, v) ==> v in dependencies
  {
  }

  lemma StackIsPath(graph: Graph, states: map<Name, Color>, stack: seq<Name>)
    requires StackIsVisiting(graph, states, stack)
    ensures IsPath(graph, stack)
  {
  }

  lemma ClosingEdgeMakesACycle(graph: Graph, stack: seq<Name>, start: nat)
    requires IsPath(graph, stack) && start < |stack| && Edge(graph, stack[|stack| - 1], stack[start])
    ensures IsCycle(graph, stack[start..] + [stack[start]])
  {
    hide Edge;
    var cycle := stack[start..] + [stack[start]];
    forall i | 0 <= i < |cycle| - 1 ensures Edge(graph, cycle[i], cycle[i + 1]) {
      assert cycle[i] == stack[start + i];
      if i < |cycle| - 2 {
        assert Edge(graph, stack[start + i], stack[start + i + 1]);
      }
    }
  }

  lemma EdgesStayInside(graph: Graph, states: map<Name, Color>, stack: seq<Name>, finished: seq<Name>, name: Name, dependency: Name)
    requires Closed(graph) && Edge(graph, name, dependency)
    requires StackIsVisiting(graph, states, stack) && FinishedIsVisited(states, finished)
    ensures dependency in states
    ensures states[dependency] == Visiting ==> dependency in stack
    ensures states[dependency] == Visited ==> dependency in finished
  {
    assert dependency in graph[name] && graph[name] <= graph.Keys;
  }

  lemma {:induction false} Included(a: set<Name>, b: set<Name>)
    requires a <= b
    ensures |a| <= |b|
  {
    if a == {} {
    } else {
      var n :| n in a;
      Included(a - {n}, b - {n});
    }
  }

  // ------------------------------------------------- soundness and completeness

  function Position(names: seq<Name>, n: Name): (i: nat)
    requires n in names
    ensures i < |names| && names[i] == n
  {
    if names[0] == n then 0 else 1 + Position(names[1..], n)
  }

  lemma EdgesPointBackwards(graph: Graph, finished: seq<Name>, failures: seq<seq<Name>>, u: Name, v: Name)
    requires Accounted(graph, finished, failures) && NoRepeats(finished)
    requires u in finished && Edge(graph, u, v) && !Reports(failures, u, v)
    ensures v in finished && Position(finished, v) < Position(finished, u)
  {
    hide Reports;
    var i := Position(finished, u);
    assert v in finished[..i];
    var j :| 0 <= j < i && finished[..i][j] == v;
    assert finished[j] == v;
  }

  /** A path that goes along no edge a report ends with. */
  predicate Unreported(failures: seq<seq<Name>>, path: seq<Name>) {
    forall i :: 0 <= i < |path| - 1 ==> !Reports(failures, path[i], path[i + 1])
  }

  /** Along such a path the finish positions fall strictly. */
  lemma {:induction false} PathsFall(graph: Graph, finished: seq<Name>, failures: seq<seq<Name>>, path: seq<Name>, k: nat)
    requires Accounted(graph, finished, failures) && NoRepeats(finished)
    requires k < |path| && IsPath(graph, path) && Unreported(failures, path) && path[0] in finished
    ensures path[k] in finished && Position(finished, path[k]) + k <= Position(finished, path[0])
  {
    hide Reports, Accounted;
    if k == 0 {
    } else {
      PathsFall(graph, finished, failures, path, k - 1);
      assert Edge(graph, path[k - 1], path[k - 1 + 1]) && !Reports(failures, path[k - 1], path[k - 1 + 1]);
      EdgesPointBackwards(graph, finished, failures, path[k - 1], path[k]);
    }
  }

  /** A finish order that accounts for every edge leaves no unreported cycle: without the edges along
      which the reports end the graph has no cycle, and the order read backwards is topological. */
  lemma FinishOrderExcludesCycles(graph: Graph, finished: seq<Name>, failures: seq<seq<Name>>)
    requires Accounted(graph, finished, failures) && NoRepeats(finished)
    requires forall n :: n in graph ==> n in finished
    ensures forall path :: IsCycle(graph, path) ==> !Unreported(failures, path)
  {
    forall path | IsCycle(graph, path) ensures !Unreported(failures, path) {
      if Unreported(failures, path) {
        assert Edge(graph, path[0], path[0 + 1]);
        PathsFall(graph, finished, failures, path, |path| - 1);
      }
    }
  }

  lemma NothingReported(graph: Graph)
    requires forall path :: IsCycle(graph, path) ==> !Unreported([], path)
    ensures !Cyclic(graph)
  {
    hide IsCycle;
    assert forall path :: IsCycle(graph, path) ==> Unreported([], path);
  }

  lemma SameNames(graph: Graph, states: map<Name, Color>, stack: seq<Name>)
    requires StackIsVisiting(graph, states, stack)
    ensures states.Keys == graph.Keys
  {
  }

  lemma VisitedAreFinished(states: map<Name, Color>, finished: seq<Name>)
    requires FinishedIsVisited(states, finished)
    ensures forall n :: n in states && states[n] == Visited ==> n in finished
    ensures forall n :: n in finished ==> n in states
    ensures NoRepeats(finished)
  {
  }

  lemma NothingIsVisiting(graph: Graph, states: map<Name, Color>)
    requires StackIsVisiting(graph, states, [])
    ensures forall n :: n in states ==> states[n] != Visiting
  {
  }

  /** Reports something exactly when the production graph has a cycle; every report is one; and no cycle
      escapes the reports: each goes along an edge with which some report ends. */
  method CheckWorkspaceDependencyCycles(packages: map<Name, seq<Dependency>>)
    returns (failures: seq<seq<Name>>, ghost finished: seq<Name>)
    ensures forall f :: f in failures ==> IsCycle(ProductionGraph(packages), f)
    ensures failures != [] <==> Cyclic(ProductionGraph(packages))
    ensures forall path :: IsCycle(ProductionGraph(packages), path) ==> !Unreported(failures, path)
    ensures NoRepeats(finished) && (forall n :: n in packages <==> n in finished)
    ensures Accounted(ProductionGraph(packages), finished, failures)
  {
    hide StackIsVisiting, FinishedIsVisited, IsCycle, Accounted, Closed, Edge, Ascending, NoRepeats, Unreported;
    hide ProductionGraph, Cyclic;
    var check := new CycleCheck(packages);
    check.VisitAll();
    failures, finished := check.failures, check.finished;
    SameNames(check.graph, check.states, check.stack);
    VisitedAreFinished(check.states, check.finished);
    FinishOrderExcludesCycles(check.graph, check.finished, check.failures);
    if failures == [] {
      NothingReported(check.graph);
    } else {
      ReportIsACycle(check.graph, failures[0]);
    }
  }

  lemma ReportIsACycle(graph: Graph, report: seq<Name>)
    requires IsCycle(graph, report)
    ensures Cyclic(graph)
  {
  }
}
