/** Depth-first search for a cycle among the build targets. */
module Cycles {

  type Adjacency = seq<seq<nat>>

  ghost predicate GraphOk(g: Adjacency) {
    forall u, k :: 0 <= u < |g| && 0 <= k < |g[u]| ==> g[u][k] < |g|
  }

  ghost predicate Edge(g: Adjacency, u: nat, w: nat) {
    u < |g| && w in g[u]
  }

  ghost predicate Walk(g: Adjacency, p: seq<nat>) {
    && (forall i :: 0 <= i < |p| ==> p[i] < |g|)
    && forall i :: 0 <= i < |p| - 1 ==> Edge(g, p[i], p[i + 1])
  }

  /** A closed walk. */
  ghost predicate IsCycle(g: Adjacency, p: seq<nat>) {
    |p| >= 2 && Walk(g, p) && p[0] == p[|p| - 1]
  }

  ghost predicate HasCycle(g: Adjacency) {
    exists p :: IsCycle(g, p)
  }

  /** A walk from r that comes back to a node it has been to. */
  ghost predicate LeadsToCycle(g: Adjacency, r: nat) {
    exists p :: |p| >= 2 && Walk(g, p) && p[0] == r && p[|p| - 1] in p[..|p| - 1]
  }

  lemma {:induction false} LeadingMeansCycle(g: Adjacency, r: nat)
    requires LeadsToCycle(g, r)
    ensures HasCycle(g)
  {
    var p :| |p| >= 2 && Walk(g, p) && p[0] == r && p[|p| - 1] in p[..|p| - 1];
    var i :| 0 <= i < |p| - 1 && p[i] == p[|p| - 1];
    var c := p[i..];
    assert forall k :: 0 <= k < |c| ==> c[k] == p[i + k];
    assert IsCycle(g, c);
  }

  // ---------- what the search keeps ----------

  /** stack is the walk from the root to the node at hand; finished lists the nodes left behind, each
      after all its neighbours. */
  ghost predicate Searched(g: Adjacency, visited: seq<bool>, onStack: seq<bool>, stack: seq<nat>, finished: seq<nat>) {
    && |visited| == |onStack| == |g|
    && Walk(g, stack)
    && (forall u: nat :: u < |g| ==> (visited[u] <==> u in stack || u in finished))
    && (forall u: nat :: u < |g| ==> (onStack[u] <==> u in stack))
    && (forall u :: u in finished ==> u < |g| && u !in stack)
    && InOrder(g, finished)
  }

  ghost predicate AllIn(a: seq<nat>, b: seq<nat>) {
    forall k :: 0 <= k < |a| ==> a[k] in b
  }

  ghost function Unvisited(visited: seq<bool>): set<nat> {
    set u: nat | u < |visited| && !visited[u]
  }

  function FirstAt(s: seq<nat>, u: nat): (i: nat)
    ensures i <= |s| && (i < |s| ==> s[i] == u) && (forall k :: 0 <= k < i ==> s[k] != u)
    ensures u in s ==> i < |s|
  {
    if s == [] then 0 else if s[0] == u then 0 else FirstAt(s[1..], u) + 1
  }

  ghost predicate InOrder(g: Adjacency, finished: seq<nat>) {
    forall i :: 0 <= i < |finished| ==> finished[i] < |g| && AllIn(g[finished[i]], finished[..i])
  }

  /** Along a walk the places in the list fall. */
  lemma {:induction false} PlacesFall(g: Adjacency, finished: seq<nat>, p: seq<nat>, m: nat)
    requires InOrder(g, finished) && Walk(g, p) && m < |p| && p[0] in finished
    ensures p[m] in finished && FirstAt(finished, p[m]) + m <= FirstAt(finished, p[0])
  {
    if m > 0 {
      PlacesFall(g, finished, p, m - 1);
      var i := FirstAt(finished, p[m - 1]);
      assert Edge(g, p[m - 1], p[m]);
      var k :| 0 <= k < |g[p[m - 1]]| && g[p[m - 1]][k] == p[m];
      assert p[m] in finished[..i];
    }
  }

  /** Nodes each listed after all its neighbours are on no cycle. */
  lemma {:induction false} FinishedAcyclic(g: Adjacency, finished: seq<nat>)
    requires InOrder(g, finished) && forall u: nat :: u < |g| ==> u in finished
    ensures !HasCycle(g)
  {
    forall p | IsCycle(g, p) ensures false {
      PlacesFall(g, finished, p, |p| - 1);
    }
  }

  lemma {:induction false} WalkTail(g: Adjacency, p: seq<nat>, i: nat)
    requires Walk(g, p) && i < |p|
    ensures Walk(g, p[i..])
  {
    var q := p[i..];
    forall k | 0 <= k < |q| - 1 ensures Edge(g, q[k], q[k + 1]) { assert Edge(g, p[i + k], p[i + k + 1]); }
  }

  /** A node listed after all its neighbours, themselves so listed, leads to no cycle. */
  lemma {:induction false} FinishedLeadsNowhere(g: Adjacency, finished: seq<nat>, u: nat)
    requires InOrder(g, finished) && u in finished
    ensures !LeadsToCycle(g, u)
  {
    if p: seq<nat> :| |p| >= 2 && Walk(g, p) && p[0] == u && p[|p| - 1] in p[..|p| - 1] {
      hide Walk, InOrder, LeadsToCycle;
      var i :| 0 <= i < |p| - 1 && p[i] == p[|p| - 1];
      PlacesFall(g, finished, p, i);
      WalkTail(g, p, i);
      PlacesFall(g, finished, p[i..], |p| - 1 - i);
    }
  }

  lemma {:induction false} VisitShrinks(visited: seq<bool>, v: nat)
    requires v < |visited| && !visited[v]
    ensures Unvisited(visited[v := true]) < Unvisited(visited)
  {
    assert v in Unvisited(visited);
  }

  lemma {:induction false} VisitedGrows(a: seq<bool>, b: seq<bool>)
    requires |a| == |b| && forall u :: 0 <= u < |a| && a[u] ==> b[u]
    ensures Unvisited(b) <= Unvisited(a)
  {}

  /** The neighbour on the stack closes a cycle. */
  lemma {:induction false} StackCloses(g: Adjacency, stack: seq<nat>, w: nat)
    requires Walk(g, stack) && stack != [] && w in stack && Edge(g, stack[|stack| - 1], w)
    ensures LeadsToCycle(g, stack[0])
  {
    var p := stack + [w];
    assert p[..|p| - 1] == stack;
    assert Walk(g, p);
  }

  method IsCyclicUtil(g: Adjacency, v: nat, visited: array<bool>, onStack: array<bool>, ghost stack: seq<nat>, ghost finished: seq<nat>)
    returns (cyclic: bool, ghost later: seq<nat>)
    requires GraphOk(g) && v < |g| && visited != onStack
    requires Searched(g, visited[..], onStack[..], stack, finished) && !visited[v]
    requires stack != [] ==> Edge(g, stack[|stack| - 1], v)
    modifies visited, onStack
    ensures cyclic ==> LeadsToCycle(g, (stack + [v])[0])
    ensures !cyclic ==> Searched(g, visited[..], onStack[..], stack, later)
    ensures !cyclic ==> finished <= later && v in later
    ensures visited.Length == |g| && forall u :: 0 <= u < |g| && old(visited[u]) ==> visited[u]
    decreases Unvisited(visited[..])
  {
    visited[v] := true;
    onStack[v] := true;
    VisitShrinks(old(visited[..]), v);
    assert visited[..] == old(visited[..])[v := true];
    ghost var here := stack + [v];
    Push(g, old(visited[..]), old(onStack[..]), stack, finished, v);
    assert onStack[..] == old(onStack[..])[v := true];
    later := finished;
    for i := 0 to |g[v]|
      invariant visited.Length == |g| && forall u :: 0 <= u < |g| && old(visited[..])[v := true][u] ==> visited[u]
      invariant Searched(g, visited[..], onStack[..], here, later) && finished <= later
      invariant AllIn(g[v][..i], later)
    {
      var w := g[v][i];
      assert Edge(g, v, w) && here[|here| - 1] == v;
      if !visited[w] {
        VisitedGrows(old(visited[..])[v := true], visited[..]);
        ghost var before := later;
        cyclic, later := IsCyclicUtil(g, w, visited, onStack, here, later);
        if cyclic { return; }
        assert AllIn(g[v][..i], later);
      } else if onStack[w] {
        StackCloses(g, here, w);
        return true, later;
      }
      assert w in later;
      assert g[v][..i + 1] == g[v][..i] + [w];
    }
    onStack[v] := false;
    cyclic := false;
    assert g[v][..|g[v]|] == g[v];
    Pop(g, visited[..], onStack[..], stack, later, v);
    later := later + [v];
  }

  lemma {:induction false} Push(g: Adjacency, visited: seq<bool>, onStack: seq<bool>, stack: seq<nat>, finished: seq<nat>, v: nat)
    requires Searched(g, visited, onStack, stack, finished) && v < |g| && !visited[v]
    requires stack != [] ==> Edge(g, stack[|stack| - 1], v)
    ensures Searched(g, visited[v := true], onStack[v := true], stack + [v], finished)
  {
    var here := stack + [v];
    forall i | 0 <= i < |here| - 1 ensures Edge(g, here[i], here[i + 1]) {
      if i + 1 < |stack| { assert Edge(g, stack[i], stack[i + 1]); }
    }
  }

  lemma {:induction false} Pop(g: Adjacency, visited: seq<bool>, onStack: seq<bool>, stack: seq<nat>, finished: seq<nat>, v: nat)
    requires v < |g| == |onStack| && v !in stack && Searched(g, visited, onStack[v := true], stack + [v], finished)
    requires !onStack[v] && AllIn(g[v], finished) && Walk(g, stack)
    ensures Searched(g, visited, onStack, stack, finished + [v])
  {
    var later := finished + [v];
    forall i | 0 <= i < |later| ensures later[i] < |g| && AllIn(g[later[i]], later[..i]) {
      if i < |finished| {
        assert later[..i] == finished[..i];
      } else {
        assert later[..i] == finished;
      }
    }
  }

  /** The search over all roots, which finds the first that leads to a cycle. visited and the stack flags are
      shared by all of them. */
  method SearchRoots(g: Adjacency) returns (root: nat)
    requires GraphOk(g)
    ensures root <= |g|
    ensures root < |g| ==> LeadsToCycle(g, root)
    ensures forall u :: 0 <= u < root ==> !LeadsToCycle(g, u)
    ensures root == |g| <==> !HasCycle(g)
  {
    var visited := new bool[|g|](_ => false);
    var onStack := new bool[|g|](_ => false);
    ghost var finished: seq<nat> := [];
    for node := 0 to |g|
      invariant visited.Length == |g| && Searched(g, visited[..], onStack[..], [], finished)
      invariant forall u :: 0 <= u < node ==> visited[u]
    {
      if !visited[node] {
        ghost var before := finished;
        assert forall u :: 0 <= u < node ==> u in before;
        var cyclic;
        cyclic, finished := IsCyclicUtil(g, node, visited, onStack, [], finished);
        if cyclic {
          LeadingMeansCycle(g, node);
          forall u | 0 <= u < node ensures !LeadsToCycle(g, u) { FinishedLeadsNowhere(g, before, u); }
          return node;
        }
      }
    }
    FinishedAcyclic(g, finished);
    forall u | 0 <= u < |g| ensures !LeadsToCycle(g, u) { FinishedLeadsNowhere(g, finished, u); }
    root := |g|;
  }

  // ---------- the graph over names ----------

  /** Following names along their edges and back. */
  ghost predicate IsNamedCycle(edges: map<string, seq<string>>, p: seq<string>) {
    && |p| >= 2 && p[0] == p[|p| - 1]
    && (forall i :: 0 <= i < |p| ==> p[i] in edges)
    && forall i :: 0 <= i < |p| - 1 ==> p[i + 1] in edges[p[i]]
  }

  ghost predicate HasNamedCycle(edges: map<string, seq<string>>) {
    exists p :: IsNamedCycle(edges, p)
  }

  function Place(names: seq<string>, n: string): (i: nat)
    ensures i <= |names| && (i < |names| ==> names[i] == n) && (n in names ==> i < |names|)
  {
    if names == [] then 0 else if names[0] == n then 0 else Place(names[1..], n) + 1
  }

  ghost predicate Distinct(names: seq<string>) {
    forall i, j :: 0 <= i < j < |names| ==> names[i] != names[j]
  }

  /** g is the named graph with every name replaced by its place. */
  ghost predicate Numbers(names: seq<string>, edges: map<string, seq<string>>, g: Adjacency) {
    && Distinct(names) && |g| == |names| && GraphOk(g)
    && (forall n :: n in names <==> n in edges)
    && forall i :: 0 <= i < |names| ==> names[i] in edges && SameTargets(names, edges[names[i]], g[i])
  }

  ghost predicate SameTargets(names: seq<string>, targets: seq<string>, places: seq<nat>) {
    |targets| == |places| && forall k :: 0 <= k < |places| ==> places[k] < |names| && names[places[k]] == targets[k]
  }

  lemma {:induction false} PlaceOf(names: seq<string>, i: nat)
    requires Distinct(names) && i < |names|
    ensures Place(names, names[i]) == i
  {
    var m := Place(names, names[i]);
    assert names[i] in names;
  }

  /** The named graph has a cycle exactly when its numbering has. */
  lemma {:induction false} SameCycles(names: seq<string>, edges: map<string, seq<string>>, g: Adjacency)
    requires Numbers(names, edges, g)
    ensures HasNamedCycle(edges) <==> HasCycle(g)
  {
    if HasNamedCycle(edges) {
      var p :| IsNamedCycle(edges, p);
      NumberedWalk(names, edges, g, p);
    }
    if HasCycle(g) {
      var p :| IsCycle(g, p);
      NamedWalk(names, edges, g, p);
    }
  }

  lemma {:induction false} NumberedWalk(names: seq<string>, edges: map<string, seq<string>>, g: Adjacency, p: seq<string>)
    requires Numbers(names, edges, g) && IsNamedCycle(edges, p)
    ensures HasCycle(g)
  {
    var q := seq(|p|, i requires 0 <= i < |p| => Place(names, p[i]));
    forall i | 0 <= i < |p| ensures q[i] < |g| && names[q[i]] == p[i] { assert p[i] in names; }
    forall i | 0 <= i < |p| - 1 ensures Edge(g, q[i], q[i + 1]) {
      assert p[i + 1] in edges[p[i]];
      assert SameTargets(names, edges[names[q[i]]], g[q[i]]);
      var k :| 0 <= k < |edges[p[i]]| && edges[p[i]][k] == p[i + 1];
      PlaceOf(names, g[q[i]][k]);
      assert g[q[i]][k] == q[i + 1];
    }
    assert IsCycle(g, q);
  }

  lemma {:induction false} NamedWalk(names: seq<string>, edges: map<string, seq<string>>, g: Adjacency, p: seq<nat>)
    requires Numbers(names, edges, g) && IsCycle(g, p)
    ensures HasNamedCycle(edges)
  {
    var q := seq(|p|, i requires 0 <= i < |p| => names[p[i]]);
    forall i | 0 <= i < |p| - 1 ensures q[i + 1] in edges[q[i]] {
      assert Edge(g, p[i], p[i + 1]);
      assert SameTargets(names, edges[names[p[i]]], g[p[i]]);
      var k :| 0 <= k < |g[p[i]]| && g[p[i]][k] == p[i + 1];
      assert edges[q[i]][k] == q[i + 1];
    }
    assert IsNamedCycle(edges, q);
  }

  datatype Answer = Unfinished | NoCycle | CycleFrom(name: string)

  class Graph {
    var names: seq<string>                 // in the order the names were first added
    var edges: map<string, seq<string>>
    var numbered: Adjacency
    var done: bool

    ghost predicate Valid()
      reads this
    {
      && Distinct(names) && (forall n :: n in names <==> n in edges)
      && (done ==> Numbers(names, edges, numbered))
    }

    constructor ()
      ensures Valid() && !done && edges == map[]
    {
      names, edges, numbered, done := [], map[], [], false;
    }

    /** False stands for the exception once adding has finished. Adding a name again replaces its edges. */
    method AddEdges(u: string, targets: seq<string>) returns (ok: bool)
      requires Valid()
      modifies this`names, this`edges
      ensures Valid() && (ok <==> !done)
      ensures edges == if ok then old(edges)[u := targets] else old(edges)
    {
      if done { return false; }
      if u !in names { names := names + [u]; }
      edges := edges[u := targets];
      ok := true;
    }

    /** Numbers the nodes. False stands for the exception on an edge to a name that was never added. */
    method DoneAdding() returns (ok: bool)
      requires Valid() && !done
      modifies this`numbered, this`done
      ensures Valid() && done == ok
      ensures ok <==> forall n, m :: n in edges && m in edges[n] ==> m in edges
    {
      var g: Adjacency := [];
      for i := 0 to |names|
        invariant |g| == i && !done
        invariant forall a :: 0 <= a < i ==> SameTargets(names, edges[names[a]], g[a])
        invariant forall a, m :: 0 <= a < i && m in edges[names[a]] ==> m in names
      {
        assert names[i] in names;
        var places, found := Translate(edges[names[i]]);
        if !found { return false; }
        g := g + [places];
      }
      assert forall u, k :: 0 <= u < |g| && 0 <= k < |g[u]| ==> g[u][k] < |g| by {
        forall u, k | 0 <= u < |g| && 0 <= k < |g[u]| ensures g[u][k] < |g| {
          assert SameTargets(names, edges[names[u]], g[u]);
        }
      }
      numbered, done, ok := g, true, true;
    }

    method Translate(targets: seq<string>) returns (places: seq<nat>, ok: bool)
      requires Valid()
      ensures ok ==> SameTargets(names, targets, places)
      ensures ok <==> forall m :: m in targets ==> m in names
    {
      places := [];
      for k := 0 to |targets|
        invariant SameTargets(names, targets[..k], places)
        invariant forall m :: m in targets[..k] ==> m in names
      {
        if targets[k] !in names { return places, false; }
        places := places + [Place(names, targets[k])];
        assert targets[..k + 1] == targets[..k] + [targets[k]];
      }
      assert targets[..|targets|] == targets;
      ok := true;
    }

    /** Names a node that leads to a cycle exactly when the named graph has one, the first in the order in which
        names were added. */
    method FirstCycle() returns (answer: Answer)
      requires Valid()
      ensures answer.Unfinished? <==> !done
      ensures done ==> (answer.CycleFrom? <==> HasNamedCycle(edges))
      ensures answer.CycleFrom? ==> answer.name in edges && LeadsToCycle(numbered, Place(names, answer.name))
      ensures answer.CycleFrom? ==> forall i :: 0 <= i < Place(names, answer.name) ==> !LeadsToCycle(numbered, i)
    {
      if !done { return Unfinished; }
      SameCycles(names, edges, numbered);
      var root := SearchRoots(numbered);
      if root == |numbered| { return NoCycle; }
      LeadingMeansCycle(numbered, root);
      PlaceOf(names, root);
      assert names[root] in names;
      return CycleFrom(names[root]);
    }
  }
}
