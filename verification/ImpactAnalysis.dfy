/** Which modules a change can affect (core/impact_analysis.py). */
module ImpactAnalysis {
  import opened Ordering

  // ----- Graphs ---------------------------------------------------------------------------------

  type Graph = map<string, seq<string>>

  /** Module a depends on module b. */
  predicate Edge(g: Graph, a: string, b: string) {
    a in g && b in g[a]
  }

  ghost predicate IsNode(g: Graph, n: string) {
    n in g || exists m :: Edge(g, m, n)
  }

  /** r has all nodes of g as keys, and lists at each exactly the modules depending on it. */
  ghost predicate IsReverse(g: Graph, r: Graph) {
    && (forall n :: n in r <==> IsNode(g, n))
    && (forall n | n in r :: Ascending(r[n]))
    && (forall n, m :: Edge(r, n, m) <==> Edge(g, m, n))
  }

  /** The same, for the accumulator of sets. */
  ghost predicate Collects(acc: map<string, set<string>>, g: Graph) {
    && (forall n :: n in acc <==> IsNode(g, n))
    && (forall n, m :: (n in acc && m in acc[n]) <==> Edge(g, m, n))
  }

  /** A module's edges so far, among those of the modules already done. */
  function Partial(g: Graph, done: set<string>, module_: string, deps: seq<string>): Graph {
    (map m | m in g && m in done :: g[m])[module_ := deps]
  }

  lemma CollectOne(acc: map<string, set<string>>, g: Graph, done: set<string>, module_: string, deps: seq<string>,
                   dep: string)
    requires Collects(acc, Partial(g, done, module_, deps))
    ensures Collects(acc[dep := (if dep in acc then acc[dep] else {}) + {module_}],
                     Partial(g, done, module_, deps + [dep]))
  {
    var h, h' := Partial(g, done, module_, deps), Partial(g, done, module_, deps + [dep]);
    var acc' := acc[dep := (if dep in acc then acc[dep] else {}) + {module_}];
    forall a, b ensures Edge(h', a, b) <==> (Edge(h, a, b) || (a == module_ && b == dep)) {}
    forall n ensures n in acc' <==> IsNode(h', n) {
      if n == dep {
        assert Edge(h', module_, dep);
      } else {
        assert n in h <==> n in h';
      }
    }
  }

  lemma CollectModule(acc: map<string, set<string>>, g: Graph, done: set<string>, module_: string)
    requires module_ !in done
    requires Collects(acc, map m | m in g && m in done :: g[m])
    ensures Collects(acc[module_ := if module_ in acc then acc[module_] else {}], Partial(g, done, module_, []))
  {
    var h: Graph := map m | m in g && m in done :: g[m];
    var h' := Partial(g, done, module_, []);
    var acc' := acc[module_ := if module_ in acc then acc[module_] else {}];
    forall a, b ensures Edge(h', a, b) <==> Edge(h, a, b) {}
    forall n ensures n in acc' <==> IsNode(h', n) {
      if n != module_ {
        assert n in h <==> n in h';
      }
    }
  }

  method ReverseDependencyGraph(graph: Graph) returns (r: Graph)
    ensures IsReverse(graph, r)
  {
    var acc: map<string, set<string>> := map[];
    var todo := graph.Keys;
    while todo != {}
      invariant todo <= graph.Keys
      invariant Collects(acc, map m | m in graph && m in graph.Keys - todo :: graph[m])
      decreases todo
    {
      var module_ :| module_ in todo;
      ghost var done := graph.Keys - todo;
      CollectModule(acc, graph, done, module_);
      acc := acc[module_ := if module_ in acc then acc[module_] else {}];
      acc := CollectDeps(acc, graph, done, module_, graph[module_]);
      todo := todo - {module_};
      assert Partial(graph, done, module_, graph[module_]) == map m | m in graph && m in graph.Keys - todo :: graph[m];
    }
    assert (map m | m in graph && m in graph.Keys - todo :: graph[m]) == graph;
    r := SortAll(acc);
    assert forall n, m :: Edge(r, n, m) <==> (n in acc && m in acc[n]);
  }

  /** The inner loop: one module's dependencies. */
  method CollectDeps(acc: map<string, set<string>>, ghost g: Graph, ghost done: set<string>, module_: string,
                     deps: seq<string>)
    returns (acc': map<string, set<string>>)
    requires Collects(acc, Partial(g, done, module_, []))
    ensures Collects(acc', Partial(g, done, module_, deps))
  {
    acc' := acc;
    for i := 0 to |deps|
      invariant Collects(acc', Partial(g, done, module_, deps[..i]))
    {
      CollectOne(acc', g, done, module_, deps[..i], deps[i]);
      assert deps[..i] + [deps[i]] == deps[..i + 1];
      acc' := acc'[deps[i] := (if deps[i] in acc' then acc'[deps[i]] else {}) + {module_}];
    }
    assert deps[..|deps|] == deps;
  }

  method SortAll(acc: map<string, set<string>>) returns (r: Graph)
    ensures r.Keys == acc.Keys
    ensures forall n | n in r :: Ascending(r[n]) && forall m :: m in r[n] <==> m in acc[n]
  {
    r := map[];
    var todo := acc.Keys;
    while todo != {}
      invariant todo <= acc.Keys && r.Keys == acc.Keys - todo
      invariant forall n | n in r :: Ascending(r[n]) && forall m :: m in r[n] <==> m in acc[n]
      decreases todo
    {
      var n :| n in todo;
      var sorted := Sorted(acc[n]);
      r := r[n := sorted];
      todo := todo - {n};
    }
  }

  /** The contract leaves one answer only. */
  lemma ReverseUnique(g: Graph, r: Graph, s: Graph)
    requires IsReverse(g, r) && IsReverse(g, s)
    ensures r == s
  {
    forall n | n in r ensures r[n] == s[n] {
      forall x ensures x in r[n] <==> x in s[n] {
        assert x in r[n] <==> Edge(r, n, x);
        assert x in s[n] <==> Edge(s, n, x);
      }
      AscendingUnique(r[n], s[n]);
    }
  }

  /** Reversing twice gives back every edge and no other, with every node as a key. */
  lemma ReverseTwice(g: Graph, r: Graph, s: Graph)
    requires IsReverse(g, r) && IsReverse(r, s)
    ensures forall a, b :: Edge(s, a, b) <==> Edge(g, a, b)
    ensures forall n :: n in s <==> IsNode(g, n)
  {
    forall n ensures n in s <==> IsNode(g, n) {
      if IsNode(r, n) && n !in r {
        var m :| Edge(r, m, n);
        assert Edge(g, n, m);
      }
    }
  }

  // ----- Impact ---------------------------------------------------------------------------------

  ghost predicate IsPath(g: Graph, p: seq<string>) {
    forall i | 0 <= i < |p| - 1 :: Edge(g, p[i], p[i + 1])
  }

  /** b can be reached from a along one or more dependency edges. */
  ghost predicate Reaches(g: Graph, a: string, b: string) {
    exists p: seq<string> :: |p| >= 2 && p[0] == a && p[|p| - 1] == b && IsPath(g, p)
  }

  lemma ReachesStep(g: Graph, a: string, b: string, c: string)
    requires Edge(g, a, b) && (b == c || Reaches(g, b, c))
    ensures Reaches(g, a, c)
  {
    if b == c {
      var p := [a, b];
      assert IsPath(g, p);
    } else {
      var q :| |q| >= 2 && q[0] == b && q[|q| - 1] == c && IsPath(g, q);
      var p := [a] + q;
      assert IsPath(g, p) && p[|p| - 1] == c;
    }
  }

  /** A set that has, with any member or the target, everything that depends on it directly,
      has everything that reaches the target. */
  lemma {:induction false} ClosedHasAll(g: Graph, seen: set<string>, target: string, p: seq<string>)
    requires |p| >= 2 && p[|p| - 1] == target && IsPath(g, p)
    requires forall a, b :: Edge(g, a, b) && (b in seen || b == target) ==> a in seen
    ensures p[0] in seen
  {
    assert Edge(g, p[0], p[1]);
    if |p| > 2 {
      var q := p[1..];
      forall i | 0 <= i < |q| - 1 ensures Edge(g, q[i], q[i + 1]) {
        var j := i + 1;
        assert Edge(g, p[j], p[j + 1]);
      }
      ClosedHasAll(g, seen, target, q);
    }
  }

  lemma ReachersSeen(g: Graph, seen: set<string>, target: string)
    requires forall a, b :: Edge(g, a, b) && (b in seen || b == target) ==> a in seen
    ensures forall m :: Reaches(g, m, target) ==> m in seen
  {
    forall m | Reaches(g, m, target) ensures m in seen {
      var p :| |p| >= 2 && p[0] == m && p[|p| - 1] == target && IsPath(g, p);
      ClosedHasAll(g, seen, target, p);
    }
  }

  lemma Dependants(g: Graph, r: Graph, n: string)
    requires IsReverse(g, r)
    ensures forall a :: Edge(g, a, n) <==> n in r && a in r[n]
    ensures forall a :: Edge(g, a, n) ==> a in g
  {
    forall a ensures Edge(g, a, n) <==> Edge(r, n, a) {}
  }

  /** Everything that depends on a visited module is seen: visiting one more keeps this. */
  ghost predicate IsClosed(g: Graph, target: string, seen: set<string>, stack: seq<string>) {
    forall a, b :: Edge(g, a, b) && (b in seen || b == target) && b !in stack ==> a in seen
  }

  lemma ClosedAtStart(g: Graph, target: string)
    ensures IsClosed(g, target, {}, [target])
  {
  }

  /** With an empty stack everything that reaches the target is seen. */
  lemma ClosedAtEnd(g: Graph, target: string, seen: set<string>)
    requires IsClosed(g, target, seen, [])
    ensures forall m :: Reaches(g, m, target) ==> m in seen
  {
    ReachersSeen(g, seen, target);
  }

  lemma StillClosed(g: Graph, target: string, current: string, seenBefore: set<string>, before: seq<string>,
                    seen: set<string>, stack: seq<string>, nexts: seq<string>)
    requires IsClosed(g, target, seenBefore, before) && seenBefore <= seen
    requires forall x | x in before && x != current :: x in stack
    requires forall x | x in seen :: x in seenBefore || x in stack
    requires forall a :: Edge(g, a, current) ==> a in nexts
    requires forall a | a in nexts :: a in seen
    ensures IsClosed(g, target, seen, stack)
  {
    hide Edge;
    forall a, b | Edge(g, a, b) && (b in seen || b == target) && b !in stack ensures a in seen {
      if b != current {
        assert b !in before;
      }
    }
  }

  /** Exactly the modules that reach the changed one, in order; the changed module itself
      just if it is on a cycle. */
  method ImpactedModules(graph: Graph, changedModule: string) returns (result: seq<string>)
    ensures Ascending(result)
    ensures forall m :: m in result <==> Reaches(graph, m, changedModule)
  {
    var reversed := ReverseDependencyGraph(graph);
    hide Reaches, IsReverse, IsClosed, Edge;
    assert IsClosed(graph, changedModule, {}, [changedModule]) by { ClosedAtStart(graph, changedModule); }
    var seen: set<string> := {};
    var stack := [changedModule];
    ghost var nodes := graph.Keys;
    while stack != []
      invariant seen <= nodes
      invariant forall x | x in stack :: x in seen || x == changedModule
      invariant forall x | x in seen :: Reaches(graph, x, changedModule)
      invariant IsClosed(graph, changedModule, seen, stack)
      decreases nodes - seen, |stack|
    {
      var current := stack[|stack| - 1];
      ghost var before, seenBefore := stack, seen;
      stack := stack[..|stack| - 1];
      assert before == stack + [current];
      var nexts := if current in reversed then reversed[current] else [];
      Dependants(graph, reversed, current);
      ghost var rest := stack;
      for i := 0 to |nexts|
        invariant seenBefore <= seen <= nodes
        invariant seen == seenBefore ==> stack == rest
        invariant forall x | x in rest :: x in stack
        invariant forall x | x in stack :: x in seen || x == changedModule
        invariant forall x | x in seen :: x in seenBefore || x in stack
        invariant forall x | x in seen :: Reaches(graph, x, changedModule)
        invariant forall j | 0 <= j < i :: nexts[j] in seen
      {
        var nxt := nexts[i];
        if nxt !in seen {
          ReachesStep(graph, nxt, current, changedModule);
          seen := seen + {nxt};
          stack := stack + [nxt];
        }
      }
      StillClosed(graph, changedModule, current, seenBefore, before, seen, stack, nexts);
    }
    ClosedAtEnd(graph, changedModule, seen);
    result := Sorted(seen);
  }
}
