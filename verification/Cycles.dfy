/** Supersession cycles: `cycle_reachable` peels a graph from its leaves, and what is
    left is exactly the set of nodes from which a cycle can be reached. */
module Cycles {
  import opened Ordering

  type Graph = map<string, seq<string>>

  ghost predicate Walk(g: Graph, w: seq<string>)
  {
    && |w| > 0
    && (forall k :: 0 <= k < |w| ==> w[k] in g)
    && (forall k :: 0 < k < |w| ==> w[k] in g[w[k - 1]])
  }

  ghost predicate Repeats(w: seq<string>)
  {
    exists i, j :: 0 <= i < j < |w| && w[i] == w[j]
  }

  /** Some walk that stays on the keys of `g` starts at `n` and comes back to a node. */
  ghost predicate ReachesCycle(g: Graph, n: string)
  {
    exists w :: Walk(g, w) && w[0] == n && Repeats(w)
  }

  /** How many positions of `s` name a node of `live`. */
  ghost function Out(s: seq<string>, live: set<string>): nat
  {
    if s == [] then 0
    else Out(s[..|s| - 1], live) + if s[|s| - 1] in live then 1 else 0
  }

  lemma {:induction false} OutWithout(s: seq<string>, live: set<string>, x: string)
    requires x in live
    ensures Out(s, live) == Out(s, live - {x}) + multiset(s)[x]
  {
    if s != [] {
      OutWithout(s[..|s| - 1], live, x);
      assert s == s[..|s| - 1] + [s[|s| - 1]];
    }
  }

  lemma {:induction false} OutZero(s: seq<string>, live: set<string>)
    ensures Out(s, live) == 0 <==> forall x :: x in s ==> x !in live
  {
    if s != [] {
      OutZero(s[..|s| - 1], live);
      assert s == s[..|s| - 1] + [s[|s| - 1]];
    }
  }

  ghost function Parents(predecessors: map<string, seq<string>>, t: string): seq<string>
  {
    if t in predecessors then predecessors[t] else []
  }

  /** The reverse adjacency lists record each edge with its multiplicity. */
  ghost predicate Reversed(g: Graph, predecessors: map<string, seq<string>>)
  {
    && (forall t, n :: n in Parents(predecessors, t) ==> n in g)
    && (forall t, n :: t in g && n in g ==> multiset(Parents(predecessors, t))[n] == multiset(g[n])[t])
  }

  ghost predicate Closed(g: Graph, predecessors: map<string, seq<string>>)
  {
    forall t, n :: n in Parents(predecessors, t) ==> n in g
  }

  ghost function Edges(predecessors: map<string, seq<string>>, n: string, t: string): nat
  {
    multiset(Parents(predecessors, t))[n]
  }

  /** Appends `node` to the parents of `target`. */
  method AddParent(g: Graph, predecessors: map<string, seq<string>>, node: string, target: string)
    returns (predecessors': map<string, seq<string>>)
    requires node in g && Closed(g, predecessors)
    ensures Closed(g, predecessors')
    ensures forall t, n ::
      Edges(predecessors', n, t) == Edges(predecessors, n, t) + (if n == node && t == target then 1 else 0)
  {
    var known := if target in predecessors then predecessors[target] else [];
    predecessors' := predecessors[target := known + [node]];
    forall t ensures Parents(predecessors', t) ==
        (if t == target then Parents(predecessors, t) + [node] else Parents(predecessors, t))
    {
    }
  }

  /** `node` has been entered under its first targets, and nothing else has changed. */
  ghost predicate Entered(g: Graph, node: string, targets: seq<string>, before: map<string, seq<string>>,
                          after: map<string, seq<string>>)
  {
    forall t, n :: t in g ==>
      Edges(after, n, t) == Edges(before, n, t) + if n == node then multiset(targets)[t] else 0
  }

  lemma OutNext(next: seq<string>, j: nat, live: set<string>)
    requires j < |next|
    ensures Out(next[..j + 1], live) == Out(next[..j], live) + if next[j] in live then 1 else 0
  {
    assert next[..j + 1][..j] == next[..j];
  }

  /** One edge: targets outside the graph count for nothing. */
  method CountEdge(g: Graph, node: string, ghost next: seq<string>, ghost j: nat,
                   ghost before: map<string, seq<string>>,
                   count: nat, predecessors: map<string, seq<string>>, target: string)
    returns (count': nat, predecessors': map<string, seq<string>>)
    requires node in g && Closed(g, predecessors) && j < |next| && target == next[j]
    requires Entered(g, node, next[..j], before, predecessors)
    ensures count' == count + if target in g then 1 else 0
    ensures Closed(g, predecessors') && Entered(g, node, next[..j + 1], before, predecessors')
  {
    assert next[..j + 1] == next[..j] + [target];
    count', predecessors' := count, predecessors;
    if target in g {
      count' := count + 1;
      predecessors' := AddParent(g, predecessors, node, target);
    }
  }

  /** One node of phase one: its outgoing counter, and itself as parent of each target. */
  method CountNode(g: Graph, node: string, before: map<string, seq<string>>)
    returns (count: nat, predecessors: map<string, seq<string>>)
    requires node in g && Closed(g, before)
    ensures count == Out(g[node], g.Keys)
    ensures Closed(g, predecessors) && Entered(g, node, g[node], before, predecessors)
  {
    var next := g[node];
    count, predecessors := 0, before;
    for j := 0 to |next|
      invariant count == Out(next[..j], g.Keys)
      invariant Closed(g, predecessors) && Entered(g, node, next[..j], before, predecessors)
    {
      OutNext(next, j, g.Keys);
      count, predecessors := CountEdge(g, node, next, j, before, count, predecessors, next[j]);
    }
    assert next[..|next|] == next;
  }

  /** Phase one has handled exactly the nodes of `remaining`. */
  ghost predicate Counted(g: Graph, remaining: map<string, nat>, predecessors: map<string, seq<string>>)
  {
    && remaining.Keys <= g.Keys
    && Closed(g, predecessors)
    && (forall n :: n in remaining ==> remaining[n] == Out(g[n], g.Keys))
    && (forall t, n :: t in g && n in g ==>
        Edges(predecessors, n, t) == if n in remaining then multiset(g[n])[t] else 0)
  }

  method CountOne(g: Graph, node: string, remaining: map<string, nat>, predecessors: map<string, seq<string>>)
    returns (remaining': map<string, nat>, predecessors': map<string, seq<string>>)
    requires node in g && node !in remaining && Counted(g, remaining, predecessors)
    ensures Counted(g, remaining', predecessors') && remaining'.Keys == remaining.Keys + {node}
  {
    var count;
    count, predecessors' := CountNode(g, node, predecessors);
    remaining' := remaining[node := count];
    forall t, n | t in g && n in g
      ensures Edges(predecessors', n, t) == if n in remaining' then multiset(g[n])[t] else 0
    {
    }
  }

  /** Phase one: outgoing counters and reverse adjacency, one pass over the graph. */
  method CountEdges(g: Graph) returns (remaining: map<string, nat>, predecessors: map<string, seq<string>>)
    ensures remaining.Keys == g.Keys
    ensures forall n :: n in g ==> remaining[n] == Out(g[n], g.Keys)
    ensures Reversed(g, predecessors)
  {
    remaining, predecessors := map[], map[];
    var nodes := SortedElements(g.Keys);
    for i := 0 to |nodes|
      invariant Counted(g, remaining, predecessors)
      invariant remaining.Keys == Elements(nodes[..i])
    {
      NextElement(nodes, i);
      remaining, predecessors := CountOne(g, nodes[i], remaining, predecessors);
    }
    assert nodes[..|nodes|] == nodes;
    AllCounted(g, remaining, predecessors);
  }

  lemma AllCounted(g: Graph, remaining: map<string, nat>, predecessors: map<string, seq<string>>)
    requires Counted(g, remaining, predecessors) && remaining.Keys == g.Keys
    ensures Reversed(g, predecessors)
  {
    forall t, n | t in g && n in g
      ensures multiset(Parents(predecessors, t))[n] == multiset(g[n])[t]
    {
      assert Edges(predecessors, n, t) == multiset(g[n])[t];
    }
  }

  /** What the peeling loop keeps: counters count the edges into unpopped nodes, and
      the zero counters are exactly the popped nodes and the pending leaves. */
  ghost predicate Peeling(g: Graph, remaining: map<string, nat>, leaves: seq<string>, gone: set<string>,
                          owed: multiset<string>)
  {
    && remaining.Keys == g.Keys
    && gone <= g.Keys
    && (forall n :: n in g ==> remaining[n] == Out(g[n], g.Keys - gone) + owed[n])
    && (forall n :: n in g ==> (remaining[n] == 0 <==> n in gone || n in leaves))
    && (forall i :: 0 <= i < |leaves| ==> leaves[i] in g && leaves[i] !in gone)
    && (forall i, j :: 0 <= i < j < |leaves| ==> leaves[i] != leaves[j])
  }

  /** The popped nodes cannot reach a cycle: each of their edges leads to an earlier one. */
  ghost predicate Layered(g: Graph, order: seq<string>)
  {
    forall i, t :: 0 <= i < |order| && order[i] in g && t in g[order[i]] && t in g ==> t in order[..i]
  }

  /** Popping a leaf leaves each parent owing one decrement per edge to it. */
  lemma PoppedOwes(g: Graph, remaining: map<string, nat>, predecessors: map<string, seq<string>>,
                   leaves: seq<string>, gone: set<string>)
    requires leaves != [] && Reversed(g, predecessors)
    requires Peeling(g, remaining, leaves, gone, multiset{})
    ensures var node := leaves[|leaves| - 1];
      Peeling(g, remaining, leaves[..|leaves| - 1], gone + {node}, multiset(Parents(predecessors, node)))
  {
    var node := leaves[|leaves| - 1];
    var rest := leaves[..|leaves| - 1];
    assert leaves == rest + [node];
    forall n | n in g
      ensures remaining[n] == Out(g[n], g.Keys - (gone + {node})) + multiset(Parents(predecessors, node))[n]
    {
      OutWithout(g[n], g.Keys - gone, node);
      assert g.Keys - gone - {node} == g.Keys - (gone + {node});
    }
  }

  /** Pops the last leaf and releases its parents, once per edge. */
  method Pop(g: Graph, remaining: map<string, nat>, predecessors: map<string, seq<string>>,
             leaves: seq<string>, ghost gone: set<string>)
    returns (remaining': map<string, nat>, leaves': seq<string>)
    requires leaves != [] && Reversed(g, predecessors)
    requires Peeling(g, remaining, leaves, gone, multiset{})
    ensures Peeling(g, remaining', leaves', gone + {leaves[|leaves| - 1]}, multiset{})
  {
    var node := leaves[|leaves| - 1];
    ghost var gone' := gone + {node};
    leaves' := leaves[..|leaves| - 1];
    remaining' := remaining;
    PoppedOwes(g, remaining, predecessors, leaves, gone);
    var parents := if node in predecessors then predecessors[node] else [];
    assert parents == Parents(predecessors, node) && parents[0..] == parents;
    for i := 0 to |parents|
      invariant Peeling(g, remaining', leaves', gone', multiset(parents[i..]))
    {
      remaining', leaves' := Release(g, remaining', leaves', gone', parents[i..]);
      assert parents[i..][1..] == parents[i + 1..];
    }
    assert parents[|parents|..] == [];
  }

  method InitialLeaves(g: Graph, remaining: map<string, nat>) returns (leaves: seq<string>)
    requires remaining.Keys == g.Keys
    requires forall n :: n in g ==> remaining[n] == Out(g[n], g.Keys)
    ensures Peeling(g, remaining, leaves, {}, multiset{})
  {
    leaves := [];
    var nodes := SortedElements(g.Keys);
    for i := 0 to |nodes|
      invariant forall n :: n in leaves <==> n in nodes[..i] && remaining[n] == 0
      invariant forall i, j :: 0 <= i < j < |leaves| ==> leaves[i] != leaves[j]
    {
      SortedSuffix(nodes, i, i);
      if remaining[nodes[i]] == 0 {
        leaves := leaves + [nodes[i]];
      }
    }
    assert nodes[..|nodes|] == nodes && g.Keys - {} == g.Keys;
    assert forall i :: 0 <= i < |leaves| ==> leaves[i] in leaves;
  }

  method CycleReachable(g: Graph) returns (r: set<string>)
    ensures r == set n | n in g && ReachesCycle(g, n)
  {
    var remaining, predecessors := CountEdges(g);
    var leaves := InitialLeaves(g, remaining);
    ghost var order: seq<string> := [];
    ghost var gone: set<string> := {};
    while leaves != []
      invariant Peeling(g, remaining, leaves, gone, multiset{})
      invariant Layered(g, order) && forall n :: n in order <==> n in gone
      decreases g.Keys - gone
    {
      assert leaves[|leaves| - 1] in leaves;
      OutZero(g[leaves[|leaves| - 1]], g.Keys - gone);
      LayeredExtends(g, order, leaves[|leaves| - 1]);
      order := order + [leaves[|leaves| - 1]];
      ghost var popped := leaves[|leaves| - 1];
      remaining, leaves := Pop(g, remaining, predecessors, leaves, gone);
      gone := gone + {popped};
    }
    r := set n | n in remaining && remaining[n] > 0;
    Classified(g, remaining, gone, order, r);
  }

  lemma LayeredExtends(g: Graph, order: seq<string>, n: string)
    requires Layered(g, order)
    requires n in g ==> forall t :: t in g[n] && t in g ==> t in order
    ensures Layered(g, order + [n])
  {
    var longer := order + [n];
    forall i, t | 0 <= i < |longer| && longer[i] in g && t in g[longer[i]] && t in g
      ensures t in longer[..i]
    {
      assert longer[..i] == order[..i];
    }
  }

  lemma PositiveIsOnward(g: Graph, remaining: map<string, nat>, gone: set<string>, r: set<string>, m: string)
    requires Peeling(g, remaining, [], gone, multiset{})
    requires r == (set n | n in remaining && remaining[n] > 0) && m in r
    ensures Onward(g, r, m)
  {
    OutZero(g[m], g.Keys - gone);
    assert r == g.Keys - gone;
  }

  /** When no leaf is left, the positive counters are the nodes that reach a cycle. */
  lemma Classified(g: Graph, remaining: map<string, nat>, gone: set<string>, order: seq<string>, r: set<string>)
    requires Peeling(g, remaining, [], gone, multiset{}) && Layered(g, order)
    requires forall n :: n in order <==> n in gone
    requires r == set n | n in remaining && remaining[n] > 0
    ensures r == set n | n in g && ReachesCycle(g, n)
  {
    forall m | m in r ensures Onward(g, r, m) {
      PositiveIsOnward(g, remaining, gone, r, m);
    }
    forall n | n in g ensures n in r <==> ReachesCycle(g, n) {
      if n in r {
        NoLeafMeansCycle(g, r, n);
      } else {
        PeeledReachesNoCycle(g, order, n);
      }
    }
  }

  /** One parent of a popped node: its counter drops, and at zero it becomes a leaf. */
  method Release(g: Graph, remaining: map<string, nat>, leaves: seq<string>, ghost gone: set<string>,
                 parents: seq<string>)
    returns (remaining': map<string, nat>, leaves': seq<string>)
    requires parents != [] && parents[0] in g
    requires Peeling(g, remaining, leaves, gone, multiset(parents))
    ensures Peeling(g, remaining', leaves', gone, multiset(parents[1..]))
  {
    var parent := parents[0];
    assert parents == [parent] + parents[1..];
    assert multiset(parents) == multiset{parent} + multiset(parents[1..]);
    assert remaining[parent] > 0;
    var count := remaining[parent] - 1;
    remaining' := remaining[parent := count];
    leaves' := leaves;
    if count == 0 {
      leaves' := leaves + [parent];
    }
  }

  ghost predicate Onward(g: Graph, r: set<string>, m: string)
    requires m in g
  {
    exists t :: t in g[m] && t in r
  }

  /** A walk of any length exists inside a set whose every node has a successor in it. */
  lemma {:induction false} LongWalk(g: Graph, r: set<string>, n: string, k: nat) returns (w: seq<string>)
    requires r <= g.Keys && n in r
    requires forall m {:trigger Onward(g, r, m)} :: m in r ==> Onward(g, r, m)
    ensures Walk(g, w) && w[0] == n && |w| == k + 1 && forall i :: 0 <= i < |w| ==> w[i] in r
  {
    if k == 0 {
      w := [n];
    } else {
      var v := LongWalk(g, r, n, k - 1);
      assert Onward(g, r, v[k - 1]);
      var t :| t in g[v[k - 1]] && t in r;
      w := v + [t];
    }
  }

  /** A sequence without repetition is no longer than the set it draws from. */
  lemma {:induction false} PigeonHole(w: seq<string>, r: set<string>)
    requires forall i :: 0 <= i < |w| ==> w[i] in r
    requires !Repeats(w)
    ensures |w| <= |r|
  {
    if w != [] {
      var last := w[|w| - 1];
      forall i | 0 <= i < |w| - 1 ensures w[i] in r - {last} {
        assert w[i] != w[|w| - 1];
      }
      assert !Repeats(w[..|w| - 1]) by {
        var v := w[..|w| - 1];
        forall i, j | 0 <= i < j < |v| ensures v[i] != v[j] {
          assert v[i] == w[i] && v[j] == w[j];
        }
      }
      PigeonHole(w[..|w| - 1], r - {last});
    }
  }

  lemma NoLeafMeansCycle(g: Graph, r: set<string>, n: string)
    requires r <= g.Keys && n in r
    requires forall m {:trigger Onward(g, r, m)} :: m in r ==> Onward(g, r, m)
    ensures ReachesCycle(g, n)
  {
    var w := LongWalk(g, r, n, |r|);
    if !Repeats(w) {
      PigeonHole(w, r);
    }
  }

  lemma WalkSuffix(g: Graph, w: seq<string>, a: nat)
    requires Walk(g, w) && a < |w|
    ensures Walk(g, w[a..])
  {
    var rest := w[a..];
    forall m | 0 < m < |rest| ensures rest[m] in g[rest[m - 1]] {
      assert w[a + m] in g[w[a + m - 1]];
    }
  }

  /** From a peeled node every later node of a walk was peeled strictly earlier. */
  lemma {:induction false} PeeledEarlier(g: Graph, order: seq<string>, i: nat, w: seq<string>, k: nat)
    requires Layered(g, order) && Walk(g, w) && 0 < k < |w|
    requires i < |order| && order[i] == w[0]
    ensures w[k] in order[..i]
  {
    assert w[1] in g[w[1 - 1]];
    if k > 1 {
      var j :| 0 <= j < i && order[j] == w[1];
      WalkSuffix(g, w, 1);
      PeeledEarlier(g, order, j, w[1..], k - 1);
      assert order[..j] <= order[..i];
    }
  }

  lemma {:induction false} PeeledNeverReturns(g: Graph, order: seq<string>, i: nat, w: seq<string>, k: nat)
    requires Layered(g, order) && Walk(g, w) && 0 < k < |w| && w[k] == w[0]
    requires i < |order| && order[i] == w[0]
    ensures false
  {
    PeeledEarlier(g, order, i, w, k);
    var j :| 0 <= j < i && order[j] == w[k];
    PeeledNeverReturns(g, order, j, w, k);
  }

  /** A walk from a peeled node never comes back to a node. */
  lemma PeeledWalk(g: Graph, order: seq<string>, w: seq<string>, a: nat, b: nat)
    requires Layered(g, order) && Walk(g, w) && w[0] in order && a < b < |w|
    ensures w[a] != w[b]
  {
    var i :| 0 <= i < |order| && order[i] == w[0];
    if a > 0 {
      PeeledEarlier(g, order, i, w, a);
    }
    assert w[a] in order;
    var j :| 0 <= j < |order| && order[j] == w[a];
    if w[a] == w[b] {
      WalkSuffix(g, w, a);
      PeeledNeverReturns(g, order, j, w[a..], b - a);
    }
  }

  lemma PeeledReachesNoCycle(g: Graph, order: seq<string>, n: string)
    requires Layered(g, order) && n in order
    ensures !ReachesCycle(g, n)
  {
    forall w | Walk(g, w) && w[0] == n ensures !Repeats(w) {
      forall a, b | 0 <= a < b < |w| ensures w[a] != w[b] {
        PeeledWalk(g, order, w, a, b);
      }
    }
  }
}
