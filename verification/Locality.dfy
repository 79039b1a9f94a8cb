/** The projected check against the check of the whole store: what a batch introduces is
    empty for one exactly when it is empty for the other. */
module Locality {
  import opened Wrappers
  import opened Records
  import opened Ordering
  import opened Cycles
  import opened Validation
  import opened Discovery

  /** A batch over a store, and the dependencies it was checked with. */
  datatype Batch = Batch(w: World, e: Entries, changes: Overlay, d: Dependencies)

  ghost function After(b: Batch): Entries
  {
    Apply(b.e, b.changes)
  }

  /** The store before or after the batch. */
  ghost function Side(b: Batch, after: bool): Entries
  {
    if after then After(b) else b.e
  }

  ghost function LocalSide(b: Batch, after: bool): Entries
  {
    Restrict(Side(b, after), b.d.paths)
  }

  /** The checked files that are not changed and supersede nothing. */
  ghost function Inert(b: Batch): set<Path>
  {
    set p | p in b.d.paths && p !in b.changes && (p in b.e ==> b.e[p].supersedes == [])
  }

  /** Every path whose supersession edges were followed, or that has none to follow. */
  ghost function Expanded(b: Batch): set<Path>
  {
    (set x | x in b.d.expanded :: x.0) + Inert(b)
  }

  ghost predicate InScope(b: Batch, p: Path)
  {
    b.w.facts(p).scope in Scopes(b.w, b.changes)
  }

  ghost predicate Sound(b: Batch)
  {
    && Coherent(b.w) && Writable(b.w, b.changes)
    && WellFormed(b.w, b.e) && WellFormed(b.w, After(b))
  }

  /** Everything the work references of `s` can resolve to is among the checked files. */
  ghost predicate TargetsChecked(b: Batch, x: Entries, s: Path)
  {
    WorkItem(b.w, x, s) ==>
      forall r, t :: r in WorkRefs(x[s]) && Eligible(b.w, x, s, r, AsWork, t) ==> t in b.d.paths
  }

  /** The supersession edges of `s` stay among the expanded paths. */
  ghost predicate EdgesExpanded(b: Batch, x: Entries, s: Path)
  {
    WorkItem(b.w, x, s) ==>
      forall r, t :: r in x[s].supersedes && Eligible(b.w, x, s, r, AsWork, t) ==> t in Expanded(b)
  }

  /** Every decision the decision references of `s` can resolve to is among the checked files. */
  ghost predicate DecisionsChecked(b: Batch, x: Entries, s: Path)
  {
    WorkItem(b.w, x, s) ==>
      forall r, t :: r in x[s].decisionRefs && Eligible(b.w, x, s, r, AsDecision, t) ==> t in b.d.paths
  }

  /** An unchanged work item of the scopes that can resolve to a written path is validated. */
  ghost predicate ReferrerChecked(b: Batch, x: Entries, s: Path)
  {
    WorkItem(b.w, b.e, s) && s !in b.changes && InScope(b, s) ==>
      forall r, z :: z in b.changes && r in WorkRefs(b.e[s]) && Eligible(b.w, x, s, r, AsWork, z)
        ==> s in b.d.validationPaths
  }

  /** `t` holds, in the same scope, the identity that the written path `z` has in `x`. */
  ghost predicate Namesakes(b: Batch, x: Entries, t: Path, z: Path)
  {
    && t in b.e && t !in b.changes && b.e[t].governed && b.e[t].identity.Some?
    && z in b.changes && z in x && x[z].governed && x[z].identity == b.e[t].identity
    && b.w.facts(t).scope == b.w.facts(z).scope
  }

  /** The header states the identity that the record is classified under. */
  predicate Speaks(x: Entries, p: Path)
  {
    p in x && x[p].headerId == x[p].identity
  }

  /** What safety needs of the dependencies: written paths, their referrers and their
      namesakes are validated, and everything a validated record or an expanded
      supersession edge can resolve to is among the checked files. */
  ghost predicate Adequate(b: Batch)
  {
    && b.changes.Keys <= b.d.validationPaths <= b.d.paths
    && b.d.validationPaths <= Expanded(b) <= b.d.paths
    && (forall v :: v in b.d.validationPaths ==> InScope(b, v))
    && (forall after, s :: s in b.d.validationPaths ==> TargetsChecked(b, Side(b, after), s))
    && (forall after, s :: s in b.d.validationPaths ==> DecisionsChecked(b, Side(b, after), s))
    && (forall after, s :: s in Expanded(b) ==> EdgesExpanded(b, Side(b, after), s))
    && (forall after, s :: ReferrerChecked(b, Side(b, after), s))
    && (forall after, t, z :: Namesakes(b, Side(b, after), t, z) && Speaks(b.e, t) ==> t in b.d.validationPaths)
  }

  // ---- Graphs that agree on a closed set ----

  ghost predicate AgreeOn(g: Graph, h: Graph, k: set<Path>)
  {
    forall x :: x in k ==>
      && (x in g <==> x in h)
      && (x in g ==> g[x] == h[x] && forall y :: y in g[x] ==> y in k)
  }

  lemma {:induction false} WalkTransfers(g: Graph, h: Graph, k: set<Path>, walk: seq<Path>)
    requires AgreeOn(g, h, k) && Walk(g, walk) && walk[0] in k
    ensures Walk(h, walk) && forall i :: 0 <= i < |walk| ==> walk[i] in k
    decreases |walk|
  {
    if |walk| > 1 {
      var front := walk[..|walk| - 1];
      assert Walk(g, front);
      WalkTransfers(g, h, k, front);
      var n := |walk| - 1;
      assert walk[n] in g[walk[n - 1]] && front[n - 1] == walk[n - 1];
      forall i | 0 < i < |walk| ensures walk[i] in h[walk[i - 1]] {
        if i < n {
          assert front[i] in h[front[i - 1]];
        }
      }
    }
  }

  lemma CyclesAgree(g: Graph, h: Graph, k: set<Path>, s: Path)
    requires AgreeOn(g, h, k) && s in k
    ensures ReachesCycle(g, s) <==> ReachesCycle(h, s)
  {
    if ReachesCycle(g, s) {
      var walk :| Walk(g, walk) && walk[0] == s && Repeats(walk);
      WalkTransfers(g, h, k, walk);
    }
    if ReachesCycle(h, s) {
      var walk :| Walk(h, walk) && walk[0] == s && Repeats(walk);
      assert AgreeOn(h, g, k);
      WalkTransfers(h, g, k, walk);
    }
  }

  /** A walk that ends where it has been before reaches a cycle from each of its nodes. */
  lemma LassoReaches(g: Graph, walk: seq<Path>, i: nat, k: nat)
    requires Walk(g, walk) && i < |walk| - 1 && walk[i] == walk[|walk| - 1] && k < |walk|
    ensures ReachesCycle(g, walk[k])
  {
    var n := |walk| - 1;
    var loop := walk[k..] + walk[i + 1..];
    forall m | 0 < m < |loop| ensures loop[m] in g[loop[m - 1]] {
      if m < |walk| - k {
        assert walk[k + m] in g[walk[k + m - 1]];
      } else {
        var j := i + 1 + (m - (|walk| - k));
        assert loop[m] == walk[j];
        if m == |walk| - k {
          assert loop[m - 1] == walk[n] == walk[i] && walk[i + 1] in g[walk[i + 1 - 1]];
        } else {
          assert loop[m - 1] == walk[j - 1] && walk[j] in g[walk[j - 1]];
        }
      }
    }
    assert Walk(g, loop);
    assert loop[n - k] == walk[n] == loop[|loop| - 1];
  }

  /** A cycle at the end of a walk is reachable from its start. */
  lemma PrefixReaches(g: Graph, front: seq<Path>, x: Path)
    requires Walk(g, front + [x]) && ReachesCycle(g, x)
    ensures ReachesCycle(g, (front + [x])[0])
  {
    var walk :| Walk(g, walk) && walk[0] == x && Repeats(walk);
    var i, j :| 0 <= i < j < |walk| && walk[i] == walk[j];
    var whole := front + walk;
    forall m | 0 <= m < |whole| ensures whole[m] in g {
      if m < |front| {
        assert whole[m] == (front + [x])[m];
      }
    }
    forall m | 0 < m < |whole| ensures whole[m] in g[whole[m - 1]] {
      if m <= |front| {
        assert whole[m] == (front + [x])[m] && whole[m - 1] == (front + [x])[m - 1];
      } else {
        assert walk[m - |front|] in g[walk[m - |front| - 1]];
      }
    }
    assert forall m :: 0 <= m < |whole| ==> whole[m] == if m < |front| then (front + [x])[m] else walk[m - |front|];
    assert Walk(g, whole);
    assert whole[|front| + i] == whole[|front| + j];
    assert Repeats(whole);
    assert whole[0] == (front + [x])[0];
  }

  /** The first `k` edges of a walk are edges of `g`. */
  ghost predicate KeptEdges(g: Graph, walk: seq<Path>, k: nat)
  {
    && k < |walk|
    && (forall m :: 0 <= m < k ==> walk[m] in g)
    && (forall m :: 0 < m <= k ==> walk[m] in g[walk[m - 1]])
  }

  lemma LongestKept(g: Graph, walk: seq<Path>) returns (k: nat)
    requires walk != []
    ensures KeptEdges(g, walk, k)
    ensures k == |walk| - 1 || walk[k] !in g || walk[k + 1] !in g[walk[k]]
  {
    k := 0;
    while k < |walk| - 1 && walk[k] in g && walk[k + 1] in g[walk[k]]
      invariant KeptEdges(g, walk, k)
    {
      k := k + 1;
    }
  }

  lemma KeptReachesNothing(g: Graph, walk: seq<Path>, k: nat)
    requires KeptEdges(g, walk, k) && !ReachesCycle(g, walk[0])
    ensures !ReachesCycle(g, walk[k])
  {
    var front := walk[..k];
    assert front + [walk[k]] == walk[..k + 1];
    if walk[k] in g {
      assert Walk(g, front + [walk[k]]);
      if ReachesCycle(g, walk[k]) {
        PrefixReaches(g, front, walk[k]);
      }
    }
  }

  lemma NotWholeWalk(g: Graph, walk: seq<Path>, i: nat)
    requires i < |walk| - 1 && walk[i] == walk[|walk| - 1] && !ReachesCycle(g, walk[0])
    ensures !Walk(g, walk)
  {
    assert Repeats(walk);
  }

  /** A cyclic walk, cut where it first comes back to a node. */
  lemma Lasso(h: Graph, s: Path) returns (walk: seq<Path>, i: nat)
    requires ReachesCycle(h, s)
    ensures Walk(h, walk) && walk[0] == s && i < |walk| - 1 && walk[i] == walk[|walk| - 1]
  {
    var longer :| Walk(h, longer) && longer[0] == s && Repeats(longer);
    var a, b :| 0 <= a < b < |longer| && longer[a] == longer[b];
    walk, i := longer[..b + 1], a;
  }

  /** The start of the first new edge of a newly cyclic walk is newly cyclic itself, or
      so is the end of that edge when it was no node before. */
  lemma FirstNewEdge(g: Graph, h: Graph, s: Path) returns (x: Path, y: Path)
    requires ReachesCycle(h, s) && !ReachesCycle(g, s)
    ensures ReachesCycle(h, x) && !ReachesCycle(g, x) && x in h
    ensures x !in g || (y in h[x] && y !in g[x] && ReachesCycle(h, y))
  {
    var walk, i := Lasso(h, s);
    var k := LongestKept(g, walk);
    x := walk[k];
    LassoReaches(h, walk, i, k);
    KeptReachesNothing(g, walk, k);
    if k < |walk| - 1 {
      y := walk[k + 1];
      LassoReaches(h, walk, i, k + 1);
      assert walk[k + 1] in h[walk[k + 1 - 1]];
    } else {
      y := x;
      NotWholeWalk(g, walk, i);
    }
  }

  // ---- The projected check resolves as the whole store does ----

  lemma TargetsSame(b: Batch, after: bool, s: Path, r: string, role: Role)
    requires forall t :: Eligible(b.w, Side(b, after), s, r, role, t) ==> t in b.d.paths
    ensures Targets(b.w, LocalSide(b, after), s, r, role) == Targets(b.w, Side(b, after), s, r, role)
  {
    forall t
      ensures t in Targets(b.w, LocalSide(b, after), s, r, role) <==> t in Targets(b.w, Side(b, after), s, r, role)
    {
      var x, l := Side(b, after), LocalSide(b, after);
      assert t in l <==> t in x && t in b.d.paths;
      assert t in l ==> l[t] == x[t];
    }
  }

  lemma SameTargetsSameVerdict(w: World, x: Entries, y: Entries, s: Path, r: string, role: Role)
    requires Targets(w, x, s, r, role) == Targets(w, y, s, r, role)
    ensures Unresolved(w, x, s, r, role) <==> Unresolved(w, y, s, r, role)
  {
    assert forall t :: Resolves(w, x, s, r, role, t) <==> Resolves(w, y, s, r, role, t);
  }

  lemma {:induction false} ResolvedListSame(w: World, x: Entries, l: Entries, s: Path, refs: seq<string>)
    requires forall r :: r in refs ==> Targets(w, l, s, r, AsWork) == Targets(w, x, s, r, AsWork)
    ensures ResolvedList(w, l, s, refs) == ResolvedList(w, x, s, refs)
  {
    if refs != [] {
      var last := refs[|refs| - 1];
      assert last in refs;
      ResolvedListSame(w, x, l, s, refs[..|refs| - 1]);
      assert forall t :: Resolves(w, l, s, last, AsWork, t) <==> Resolves(w, x, s, last, AsWork, t);
    }
  }

  lemma {:induction false} ResolvedListMember(w: World, x: Entries, s: Path, refs: seq<string>, t: Path)
    ensures t in ResolvedList(w, x, s, refs) <==> exists r :: r in refs && Resolves(w, x, s, r, AsWork, t)
  {
    if refs != [] {
      var last := refs[|refs| - 1];
      ResolvedListMember(w, x, s, refs[..|refs| - 1], t);
      assert refs == refs[..|refs| - 1] + [last];
      if u :| Resolves(w, x, s, last, AsWork, u) {
        assert Resolves(w, x, s, last, AsWork, t) ==> t in {u};
      }
    }
  }

  lemma GraphsAgree(b: Batch, after: bool)
    requires Sound(b) && Adequate(b)
    ensures AgreeOn(Supersession(b.w, Side(b, after)), Supersession(b.w, LocalSide(b, after)), Expanded(b))
  {
    var x, l := Side(b, after), LocalSide(b, after);
    forall s | s in Expanded(b)
      ensures WorkItem(b.w, x, s) <==> WorkItem(b.w, l, s)
      ensures WorkItem(b.w, x, s) ==>
        ResolvedList(b.w, x, s, x[s].supersedes) == ResolvedList(b.w, l, s, l[s].supersedes)
      ensures WorkItem(b.w, x, s) ==> forall y :: y in ResolvedList(b.w, x, s, x[s].supersedes) ==> y in Expanded(b)
    {
      if WorkItem(b.w, x, s) {
        assert EdgesExpanded(b, x, s);
        var refs := x[s].supersedes;
        forall r | r in refs
          ensures Targets(b.w, l, s, r, AsWork) == Targets(b.w, x, s, r, AsWork)
          ensures Targets(b.w, x, s, r, AsWork) <= Expanded(b)
        {
          TargetsSame(b, after, s, r, AsWork);
        }
        ResolvedListSame(b.w, x, l, s, refs);
        forall y | y in ResolvedList(b.w, x, s, refs) ensures y in Expanded(b) {
          ResolvedListMember(b.w, x, s, refs, y);
          var r :| r in refs && Resolves(b.w, x, s, r, AsWork, y);
          assert y in Targets(b.w, x, s, r, AsWork);
        }
      }
    }
  }

  ghost predicate Cyclic(w: World, x: Entries, s: Path)
  {
    ReachesCycle(Supersession(w, x), s)
  }

  lemma CyclicLocally(b: Batch, after: bool, s: Path)
    requires Sound(b) && Adequate(b) && s in Expanded(b)
    ensures Cyclic(b.w, LocalSide(b, after), s) <==> Cyclic(b.w, Side(b, after), s)
  {
    GraphsAgree(b, after);
    CyclesAgree(Supersession(b.w, Side(b, after)), Supersession(b.w, LocalSide(b, after)), Expanded(b), s);
  }

  /** A reference that resolves differently after the batch has a written candidate. */
  lemma ChangedTarget(b: Batch, s: Path, r: string, y: Path) returns (z: Path, after: bool)
    requires Resolves(b.w, After(b), s, r, AsWork, y) != Resolves(b.w, b.e, s, r, AsWork, y)
    ensures z in b.changes && Eligible(b.w, Side(b, after), s, r, AsWork, z)
  {
    var before, later := Targets(b.w, b.e, s, r, AsWork), Targets(b.w, After(b), s, r, AsWork);
    assert before != later;
    if !(later <= before) {
      z, after := (var t :| t in later && t !in before; t), true;
    } else {
      z, after := (var t :| t in before && t !in later; t), false;
    }
  }

  /** Whatever a batch makes cyclic, it makes some validated record cyclic. */
  lemma NewCycleIsValidated(b: Batch, s: Path) returns (v: Path)
    requires Sound(b) && Adequate(b)
    requires Cyclic(b.w, After(b), s) && !Cyclic(b.w, b.e, s)
    ensures v in b.d.validationPaths && Cyclic(b.w, After(b), v) && !Cyclic(b.w, b.e, v)
  {
    var g, h := Supersession(b.w, b.e), Supersession(b.w, After(b));
    var x, y := FirstNewEdge(g, h, s);
    v := x;
    if x !in b.changes {
      assert WorkItem(b.w, After(b), x) && b.e[x] == After(b)[x];
      assert x in g;
      var refs := b.e[x].supersedes;
      ResolvedListMember(b.w, After(b), x, refs, y);
      ResolvedListMember(b.w, b.e, x, refs, y);
      var r :| r in refs && Resolves(b.w, After(b), x, r, AsWork, y);
      var z, after := ChangedTarget(b, x, r, y);
      assert ReferrerChecked(b, Side(b, after), x);
      if !InScope(b, x) {
        ExplicitFromOutside(b, x, r, y, z, after);
        v := y;
      }
    }
  }

  /** Only an explicit path reaches a written record from another scope, so the written
      record is the new target and was no work item before. */
  lemma ExplicitFromOutside(b: Batch, x: Path, r: string, y: Path, z: Path, after: bool)
    requires Sound(b) && !InScope(b, x) && z in b.changes
    requires Eligible(b.w, Side(b, after), x, r, AsWork, z)
    requires Resolves(b.w, After(b), x, r, AsWork, y) && !Resolves(b.w, b.e, x, r, AsWork, y)
    ensures y in b.changes && !WorkItem(b.w, b.e, y)
  {
    assert b.w.facts(z).scope in Scopes(b.w, b.changes);
    assert Explicit(r) && z == r;
    assert y in Targets(b.w, After(b), x, r, AsWork);
    assert WorkItem(b.w, b.e, y) ==> Eligible(b.w, b.e, x, r, AsWork, y);
    assert Eligible(b.w, b.e, x, r, AsWork, y) ==> Targets(b.w, b.e, x, r, AsWork) == {y};
  }

  // ---- The projected check and safety ----

  /** How often the projected check reports `d`: only at validated paths, duplicates everywhere. */
  ghost function LocalMultiplicity(b: Batch, after: bool, d: Diagnostic): nat
  {
    if d.path in b.d.validationPaths || d.Duplicate? then Multiplicity(b.w, LocalSide(b, after), d) else 0
  }

  /** The projected check introduces nothing. */
  ghost predicate LocallyClean(b: Batch)
  {
    forall d :: LocalMultiplicity(b, true, d) <= LocalMultiplicity(b, false, d)
  }

  /** The explicit references that leave the investigation are not covered by discovery. */
  predicate LocalReference(w: World, s: Path, r: string)
  {
    Explicit(r) ==> w.facts(r).scope == w.facts(s).scope
  }

  ghost predicate NoCycle(w: World, x: Entries)
  {
    forall s :: !Cyclic(w, x, s)
  }

  /** Two records whose headers state their identity never share it, neither in one scope
      nor in a project outside every scope. Tickets, epics and boards always state it. */
  ghost predicate UniqueIdentities(w: World, x: Entries)
  {
    forall p, q :: SharesIdentity(w, x, p, q) && Speaks(x, p) && Speaks(x, q) ==> p == q
  }

  ghost predicate ReferencesResolve(w: World, x: Entries)
  {
    forall s, r ::
      WorkItem(w, x, s) && r in WorkRefs(x[s]) && LocalReference(w, s, r) ==> !Unresolved(w, x, s, r, AsWork)
  }

  ghost predicate DecisionsResolve(w: World, x: Entries)
  {
    forall s, r :: WorkItem(w, x, s) && r in x[s].decisionRefs ==> !Unresolved(w, x, s, r, AsDecision)
  }

  /** The invariant of a Store. */
  ghost predicate Good(w: World, x: Entries)
  {
    NoCycle(w, x) && UniqueIdentities(w, x) && ReferencesResolve(w, x) && DecisionsResolve(w, x)
  }

  lemma CycleCount(w: World, x: Entries, s: Path)
    ensures Multiplicity(w, x, SupersessionCycle(s)) == if Cyclic(w, x, s) then 1 else 0
  {
  }

  lemma LocalCycleCount(b: Batch, after: bool, v: Path)
    requires Sound(b) && Adequate(b) && v in b.d.validationPaths
    ensures LocalMultiplicity(b, after, SupersessionCycle(v)) == if Cyclic(b.w, Side(b, after), v) then 1 else 0
  {
    CyclicLocally(b, after, v);
    CycleCount(b.w, LocalSide(b, after), v);
  }

  /** A diagnostic that the batch makes more frequent in the projected check. */
  ghost predicate Reports(b: Batch, d: Diagnostic)
  {
    LocalMultiplicity(b, true, d) > LocalMultiplicity(b, false, d)
  }

  lemma CleanReportsNothing(b: Batch, d: Diagnostic)
    requires LocallyClean(b)
    ensures !Reports(b, d)
  {
  }

  lemma NewCycleReported(b: Batch, v: Path)
    requires Sound(b) && Adequate(b) && v in b.d.validationPaths
    requires Cyclic(b.w, After(b), v) && !Cyclic(b.w, b.e, v)
    ensures Reports(b, SupersessionCycle(v))
  {
    LocalCycleCount(b, true, v);
    LocalCycleCount(b, false, v);
  }

  lemma CleanKeepsAcyclic(b: Batch)
    requires Sound(b) && Adequate(b) && LocallyClean(b) && NoCycle(b.w, b.e)
    ensures NoCycle(b.w, After(b))
  {
    forall s ensures !Cyclic(b.w, After(b), s) {
      if Cyclic(b.w, After(b), s) {
        var v := NewCycleIsValidated(b, s);
        NewCycleReported(b, v);
        CleanReportsNothing(b, SupersessionCycle(v));
      }
    }
  }

  ghost function Holders(w: World, x: Entries, p: Path): set<Path>
  {
    set q | q in x && SharesIdentity(w, x, p, q)
  }

  /** A second holder of an identity next to `n` is reported, at `n` or naming `n`. */
  lemma NeighbourReported(w: World, x: Entries, n: Path, o: Path) returns (d: Diagnostic)
    requires SharesIdentity(w, x, n, o) && n != o
    ensures d.Duplicate? && Multiplicity(w, x, d) == 1 && (d.path == n || d.previous == n)
  {
    var below := set q | q in Holders(w, x, n) && Lt(q, n);
    if below != {} {
      var m := GreatestExists(below);
      forall z | SharesIdentity(w, x, n, z) && Lt(z, n) ensures !Lt(m, z) {
        assert z in Holders(w, x, n) && z in below;
        if z == m { LtIrreflexive(m); } else { LtAsymmetric(z, m); }
      }
      d := Duplicate(n, m);
    } else {
      LtTotal(n, o);
      assert o in Holders(w, x, n) && o !in below;
      var above := set q | q in Holders(w, x, n) && Lt(n, q);
      assert o in above;
      var m := LeastExists(above);
      forall z | SharesIdentity(w, x, m, z) && Lt(z, m) ensures !Lt(n, z) {
        assert z in Holders(w, x, n);
        if Lt(n, z) {
          assert z in above;
          if z == m { LtIrreflexive(m); } else { LtAsymmetric(m, z); }
        }
      }
      d := Duplicate(m, n);
    }
  }

  ghost predicate HeldBefore(b: Batch, p: Path)
  {
    p in b.e && b.e[p].governed && p in After(b) && b.e[p].identity == After(b)[p].identity
  }

  lemma SharersReported(b: Batch, p: Path, q: Path)
    requires Sound(b) && Adequate(b) && UniqueIdentities(b.w, b.e) && p != q
    requires SharesIdentity(b.w, After(b), p, q) && Speaks(After(b), p) && Speaks(After(b), q)
    ensures !LocallyClean(b)
  {
    assert HeldBefore(b, p) && HeldBefore(b, q) ==> SharesIdentity(b.w, b.e, p, q);
    assert p !in b.changes ==> HeldBefore(b, p);
    assert q !in b.changes ==> HeldBefore(b, q);
    SharersAreChecked(b, p, q);
    assert SharesIdentity(b.w, LocalSide(b, true), p, q);
    assert SharesIdentity(b.w, LocalSide(b, true), q, p);
    if HeldBefore(b, p) {
      NewHolderReported(b, q, p);
    } else {
      NewHolderReported(b, p, q);
    }
  }

  lemma CleanKeepsUnique(b: Batch)
    requires Sound(b) && Adequate(b) && LocallyClean(b) && UniqueIdentities(b.w, b.e)
    ensures UniqueIdentities(b.w, After(b))
  {
    forall p, q | SharesIdentity(b.w, After(b), p, q) && Speaks(After(b), p) && Speaks(After(b), q)
      ensures p == q
    {
      if p != q {
        SharersReported(b, p, q);
      }
    }
  }

  /** Tickets, epics and boards state their identity; when decisions do too, no two records of
      a scope share one. */
  lemma SpeakingIsUnique(w: World, x: Entries, p: Path, q: Path)
    requires WellFormed(w, x) && UniqueIdentities(w, x) && SharesIdentity(w, x, p, q)
    requires forall t :: t in x && w.facts(t).kind == Some(Decision) ==> Speaks(x, t)
    ensures p == q
  {
    assert WellPlaced(w, p, x[p]) && WellPlaced(w, q, x[q]);
  }

  lemma SharersAreChecked(b: Batch, p: Path, q: Path)
    requires Sound(b) && Adequate(b)
    requires SharesIdentity(b.w, After(b), p, q) && Speaks(After(b), p) && Speaks(After(b), q)
    requires p in b.changes || q in b.changes
    ensures p in b.d.paths && q in b.d.paths
  {
    var y := After(b);
    assert WellPlaced(b.w, p, y[p]) && WellPlaced(b.w, q, y[q]);
    assert b.w.facts(p).scope == b.w.facts(q).scope;
    if p !in b.changes {
      assert Namesakes(b, Side(b, true), p, q);
    }
    if q !in b.changes {
      assert Namesakes(b, Side(b, true), q, p);
    }
  }

  /** A record that takes an identity some checked record holds is reported. */
  lemma NewHolderReported(b: Batch, n: Path, o: Path)
    requires Sound(b) && UniqueIdentities(b.w, b.e)
    requires SharesIdentity(b.w, LocalSide(b, true), n, o) && n != o && !HeldBefore(b, n)
    ensures !LocallyClean(b)
  {
    var l := LocalSide(b, true);
    var d := NeighbourReported(b.w, l, n, o);
    var m := if d.path == n then d.previous else d.path;
    assert SharesIdentity(b.w, l, d.path, d.previous) && Lt(d.previous, d.path);
    LtIrreflexive(d.path);
    assert m != n && l[m].identity == l[n].identity;
    assert n in b.changes;
    assert m !in b.changes ==> m in b.e && b.e[m] == l[m];
    assert !SharesIdentity(b.w, b.e, n, m);
    assert !SharesIdentity(b.w, LocalSide(b, false), d.path, d.previous);
    assert LocalMultiplicity(b, true, d) == 1 && LocalMultiplicity(b, false, d) == 0;
  }

  // ---- Work references ----

  lemma UnresolvedSame(b: Batch, after: bool, s: Path, r: string)
    requires Sound(b) && Adequate(b) && s in b.d.validationPaths && WorkItem(b.w, Side(b, after), s)
    requires r in WorkRefs(Side(b, after)[s])
    ensures Unresolved(b.w, LocalSide(b, after), s, r, AsWork) <==> Unresolved(b.w, Side(b, after), s, r, AsWork)
  {
    assert TargetsChecked(b, Side(b, after), s);
    TargetsSame(b, after, s, r, AsWork);
    SameTargetsSameVerdict(b.w, LocalSide(b, after), Side(b, after), s, r, AsWork);
  }

  /** A local reference that the batch breaks belongs to a validated record. */
  lemma BrokenReferenceIsValidated(b: Batch, s: Path, r: string)
    requires Sound(b) && Adequate(b) && ReferencesResolve(b.w, b.e)
    requires WorkItem(b.w, After(b), s) && r in WorkRefs(After(b)[s]) && LocalReference(b.w, s, r)
    requires Unresolved(b.w, After(b), s, r, AsWork)
    ensures s in b.d.validationPaths
  {
    if s !in b.changes {
      assert WorkItem(b.w, b.e, s) && b.e[s] == After(b)[s];
      assert !Unresolved(b.w, b.e, s, r, AsWork);
      var y :| Resolves(b.w, b.e, s, r, AsWork, y) && y != s;
      var z, after := ChangedTarget(b, s, r, y);
      assert b.w.facts(z).scope in Scopes(b.w, b.changes);
      assert ReferrerChecked(b, Side(b, after), s);
    }
  }

  lemma BrokenReferenceReported(b: Batch, s: Path, r: string)
    requires Sound(b) && Adequate(b) && ReferencesResolve(b.w, b.e) && s in b.d.validationPaths
    requires WorkItem(b.w, After(b), s) && r in WorkRefs(After(b)[s]) && LocalReference(b.w, s, r)
    requires Unresolved(b.w, After(b), s, r, AsWork)
    ensures Reports(b, UnresolvedWork(s, r))
  {
    UnresolvedSame(b, true, s, r);
    KeptRecord(b, s);
    UnresolvedIsCounted(b.w, LocalSide(b, true), s, r);
    ResolvedIsSilent(b, s, r);
  }

  lemma KeptRecord(b: Batch, s: Path)
    requires s in b.d.paths && WorkItem(b.w, After(b), s)
    ensures WorkItem(b.w, LocalSide(b, true), s) && LocalSide(b, true)[s] == After(b)[s]
  {
  }

  /** An unresolved reference of a work item is due as often as it is listed. */
  lemma UnresolvedIsCounted(w: World, x: Entries, s: Path, r: string)
    requires WorkItem(w, x, s)
    ensures r in WorkRefs(x[s]) && Unresolved(w, x, s, r, AsWork) ==> Multiplicity(w, x, UnresolvedWork(s, r)) > 0
    ensures r in x[s].decisionRefs && Unresolved(w, x, s, r, AsDecision) ==>
      Multiplicity(w, x, UnresolvedDecision(s, r)) > 0
  {
    assert r in WorkRefs(x[s]) ==> r in multiset(WorkRefs(x[s]));
    assert r in x[s].decisionRefs ==> r in multiset(x[s].decisionRefs);
  }

  lemma ResolvedIsSilent(b: Batch, s: Path, r: string)
    requires Sound(b) && Adequate(b) && ReferencesResolve(b.w, b.e) && s in b.d.validationPaths
    requires LocalReference(b.w, s, r)
    ensures LocalMultiplicity(b, false, UnresolvedWork(s, r)) == 0
  {
    if WorkItem(b.w, b.e, s) && r in WorkRefs(b.e[s]) {
      UnresolvedSame(b, false, s, r);
    }
  }

  lemma CleanKeepsReferences(b: Batch)
    requires Sound(b) && Adequate(b) && LocallyClean(b) && ReferencesResolve(b.w, b.e)
    ensures ReferencesResolve(b.w, After(b))
  {
    forall s, r | WorkItem(b.w, After(b), s) && r in WorkRefs(After(b)[s]) && LocalReference(b.w, s, r)
      ensures !Unresolved(b.w, After(b), s, r, AsWork)
    {
      if Unresolved(b.w, After(b), s, r, AsWork) {
        BrokenReferenceIsValidated(b, s, r);
        BrokenReferenceReported(b, s, r);
        CleanReportsNothing(b, UnresolvedWork(s, r));
      }
    }
  }

  /** A reference from an investigation that the batch does not change breaks exactly when it
      is the path of a work item that the batch takes away. */
  lemma ForeignReferenceBreaksIff(b: Batch, s: Path, r: string)
    requires Sound(b) && !InScope(b, s) && WorkItem(b.w, b.e, s) && r in WorkRefs(b.e[s])
    requires !Unresolved(b.w, b.e, s, r, AsWork)
    ensures Unresolved(b.w, After(b), s, r, AsWork) <==> Explicit(r) && r in b.changes && !WorkItem(b.w, After(b), r)
  {
    var t :| Resolves(b.w, b.e, s, r, AsWork, t) && t != s;
    assert t in Targets(b.w, b.e, s, r, AsWork);
    if r in b.changes && Explicit(r) {
      ForeignTargets(b, s, r);
      assert t == r;
      if WorkItem(b.w, After(b), r) {
        assert Targets(b.w, After(b), s, r, AsWork) == {r};
        assert Resolves(b.w, After(b), s, r, AsWork, r);
      }
    } else {
      ForeignStays(b, s, r);
    }
  }

  /** An explicit reference resolves to its path or to nothing. */
  lemma ForeignTargets(b: Batch, s: Path, r: string)
    requires Explicit(r)
    ensures Targets(b.w, After(b), s, r, AsWork) <= {r} && Targets(b.w, b.e, s, r, AsWork) <= {r}
    ensures r in Targets(b.w, b.e, s, r, AsWork) ==>
      (r in Targets(b.w, After(b), s, r, AsWork) <==> WorkItem(b.w, After(b), r))
  {
  }

  lemma ForeignStays(b: Batch, s: Path, r: string)
    requires Sound(b) && !InScope(b, s) && WorkItem(b.w, b.e, s) && (r !in b.changes || !Explicit(r))
    ensures Unresolved(b.w, After(b), s, r, AsWork) <==> Unresolved(b.w, b.e, s, r, AsWork)
  {
    forall z, after | z in b.changes ensures !Eligible(b.w, Side(b, after), s, r, AsWork, z) {
      assert b.w.facts(z).scope in Scopes(b.w, b.changes);
    }
    UntouchedUnresolved(b, s, r, AsWork);
  }

  // ---- Decision references ----

  lemma DecisionsSame(b: Batch, after: bool, s: Path, r: string)
    requires Adequate(b) && s in b.d.validationPaths
    requires WorkItem(b.w, Side(b, after), s) && r in Side(b, after)[s].decisionRefs
    ensures Unresolved(b.w, LocalSide(b, after), s, r, AsDecision) <==>
      Unresolved(b.w, Side(b, after), s, r, AsDecision)
  {
    assert DecisionsChecked(b, Side(b, after), s);
    TargetsSame(b, after, s, r, AsDecision);
    SameTargetsSameVerdict(b.w, LocalSide(b, after), Side(b, after), s, r, AsDecision);
  }

  lemma UntouchedTargets(b: Batch, s: Path, r: string, role: Role)
    requires forall z, after :: z in b.changes ==> !Eligible(b.w, Side(b, after), s, r, role, z)
    ensures Targets(b.w, After(b), s, r, role) == Targets(b.w, b.e, s, r, role)
  {
    forall t ensures t in Targets(b.w, After(b), s, r, role) <==> t in Targets(b.w, b.e, s, r, role) {
      assert !Eligible(b.w, Side(b, true), s, r, role, t) || t !in b.changes;
      assert !Eligible(b.w, Side(b, false), s, r, role, t) || t !in b.changes;
    }
  }

  lemma UntouchedUnresolved(b: Batch, s: Path, r: string, role: Role)
    requires forall z, after :: z in b.changes ==> !Eligible(b.w, Side(b, after), s, r, role, z)
    ensures Unresolved(b.w, After(b), s, r, role) <==> Unresolved(b.w, b.e, s, r, role)
  {
    UntouchedTargets(b, s, r, role);
    SameTargetsSameVerdict(b.w, After(b), b.e, s, r, role);
  }

  /** Decisions are never written, so decision references never move. */
  lemma DecisionReferenceUnchanged(b: Batch, s: Path, r: string)
    requires Sound(b)
    ensures Unresolved(b.w, After(b), s, r, AsDecision) <==> Unresolved(b.w, b.e, s, r, AsDecision)
  {
    UntouchedUnresolved(b, s, r, AsDecision);
  }

  lemma ResolvedDecisionIsSilent(b: Batch, s: Path, r: string)
    requires Sound(b) && Adequate(b) && DecisionsResolve(b.w, b.e) && s in b.d.validationPaths
    ensures LocalMultiplicity(b, false, UnresolvedDecision(s, r)) == 0
  {
    if WorkItem(b.w, b.e, s) && r in b.e[s].decisionRefs {
      DecisionsSame(b, false, s, r);
    }
  }

  lemma BrokenDecisionReported(b: Batch, s: Path, r: string)
    requires Sound(b) && Adequate(b) && DecisionsResolve(b.w, b.e) && s in b.d.validationPaths
    requires WorkItem(b.w, After(b), s) && r in After(b)[s].decisionRefs && Unresolved(b.w, After(b), s, r, AsDecision)
    ensures Reports(b, UnresolvedDecision(s, r))
  {
    DecisionsSame(b, true, s, r);
    KeptRecord(b, s);
    UnresolvedIsCounted(b.w, LocalSide(b, true), s, r);
    ResolvedDecisionIsSilent(b, s, r);
  }

  lemma CleanKeepsDecisions(b: Batch)
    requires Sound(b) && Adequate(b) && LocallyClean(b) && DecisionsResolve(b.w, b.e)
    ensures DecisionsResolve(b.w, After(b))
  {
    forall s, r | WorkItem(b.w, After(b), s) && r in After(b)[s].decisionRefs
      ensures !Unresolved(b.w, After(b), s, r, AsDecision)
    {
      if s !in b.changes {
        assert WorkItem(b.w, b.e, s) && b.e[s] == After(b)[s];
        DecisionReferenceUnchanged(b, s, r);
      } else if Unresolved(b.w, After(b), s, r, AsDecision) {
        BrokenDecisionReported(b, s, r);
        CleanReportsNothing(b, UnresolvedDecision(s, r));
      }
    }
  }

  /** A batch that the projected check accepts keeps the whole store in order. */
  lemma CleanBatchIsSafe(b: Batch)
    requires Sound(b) && Adequate(b) && LocallyClean(b) && Good(b.w, b.e)
    ensures Good(b.w, After(b))
  {
    CleanKeepsAcyclic(b);
    CleanKeepsUnique(b);
    CleanKeepsReferences(b);
    CleanKeepsDecisions(b);
  }
}
