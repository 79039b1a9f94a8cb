/** What discovery selects, exactly: the seeds, the direct targets of their references, and
    the supersession walks that start at a seed with a flag that no later reference resets. */
module Closure {
  import opened Wrappers
  import opened Records
  import opened Ordering
  import opened Discovery

  lemma CoveredTarget(c: Context, d: Dependencies, s: Path, full: bool, r: string, t: Path)
    requires Covers(c, d) && (s, full) in d.expanded
    requires r in FollowedRefs(HeaderAt(c, s), full) && Names(c, s, r, t)
    ensures t in d.paths && (!full ==> (t, false) in d.expanded)
  {
  }

  // ---- When the order of reading does not matter ----

  /** `s` carries the reference `r`, and discovery follows it. */
  ghost predicate Pursued(c: Context, s: Path, r: string)
  {
    (s in c.seeds && r in AllRefs(HeaderAt(c, s))) || (Chained(c, s) && r in HeaderAt(c, s).supersedes)
  }

  /** No followed reference names a record only through a header read during the loop. */
  ghost predicate Settled(c: Context)
  {
    forall s, r, t :: Pursued(c, s, r) && MayName(c, s, r, t) ==> Names(c, s, r, t)
  }

  /** The sources of followed references lie in listed scopes, an explicit path stands in a
      list of records, and a decision outside every scope is named by a decision reference
      that its file name matches, or not at all. */
  ghost predicate AtHome(c: Context, scopes: set<Option<string>>)
  {
    forall s, r :: Pursued(c, s, r) ==>
      && c.w.facts(s).scope.Some? && c.w.facts(s).scope in scopes
      && (Explicit(r) ==> r in RecordRefs(HeaderAt(c, s)))
      && forall t ::
        t in c.e && c.w.facts(t).scope.None? && c.e[t].headerId == Some(r) ==> t in Pointed(c, s, HeaderAt(c, s), r)
  }

  /** A premise that can be checked before the loop: sources that stay at home settle it. */
  lemma AtHomeIsSettled(w: World, e: Entries, changes: Overlay)
    requires Coherent(w) && AtHome(ContextOf(w, e, changes), Scopes(w, changes))
    ensures Settled(ContextOf(w, e, changes))
  {
    var c := ContextOf(w, e, changes);
    forall s, r, t | Pursued(c, s, r) && MayName(c, s, r, t) ensures Names(c, s, r, t) {
      if t !in c.known && t !in Pointed(c, s, HeaderAt(c, s), r) {
        HomeReference(w, e, changes, s, r, t);
      }
    }
  }

  lemma HomeReference(w: World, e: Entries, changes: Overlay, s: Path, r: string, t: Path)
    requires Coherent(w) && AtHome(ContextOf(w, e, changes), Scopes(w, changes))
    requires var c := ContextOf(w, e, changes);
      Pursued(c, s, r) && t !in c.known && MayName(c, s, r, t)
    ensures t in Pointed(ContextOf(w, e, changes), s, HeaderAt(ContextOf(w, e, changes), s), r)
  {
    var c := ContextOf(w, e, changes);
    if !Explicit(r) && t in e && FollowedKind(w.facts(t).kind) && w.facts(t).scope.Some? {
      assert Listed(w, e, changes, t) || w.facts(t).scope !in Scopes(w, changes);
    }
  }

  // ---- The closure ----

  lemma PassedIsCarried(c: Context, s: Path, t: Path)
    requires Settled(c) && s in c.seeds && Passed(c, s, t)
    ensures Carried(c, s, t)
  {
    var h := HeaderAt(c, s);
    var r :| r in h.supersedes && MayName(c, s, r, t)
      && forall x :: x in AllRefs(h) && x !in h.supersedes && Names(c, s, x, t) ==> Lt(x, r);
    assert Pursued(c, s, r);
    forall x | x in AllRefs(h) && x !in h.supersedes && MayName(c, s, x, t) ensures Lt(x, r) {
      assert Pursued(c, s, x);
    }
  }

  /** A supersession walk whose every edge is named whatever the order of reading, and whose
      first flag survives whatever the order. */
  ghost predicate SureChain(c: Context, walk: seq<Path>)
  {
    && |walk| > 1 && walk[0] in c.seeds && Carried(c, walk[0], walk[1])
    && forall i :: 1 < i < |walk| ==> SureStep(c, walk[i - 1], walk[i])
  }

  ghost predicate SureStep(c: Context, s: Path, t: Path)
  {
    exists r :: r in HeaderAt(c, s).supersedes && Names(c, s, r, t)
  }

  ghost predicate SurelyChained(c: Context, t: Path)
  {
    exists walk :: SureChain(c, walk) && walk[|walk| - 1] == t
  }

  lemma {:induction false} SureChainIsExpanded(c: Context, d: Dependencies, walk: seq<Path>, k: nat)
    requires Covers(c, d) && SureChain(c, walk) && 0 < k < |walk|
    ensures (walk[k], false) in d.expanded
  {
    if k == 1 {
      assert (walk[0], true) in d.expanded;
    } else {
      SureChainIsExpanded(c, d, walk, k - 1);
      assert SureStep(c, walk[k - 1], walk[k]);
      var r :| r in HeaderAt(c, walk[k - 1]).supersedes && Names(c, walk[k - 1], r, walk[k]);
      CoveredTarget(c, d, walk[k - 1], false, r, walk[k]);
    }
  }

  lemma SurelyChainedIsExpanded(c: Context, d: Dependencies, t: Path)
    requires Covers(c, d) && SurelyChained(c, t)
    ensures (t, false) in d.expanded
  {
    var walk :| SureChain(c, walk) && walk[|walk| - 1] == t;
    SureChainIsExpanded(c, d, walk, |walk| - 1);
  }

  lemma SureChainGrows(c: Context, s: Path, t: Path)
    requires SurelyChained(c, s) && SureStep(c, s, t)
    ensures SurelyChained(c, t)
  {
    var walk :| SureChain(c, walk) && walk[|walk| - 1] == s;
    assert SureChain(c, walk + [t]);
  }

  lemma {:induction false} ChainIsSure(c: Context, walk: seq<Path>, k: nat)
    requires Settled(c) && Chain(c, walk) && 0 < k < |walk|
    ensures SurelyChained(c, walk[k]) && Chained(c, walk[k])
  {
    if k == 1 {
      PassedIsCarried(c, walk[0], walk[1]);
      assert SureChain(c, [walk[0], walk[1]]);
      assert Chain(c, [walk[0], walk[1]]);
    } else {
      ChainIsSure(c, walk, k - 1);
      assert SupersessionStep(c, walk[k - 1], walk[k]);
      var r :| r in HeaderAt(c, walk[k - 1]).supersedes && MayName(c, walk[k - 1], r, walk[k]);
      assert Pursued(c, walk[k - 1], r);
      assert SureStep(c, walk[k - 1], walk[k]);
      SureChainGrows(c, walk[k - 1], walk[k]);
      ChainedStep(c, walk[k - 1], walk[k]);
    }
  }

  lemma SettledChains(c: Context, t: Path)
    requires Settled(c) && Chained(c, t)
    ensures SurelyChained(c, t)
  {
    var walk :| Chain(c, walk) && walk[|walk| - 1] == t;
    ChainIsSure(c, walk, |walk| - 1);
  }

  lemma NeighbourIsSelected(c: Context, d: Dependencies, p: Path)
    requires Covers(c, d) && Settled(c) && Neighbour(c, p)
    ensures p in d.paths
  {
    var s, r :| s in c.seeds && r in AllRefs(HeaderAt(c, s)) && MayName(c, s, r, p);
    assert Pursued(c, s, r);
    assert (s, true) in d.expanded;
    CoveredTarget(c, d, s, true, r, p);
  }

  /** The closure is exactly this; neighbours other than supersession walks stop at once. */
  lemma ClosureIsExact(c: Context, d: Dependencies, p: Path)
    requires Covers(c, d) && Within(c, d) && Settled(c)
    ensures p in d.paths <==> p in c.seeds || Neighbour(c, p) || Chained(c, p)
    ensures (p, true) in d.expanded <==> p in c.seeds
    ensures (p, false) in d.expanded <==> Chained(c, p)
  {
    if Chained(c, p) {
      SettledChains(c, p);
      SurelyChainedIsExpanded(c, d, p);
      assert (p, false).0 in d.paths;
    }
    if Neighbour(c, p) {
      NeighbourIsSelected(c, d, p);
    }
  }

  // ---- Lost flags ----

  /** The supersession edges of `t` are followed, or there are none. */
  ghost predicate Kept(c: Context, t: Path)
  {
    t in c.seeds || SurelyChained(c, t) || HeaderAt(c, t).supersedes == []
  }

  /** No seed loses the flag of a target for good: a target whose flag a later reference
      resets is a seed, is reached by another unbroken walk, or supersedes nothing. */
  ghost predicate NoFlagLost(c: Context)
  {
    forall s, r, t :: s in c.seeds && r in HeaderAt(c, s).supersedes && Names(c, s, r, t) ==> Kept(c, t)
  }

  /** A supersession walk from a seed, overwritten or not. */
  ghost predicate Forward(c: Context, walk: seq<Path>)
  {
    && |walk| > 1 && walk[0] in c.seeds
    && forall i :: 0 < i < |walk| ==> SureStep(c, walk[i - 1], walk[i])
  }

  ghost predicate Superseded(c: Context, t: Path)
  {
    exists walk :: Forward(c, walk) && walk[|walk| - 1] == t
  }

  /** The loop has followed the supersession edges of `t`, or there are none. */
  ghost predicate Continued(c: Context, d: Dependencies, t: Path)
  {
    (t, true) in d.expanded || (t, false) in d.expanded || HeaderAt(c, t).supersedes == []
  }

  lemma {:induction false} ForwardIsKept(c: Context, walk: seq<Path>, k: nat)
    requires NoFlagLost(c) && Forward(c, walk) && 0 < k < |walk|
    ensures Kept(c, walk[k])
  {
    assert SureStep(c, walk[k - 1], walk[k]);
    if k > 1 {
      ForwardIsKept(c, walk, k - 1);
      if SurelyChained(c, walk[k - 1]) {
        SureChainGrows(c, walk[k - 1], walk[k]);
      }
    }
  }

  /** Without a lost flag the whole forward supersession closure of the seeds is followed,
      whatever headers are read on the way. */
  lemma NoFlagLostContinues(c: Context, d: Dependencies, t: Path)
    requires Covers(c, d) && NoFlagLost(c) && Superseded(c, t)
    ensures Continued(c, d, t)
  {
    var walk :| Forward(c, walk) && walk[|walk| - 1] == t;
    ForwardIsKept(c, walk, |walk| - 1);
    if SurelyChained(c, t) {
      SurelyChainedIsExpanded(c, d, t);
    }
  }

  /** The whole forward supersession closure is followed if and only if no flag is lost. */
  lemma ForwardClosureIffNoFlagLost(c: Context, d: Dependencies)
    requires Covers(c, d) && Within(c, d) && Settled(c)
    ensures (forall t :: Superseded(c, t) ==> Continued(c, d, t)) <==> NoFlagLost(c)
  {
    if NoFlagLost(c) {
      forall t | Superseded(c, t) ensures Continued(c, d, t) {
        NoFlagLostContinues(c, d, t);
      }
    } else {
      var s, r, t :| s in c.seeds && r in HeaderAt(c, s).supersedes && Names(c, s, r, t) && !Kept(c, t);
      assert SureStep(c, s, t);
      assert Forward(c, [s, t]);
      assert Superseded(c, t);
      ClosureIsExact(c, d, t);
      if Chained(c, t) {
        SettledChains(c, t);
      }
    }
  }

  /** A superseded record is named by one reference of its source, whatever the list. */
  ghost predicate OneSpelling(c: Context)
  {
    forall s, q, r, t ::
      (s in c.seeds && q in HeaderAt(c, s).supersedes && r in AllRefs(HeaderAt(c, s)) && MayName(c, s, q, t)
        && MayName(c, s, r, t))
      ==> q == r
  }

  /** One spelling per superseded target is enough for that. */
  lemma OneSpellingLosesNothing(c: Context)
    requires OneSpelling(c)
    ensures NoFlagLost(c)
  {
    forall s, r, t | s in c.seeds && r in HeaderAt(c, s).supersedes && Names(c, s, r, t) ensures Kept(c, t) {
      OneSpellingCarries(c, s, r, t);
      assert SureChain(c, [s, t]);
    }
  }

  lemma OneSpellingCarries(c: Context, s: Path, r: string, t: Path)
    requires OneSpelling(c) && s in c.seeds && r in HeaderAt(c, s).supersedes && Names(c, s, r, t)
    ensures Carried(c, s, t)
  {
    NamedMayBeNamed(c, s, r, t);
    forall x | x in AllRefs(HeaderAt(c, s)) && MayName(c, s, x, t) ensures x == r {
    }
  }

  lemma NamedMayBeNamed(c: Context, s: Path, r: string, t: Path)
    requires Names(c, s, r, t)
    ensures MayName(c, s, r, t)
  {
  }
}
