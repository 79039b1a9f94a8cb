/** The records a selection depends on: a worklist over reference candidates, and the least
    set that is closed under them. */
module Observation {
  import opened Wrappers
  import opened Records
  import opened Ordering

  /** The files on disk and which of them are regular: the others have no header, and no
      directory listing shows them. */
  datatype Disk = Disk(w: World, e: Entries, regular: set<Path>)

  /** The references of a header, each with the flag of a decision reference. */
  function References(r: Record): seq<(string, bool)>
  {
    Tagged(r.decisionRefs, true) + Tagged(WorkRefs(r), false)
  }

  function Tagged(references: seq<string>, decision: bool): (r: seq<(string, bool)>)
    ensures |r| == |references| && forall i :: 0 <= i < |r| ==> r[i] == (references[i], decision)
  {
    seq(|references|, i requires 0 <= i < |references| => (references[i], decision))
  }

  /** Only regular tickets and epics are expanded. */
  predicate Expandable(d: Disk, p: Path)
  {
    p in d.e && p in d.regular && IsWork(d.w.facts(p).kind)
  }

  /** A decision file is named by its name up to a hyphen. */
  ghost predicate NamedUpToHyphen(stem: string, r: string)
  {
    stem == r || exists rest :: stem == r + "-" + rest
  }

  /** A reference of `s` names `t`: by its path, when that is a ticket, an epic or a decision of
      the project; otherwise a work item by its place in the investigation, and a decision by
      its file name, in the investigation or in the project. */
  ghost predicate Designates(d: Disk, s: Path, r: string, decision: bool, t: Path)
  {
    var from, to := d.w.facts(s), d.w.facts(t);
    && d.w.safe(r)
    && if '/' in r then
         t == r && from.project.Some? && to.project == from.project
           && to.kind in {Some(Ticket), Some(Epic), Some(Decision)}
       else
         && from.scope.Some?
         && if !decision then t in d.w.conventional(from.scope.value, r)
            else
              && t in d.e && t in d.regular && to.kind == Some(Decision) && NamedUpToHyphen(d.w.stem(t), r)
              && (to.scope == from.scope || (to.scope.None? && to.project == from.project))
  }

  /** `s` names `t`, whether or not a file is there. */
  ghost predicate Points(d: Disk, s: Path, t: Path)
  {
    && s in d.e
    && ((exists r :: r in d.e[s].decisionRefs && Designates(d, s, r, true, t))
        || (exists r :: (r in d.e[s].relatedTickets || r in d.e[s].supersedes || r in d.e[s].supersededBy)
                        && Designates(d, s, r, false, t)))
  }

  ghost predicate PointsBy(d: Disk, s: Path, reference: (string, bool), t: Path)
  {
    t in Candidates(d.w, Restrict(d.e, d.regular), s, reference.0, reference.1)
  }

  lemma NamedIsMatched(stem: string, r: string)
    ensures NamedUpToHyphen(stem, r) <==> NameMatches(stem, r)
  {
    if NameMatches(stem, r) && stem != r {
      assert stem == r + "-" + stem[|r| + 1..];
    }
    if rest :| stem == r + "-" + rest {
      assert stem[|r|] == '-';
    }
  }

  lemma CandidateIsDesignated(d: Disk, s: Path, reference: (string, bool), t: Path)
    ensures PointsBy(d, s, reference, t) <==> Designates(d, s, reference.0, reference.1, t)
  {
    NamedIsMatched(d.w.stem(t), reference.0);
  }

  /** The loop over the references meets exactly what the record names. */
  lemma PointsByReference(d: Disk, s: Path, t: Path)
    requires s in d.e
    ensures Points(d, s, t) <==>
      exists i :: 0 <= i < |References(d.e[s])| && PointsBy(d, s, References(d.e[s])[i], t)
  {
    var r, all := d.e[s], References(d.e[s]);
    forall x, decision
      ensures (x, decision) in all <==>
        if decision then x in r.decisionRefs
        else x in r.relatedTickets || x in r.supersedes || x in r.supersededBy
    {
      TaggedHolds(r.decisionRefs, true, x, decision);
      TaggedHolds(WorkRefs(r), false, x, decision);
    }
    forall x, decision ensures PointsBy(d, s, (x, decision), t) <==> Designates(d, s, x, decision, t) {
      CandidateIsDesignated(d, s, (x, decision), t);
    }
    if i :| 0 <= i < |all| && PointsBy(d, s, all[i], t) {
      assert all[i] == (all[i].0, all[i].1) && all[i] in all;
      assert Designates(d, s, all[i].0, all[i].1, t);
    }
  }

  lemma TaggedHolds(references: seq<string>, tag: bool, x: string, decision: bool)
    ensures (x, decision) in Tagged(references, tag) <==> x in references && decision == tag
  {
    if x in references {
      var i :| 0 <= i < |references| && references[i] == x;
      assert Tagged(references, tag)[i] == (x, tag);
    }
  }

  /** A chain of references from a selected record; every source on it is expanded. */
  ghost predicate Chain(d: Disk, selected: set<Path>, walk: seq<Path>)
  {
    && |walk| > 1 && walk[0] in selected
    && forall i :: 0 < i < |walk| ==> Follows(d, walk[i - 1], walk[i])
  }

  ghost predicate Reached(d: Disk, selected: set<Path>, p: Path)
  {
    exists walk :: Chain(d, selected, walk) && walk[|walk| - 1] == p
  }

  /** The records that the selection depends on. */
  ghost function Support(d: Disk, selected: set<Path>): set<Path>
  {
    set p | p in d.e && p !in selected && Reached(d, selected, p)
  }

  /** A step of a chain: its source is a regular ticket or epic. */
  ghost predicate Follows(d: Disk, s: Path, t: Path)
  {
    s in d.regular && d.w.facts(s).kind in {Some(Ticket), Some(Epic)} && Points(d, s, t)
  }

  lemma ChainGrows(d: Disk, selected: set<Path>, walk: seq<Path>, t: Path)
    requires Chain(d, selected, walk) && Follows(d, walk[|walk| - 1], t)
    ensures Chain(d, selected, walk + [t])
  {
    var longer := walk + [t];
    forall i | 0 < i < |longer| ensures Follows(d, longer[i - 1], longer[i]) {
      if i < |walk| {
        assert Follows(d, walk[i - 1], walk[i]);
      }
    }
  }

  lemma ReachedNext(d: Disk, selected: set<Path>, s: Path, t: Path)
    requires Follows(d, s, t) && (s in selected || Reached(d, selected, s))
    ensures Reached(d, selected, t)
  {
    if s in selected {
      assert Chain(d, selected, [s, t]);
    } else {
      var walk :| Chain(d, selected, walk) && walk[|walk| - 1] == s;
      ChainGrows(d, selected, walk, t);
      assert (walk + [t])[|walk + [t]| - 1] == t;
    }
  }

  // ---- The worklist ----

  /** What has been seen: the selection, the support found so far, and names without a file. */
  ghost predicate Sound(d: Disk, selected: set<Path>, seen: set<Path>, support: set<Path>)
  {
    && selected <= seen
    && (forall p :: p in seen ==> p in selected || Reached(d, selected, p))
    && (forall p :: p in support <==> p in seen && p in d.e && p !in selected)
  }

  /** Everything expandable that has been seen is pending or has been expanded, once. */
  ghost predicate Scheduled(d: Disk, seen: set<Path>, pending: seq<Path>, done: set<Path>)
  {
    && (forall p :: p in pending || p in done ==> Expandable(d, p) && p in seen)
    && (forall p :: p in seen && Expandable(d, p) ==> p in pending || p in done)
    && (forall i :: 0 <= i < |pending| ==> pending[i] !in done)
    && (forall i, j :: 0 <= i < j < |pending| ==> pending[i] != pending[j])
  }

  ghost predicate Closed(d: Disk, seen: set<Path>, done: set<Path>)
  {
    forall s, t :: s in done && Points(d, s, t) ==> t in seen
  }

  /** One candidate path. */
  method Meet(d: Disk, ghost selected: set<Path>, ghost done: set<Path>, seen: set<Path>, pending: seq<Path>,
              support: set<Path>, p: Path)
    returns (seen': set<Path>, pending': seq<Path>, support': set<Path>)
    requires Sound(d, selected, seen, support) && Scheduled(d, seen, pending, done) && Reached(d, selected, p)
    ensures Sound(d, selected, seen', support') && Scheduled(d, seen', pending', done)
    ensures seen' == seen + {p}
  {
    seen', pending', support' := seen + {p}, pending, support;
    if p in seen || p !in d.e {
      return;
    }
    if Expandable(d, p) {
      pending' := pending + [p];
    }
    support' := support + {p};
  }

  /** One reference: all its candidates. */
  method Follow(d: Disk, ghost selected: set<Path>, ghost done: set<Path>, s: Path, reference: (string, bool),
                seen: set<Path>, pending: seq<Path>, support: set<Path>)
    returns (seen': set<Path>, pending': seq<Path>, support': set<Path>)
    requires Sound(d, selected, seen, support) && Scheduled(d, seen, pending, done)
    requires forall t :: PointsBy(d, s, reference, t) ==> Reached(d, selected, t)
    ensures Sound(d, selected, seen', support') && Scheduled(d, seen', pending', done)
    ensures seen <= seen' && forall t :: PointsBy(d, s, reference, t) ==> t in seen'
  {
    seen', pending', support' := seen, pending, support;
    var order := SortedElements(Candidates(d.w, Restrict(d.e, d.regular), s, reference.0, reference.1));
    for i := 0 to |order|
      invariant Sound(d, selected, seen', support') && Scheduled(d, seen', pending', done)
      invariant seen <= seen' && forall k :: 0 <= k < i ==> order[k] in seen'
    {
      assert order[i] in order && PointsBy(d, s, reference, order[i]);
      seen', pending', support' := Meet(d, selected, done, seen', pending', support', order[i]);
    }
    forall t | PointsBy(d, s, reference, t) ensures t in seen' {
      assert t in order;
    }
  }

  /** One source: all its references. */
  method Expand(d: Disk, ghost selected: set<Path>, ghost done: set<Path>, s: Path, seen: set<Path>, pending: seq<Path>,
                support: set<Path>)
    returns (seen': set<Path>, pending': seq<Path>, support': set<Path>)
    requires Sound(d, selected, seen, support) && Scheduled(d, seen, pending, done)
    requires Expandable(d, s) && (s in selected || Reached(d, selected, s))
    ensures Sound(d, selected, seen', support') && Scheduled(d, seen', pending', done)
    ensures seen <= seen' && forall t :: Points(d, s, t) ==> t in seen'
  {
    seen', pending', support' := seen, pending, support;
    var references := References(d.e[s]);
    for i := 0 to |references|
      invariant Sound(d, selected, seen', support') && Scheduled(d, seen', pending', done)
      invariant seen <= seen' && forall k, t :: 0 <= k < i && PointsBy(d, s, references[k], t) ==> t in seen'
    {
      forall t | PointsBy(d, s, references[i], t) ensures Reached(d, selected, t) {
        PointsByReference(d, s, t);
        ReachedNext(d, selected, s, t);
      }
      seen', pending', support' := Follow(d, selected, done, s, references[i], seen', pending', support');
    }
    forall t | Points(d, s, t) ensures t in seen' {
      PointsByReference(d, s, t);
    }
  }

  /** The sources of the selection, in path order. */
  method Initial(d: Disk, selected: set<Path>) returns (pending: seq<Path>)
    ensures Scheduled(d, selected, pending, {})
  {
    pending := [];
    var order := SortedElements(selected);
    for i := 0 to |order|
      invariant forall p :: p in pending <==> p in order[..i] && Expandable(d, p)
      invariant forall i, j :: 0 <= i < j < |pending| ==> pending[i] != pending[j]
    {
      assert order[..i + 1] == order[..i] + [order[i]];
      if Expandable(d, order[i]) {
        forall k | 0 <= k < i ensures order[k] != order[i] {
          LtAsymmetric(order[k], order[i]);
        }
        assert forall k :: 0 <= k < |pending| ==> pending[k] in pending;
        pending := pending + [order[i]];
      }
    }
    assert order[..|order|] == order;
  }

  /** Returns exactly the existing records, not yet selected, that the selection reaches. */
  method ObserveDependencies(d: Disk, selected: set<Path>) returns (support: set<Path>)
    ensures support == Support(d, selected)
  {
    var seen := selected;
    var pending := Initial(d, selected);
    support := {};
    ghost var done: set<Path> := {};
    while pending != []
      invariant Sound(d, selected, seen, support) && Scheduled(d, seen, pending, done) && Closed(d, seen, done)
      decreases d.e.Keys - done
    {
      var s := pending[0];
      assert pending == [s] + pending[1..] && s in pending;
      done := done + {s};
      seen, pending, support := Expand(d, selected, done, s, seen, pending[1..], support);
    }
    forall p | Reached(d, selected, p) ensures p in seen {
      var walk :| Chain(d, selected, walk) && walk[|walk| - 1] == p;
      WalkIsSeen(d, selected, seen, done, walk, |walk| - 1);
    }
  }

  /** With nothing pending, every chain has been followed. */
  lemma {:induction false} WalkIsSeen(d: Disk, selected: set<Path>, seen: set<Path>, done: set<Path>, walk: seq<Path>,
                                      k: nat)
    requires selected <= seen && Scheduled(d, seen, [], done) && Closed(d, seen, done)
    requires Chain(d, selected, walk) && k < |walk|
    ensures walk[k] in seen
  {
    if k > 0 {
      WalkIsSeen(d, selected, seen, done, walk, k - 1);
      assert Follows(d, walk[k - 1], walk[k]);
    }
  }

  /** Closed under the references of its expandable members. */
  ghost predicate Fixed(d: Disk, selected: set<Path>, x: set<Path>)
  {
    forall s, t ::
      (s in selected || s in x) && Follows(d, s, t) && t in d.e && t !in selected ==> t in x
  }

  /** The support is the least such set. */
  lemma SupportIsLeastFixpoint(d: Disk, selected: set<Path>, x: set<Path>)
    ensures Fixed(d, selected, Support(d, selected))
    ensures Fixed(d, selected, x) ==> Support(d, selected) <= x
  {
    forall s, t | (s in selected || s in Support(d, selected)) && Follows(d, s, t)
      ensures Reached(d, selected, t)
    {
      ReachedNext(d, selected, s, t);
    }
    if Fixed(d, selected, x) {
      forall p | p in Support(d, selected) ensures p in x {
        var walk :| Chain(d, selected, walk) && walk[|walk| - 1] == p;
        WalkIsInside(d, selected, x, walk, |walk| - 1);
      }
    }
  }

  lemma {:induction false} WalkIsInside(d: Disk, selected: set<Path>, x: set<Path>, walk: seq<Path>, k: nat)
    requires Fixed(d, selected, x) && Chain(d, selected, walk) && 0 <= k < |walk|
    ensures walk[k] in selected || walk[k] in x || walk[k] !in d.e
  {
    if k > 0 {
      WalkIsInside(d, selected, x, walk, k - 1);
      assert Follows(d, walk[k - 1], walk[k]);
    }
  }
}
