/** Preparing a batch: the projected check before and after the overlay, and the
    diagnostics that the overlay introduces. */
module Writing {
  import opened Records
  import opened Validation
  import opened Discovery
  import opened Closure
  import opened Locality
  import opened Adequacy
  import opened Equivalence

  // ---- Introduced diagnostics ----

  /** What is left of `proposed` when each baseline occurrence excuses one equal diagnostic. */
  ghost function Kept<T>(baseline: multiset<T>, proposed: seq<T>): seq<T>
  {
    if proposed == [] then []
    else if proposed[0] in baseline then Kept(baseline - multiset{proposed[0]}, proposed[1..])
    else [proposed[0]] + Kept(baseline, proposed[1..])
  }

  ghost predicate Subsequence<T>(a: seq<T>, b: seq<T>)
  {
    a == [] || (b != [] && ((a[0] == b[0] && Subsequence(a[1..], b[1..])) || Subsequence(a, b[1..])))
  }

  lemma {:induction false} KeptIsSubsequence<T>(baseline: multiset<T>, proposed: seq<T>)
    ensures Subsequence(Kept(baseline, proposed), proposed)
  {
    if proposed != [] {
      if proposed[0] in baseline {
        KeptIsSubsequence(baseline - multiset{proposed[0]}, proposed[1..]);
      } else {
        KeptIsSubsequence(baseline, proposed[1..]);
        assert Kept(baseline, proposed)[1..] == Kept(baseline, proposed[1..]);
      }
    }
  }

  /** The keys kept are exactly the proposed ones minus the baseline ones, counted. */
  lemma {:induction false} KeptIsDifference<T>(baseline: multiset<T>, proposed: seq<T>)
    ensures multiset(Kept(baseline, proposed)) == multiset(proposed) - baseline
  {
    if proposed != [] {
      var head, rest := proposed[0], proposed[1..];
      assert proposed == [head] + rest;
      if head in baseline {
        KeptIsDifference(baseline - multiset{head}, rest);
      } else {
        KeptIsDifference(baseline, rest);
      }
    }
  }

  lemma IntroducesNothing<T>(baseline: multiset<T>, proposed: seq<T>)
    ensures Kept(baseline, proposed) == [] <==> multiset(proposed) <= baseline
  {
    KeptIsDifference(baseline, proposed);
    var kept := Kept(baseline, proposed);
    if kept == [] {
      assert multiset(proposed) - baseline == multiset{};
      forall x ensures multiset(proposed)[x] <= baseline[x] {
        assert (multiset(proposed) - baseline)[x] == 0;
      }
    } else {
      assert kept[0] in multiset(kept);
      assert (multiset(proposed) - baseline)[kept[0]] > 0;
    }
  }

  method CountBaseline(baseline: seq<Diagnostic>) returns (remaining: map<Diagnostic, nat>)
    ensures forall d :: (if d in remaining then remaining[d] else 0) == multiset(baseline)[d]
  {
    remaining := map[];
    for i := 0 to |baseline|
      invariant forall d :: (if d in remaining then remaining[d] else 0) == multiset(baseline[..i])[d]
    {
      assert baseline[..i + 1] == baseline[..i] + [baseline[i]];
      var d := baseline[i];
      remaining := remaining[d := (if d in remaining then remaining[d] else 0) + 1];
    }
    assert baseline[..|baseline|] == baseline;
  }

  method IntroducedDiagnostics(baseline: seq<Diagnostic>, proposed: seq<Diagnostic>) returns (r: seq<Diagnostic>)
    ensures r == Kept(multiset(baseline), proposed)
    ensures Subsequence(r, proposed) && multiset(r) == multiset(proposed) - multiset(baseline)
    ensures r == [] <==> multiset(proposed) <= multiset(baseline)
  {
    var remaining := CountBaseline(baseline);
    ghost var left := multiset(baseline);
    r := [];
    for i := 0 to |proposed|
      invariant forall d :: (if d in remaining then remaining[d] else 0) == left[d]
      invariant r + Kept(left, proposed[i..]) == Kept(multiset(baseline), proposed)
    {
      var d := proposed[i];
      assert proposed[i..][1..] == proposed[i + 1..];
      var count := if d in remaining then remaining[d] else 0;
      if count == 0 {
        r := r + [d];
      } else {
        remaining := remaining[d := count - 1];
        left := left - multiset{d};
      }
    }
    assert Kept(left, proposed[|proposed|..]) == [];
    KeptIsSubsequence(multiset(baseline), proposed);
    KeptIsDifference(multiset(baseline), proposed);
    IntroducesNothing(multiset(baseline), proposed);
  }

  // ---- The projection ----

  predicate Reportable(validation: set<Path>, d: Diagnostic)
  {
    d.path in validation || d.Duplicate?
  }

  /** Cross-validates the given files and keeps what concerns validated paths. */
  method Project(w: World, files: Entries, validation: set<Path>) returns (ds: seq<Diagnostic>)
    requires Coherent(w) && WellFormed(w, files)
    ensures forall d :: multiset(ds)[d] == if Reportable(validation, d) then Multiplicity(w, files, d) else 0
  {
    var all := CrossValidate(w, files);
    ds := [];
    for i := 0 to |all|
      invariant forall d :: multiset(ds)[d] == if Reportable(validation, d) then multiset(all[..i])[d] else 0
    {
      assert all[..i + 1] == all[..i] + [all[i]];
      if Reportable(validation, all[i]) {
        ds := ds + [all[i]];
      }
    }
    assert all[..|all|] == all;
  }

  /** How much more often the projected check reports `x` after the batch. */
  ghost function Introduced(b: Batch, x: Diagnostic): nat
  {
    var before, after := LocalMultiplicity(b, false, x), LocalMultiplicity(b, true, x);
    if after > before then after - before else 0
  }

  /** The check of a batch against the files captured for it. */
  method CheckBatch(w: World, ghost e: Entries, files: Entries, changes: Overlay, d: Dependencies)
    returns (introduced: seq<Diagnostic>)
    requires Sound(Batch(w, e, changes, d)) && changes.Keys <= d.paths
    requires files == Restrict(e, d.paths)
    ensures introduced == [] <==> LocallyClean(Batch(w, e, changes, d))
    ensures forall x :: multiset(introduced)[x] == Introduced(Batch(w, e, changes, d), x)
  {
    ghost var b := Batch(w, e, changes, d);
    var before, after := files, Apply(files, changes);
    assert before == LocalSide(b, false) && after == LocalSide(b, true);
    RestrictWellFormed(w, e, d.paths);
    RestrictWellFormed(w, Apply(e, changes), d.paths);
    var baseline := Project(w, before, d.validationPaths);
    var proposed := Project(w, after, d.validationPaths);
    introduced := IntroducedDiagnostics(baseline, proposed);
    forall x ensures multiset(baseline)[x] == LocalMultiplicity(b, false, x)
             ensures multiset(proposed)[x] == LocalMultiplicity(b, true, x) {
    }
    CleanIsContained(b, multiset(baseline), multiset(proposed));
  }

  lemma RestrictWellFormed(w: World, e: Entries, paths: set<Path>)
    requires WellFormed(w, e)
    ensures WellFormed(w, Restrict(e, paths))
  {
  }

  lemma CleanIsContained(b: Batch, baseline: multiset<Diagnostic>, proposed: multiset<Diagnostic>)
    requires forall x :: baseline[x] == LocalMultiplicity(b, false, x)
    requires forall x :: proposed[x] == LocalMultiplicity(b, true, x)
    ensures proposed <= baseline <==> LocallyClean(b)
    ensures forall x :: (proposed - baseline)[x] == Introduced(b, x)
  {
    if proposed <= baseline {
      forall x ensures LocalMultiplicity(b, true, x) <= LocalMultiplicity(b, false, x) {
        assert proposed[x] <= baseline[x];
      }
    }
    if LocallyClean(b) {
      forall x ensures proposed[x] <= baseline[x] {
        assert LocalMultiplicity(b, true, x) <= LocalMultiplicity(b, false, x);
      }
    }
  }

  /** Discovers, projects and compares: the preview of a record batch. When no seed loses a
      flag, a clean preview keeps a store in order; when, besides, every record with a touched
      identity is checked, it is clean exactly when the batch introduces nothing in its
      investigations. */
  method PrepareBatch(w: World, e: Entries, changes: Overlay) returns (introduced: seq<Diagnostic>, d: Dependencies)
    requires Coherent(w) && Writable(w, changes) && WellFormed(w, e) && WellFormed(w, Apply(e, changes))
    ensures Discovered(w, e, changes, d)
    ensures introduced == [] <==> LocallyClean(Batch(w, e, changes, d))
    ensures forall x :: multiset(introduced)[x] == Introduced(Batch(w, e, changes, d), x)
    ensures Good(w, e) && NoFlagLost(ContextOf(w, e, changes)) && introduced == [] ==> Good(w, Apply(e, changes))
    ensures Spelled(Batch(w, e, changes, d)) && NoHiddenNamesake(Batch(w, e, changes, d)) ==>
      (introduced == [] <==> WhollyClean(Batch(w, e, changes, d)))
  {
    d := Discover(w, e, changes);
    ghost var b := Batch(w, e, changes, d);
    ValidatedIsExpanded(b);
    introduced := CheckBatch(w, e, Restrict(e, d.paths), changes, d);
    if Spelled(b) && NoHiddenNamesake(b) {
      ProjectedCheckIsExact(b);
    }
    if Good(w, e) && NoFlagLost(ContextOf(w, e, changes)) && introduced == [] {
      CleanPreviewIsSafe(b);
    }
  }
}
