/** The projected check introduces nothing exactly when validating every record of the
    changed investigations introduces nothing. */
module Equivalence {
  import opened Wrappers
  import opened Records
  import opened Ordering
  import opened Validation
  import opened Discovery
  import opened Closure
  import opened Locality
  import opened Adequacy

  /** How often the check of the changed investigations, over the whole store, reports `d`. */
  ghost function WholeMultiplicity(b: Batch, after: bool, d: Diagnostic): nat
  {
    if InScope(b, d.path) then Multiplicity(b.w, Side(b, after), d) else 0
  }

  ghost predicate WhollyClean(b: Batch)
  {
    forall d :: WholeMultiplicity(b, true, d) <= WholeMultiplicity(b, false, d)
  }

  ghost predicate MetadataReferrerChecked(b: Batch, x: Entries, s: Path)
  {
    Metadata(b.w, b.e, s) && s !in b.changes && InScope(b, s) ==>
      forall r, z :: z in b.changes && r in b.e[s].refs && Eligible(b.w, x, s, r, AsMetadata, z)
        ==> s in b.d.validationPaths
  }

  /** Adequacy for every class of diagnostics. */
  ghost predicate FullyAdequate(b: Batch)
  {
    && Adequate(b)
    && (forall after, s :: MetadataReferrerChecked(b, Side(b, after), s))
    && (forall after, t, z :: Namesakes(b, Side(b, after), t, z) ==> t in b.d.paths)
  }

  /** The header of `t` states a written identity of its scope, or refers to a written record. */
  ghost predicate HeaderHits(b: Batch, t: Path)
    requires t in b.e
  {
    var written := WrittenTargets(b.w, b.e, b.changes);
    Incoming(b.w, written, t, RawHeader(b.e[t])) || SameIdentity(b.w, written, t, RawHeader(b.e[t]))
  }

  /** Every record with an identity the batch touches is among the checked files. A decision
      is identified by its file name, but discovery reads its header. */
  ghost predicate NoHiddenNamesake(b: Batch)
  {
    forall after, t, z :: Namesakes(b, Side(b, after), t, z) ==> t in b.d.paths
  }

  lemma NamesakeIsKnown(b: Batch, after: bool, t: Path, z: Path)
    requires Sound(b) && Namesakes(b, Side(b, after), t, z)
    ensures var c := ContextOf(b.w, b.e, b.changes); t in c.known && c.known[t] == RawHeader(b.e[t])
  {
    assert WellPlaced(b.w, t, b.e[t]);
    assert b.w.facts(z).scope in Scopes(b.w, b.changes);
  }

  /** A namesake is validated if and only if its header hits a written target. */
  lemma NamesakeIsValidatedIff(b: Batch, after: bool, t: Path, z: Path)
    requires Sound(b) && Discovered(b.w, b.e, b.changes, b.d) && Namesakes(b, Side(b, after), t, z)
    ensures t in b.d.validationPaths <==> HeaderHits(b, t)
  {
    NamesakeIsKnown(b, after, t, z);
  }

  /** A namesake escapes the check if and only if its header hits nothing written and no seed
      refers to it or leads to it. */
  lemma NamesakeEscapesIff(b: Batch, after: bool, t: Path, z: Path)
    requires Sound(b) && Discovered(b.w, b.e, b.changes, b.d) && Namesakes(b, Side(b, after), t, z)
    requires Settled(ContextOf(b.w, b.e, b.changes)) && t != ACTIVATION
    ensures var c := ContextOf(b.w, b.e, b.changes);
      t !in b.d.paths <==> !HeaderHits(b, t) && !Neighbour(c, t) && !Chained(c, t)
  {
    NamesakeIsValidatedIff(b, after, t, z);
    DiscoveredClosure(b.w, b.e, b.changes, b.d, t);
  }

  lemma DiscoveredClosure(w: World, e: Entries, changes: Overlay, d: Dependencies, t: Path)
    requires Discovered(w, e, changes, d) && Settled(ContextOf(w, e, changes)) && t != ACTIVATION
    ensures var c := ContextOf(w, e, changes); t in d.paths <==>
      t in d.validationPaths || Neighbour(c, t) || Chained(c, t)
  {
    ClosureIsExact(ContextOf(w, e, changes), d, t);
  }

  lemma MetadataReferrersAreChecked(b: Batch, after: bool, s: Path)
    requires Sound(b) && Discovered(b.w, b.e, b.changes, b.d)
    ensures MetadataReferrerChecked(b, Side(b, after), s)
  {
    var x := Side(b, after);
    if Metadata(b.w, b.e, s) && s !in b.changes && InScope(b, s) {
      forall r, z | z in b.changes && r in b.e[s].refs && Eligible(b.w, x, s, r, AsMetadata, z)
        ensures s in b.d.validationPaths
      {
        assert WellPlaced(b.w, z, x[z]) && WellPlaced(b.w, s, b.e[s]);
        WrittenIdentity(b, after, z);
        var known := Known(b.w, b.e, b.changes);
        assert s in known && r in AllRefs(known[s]);
        assert Incoming(b.w, WrittenTargets(b.w, b.e, b.changes), s, known[s]) by {
          var target := (z, x[z].identity);
          assert target in WrittenTargets(b.w, b.e, b.changes);
          assert Matches(b.w, b.w.facts(s), r, target.0, target.1, b.w.facts(target.0));
        }
      }
    }
  }

  lemma DiscoveredIsFullyAdequate(b: Batch)
    requires Sound(b) && Discovered(b.w, b.e, b.changes, b.d) && Spelled(b) && NoHiddenNamesake(b)
    ensures FullyAdequate(b)
  {
    DiscoveredIsAdequate(b);
    forall after, s ensures MetadataReferrerChecked(b, Side(b, after), s) {
      MetadataReferrersAreChecked(b, after, s);
    }
  }

  // ---- References of work items ----

  /** A validated work item is reported alike by both checks. */
  lemma ValidatedWorkAlike(b: Batch, after: bool, d: Diagnostic)
    requires Sound(b) && FullyAdequate(b) && d.path in b.d.validationPaths
    requires d.UnresolvedDecision? || d.UnresolvedWork?
    ensures LocalMultiplicity(b, after, d) == WholeMultiplicity(b, after, d)
  {
    if d.UnresolvedDecision? {
      ValidatedDecisionAlike(b, after, d.path, d.reference);
    } else {
      ValidatedReferenceAlike(b, after, d.path, d.reference);
    }
  }

  lemma ValidatedDecisionAlike(b: Batch, after: bool, s: Path, r: string)
    requires Sound(b) && FullyAdequate(b) && s in b.d.validationPaths
    ensures Multiplicity(b.w, LocalSide(b, after), UnresolvedDecision(s, r))
      == Multiplicity(b.w, Side(b, after), UnresolvedDecision(s, r))
  {
    if WorkItem(b.w, Side(b, after), s) && r in Side(b, after)[s].decisionRefs {
      DecisionsSame(b, after, s, r);
    }
  }

  lemma ValidatedReferenceAlike(b: Batch, after: bool, s: Path, r: string)
    requires Sound(b) && FullyAdequate(b) && s in b.d.validationPaths
    ensures Multiplicity(b.w, LocalSide(b, after), UnresolvedWork(s, r))
      == Multiplicity(b.w, Side(b, after), UnresolvedWork(s, r))
  {
    if WorkItem(b.w, Side(b, after), s) && r in WorkRefs(Side(b, after)[s]) {
      UnresolvedSame(b, after, s, r);
    }
  }

  lemma UnvalidatedReferenceUnchanged(b: Batch, s: Path, r: string)
    requires Sound(b) && FullyAdequate(b) && s !in b.d.validationPaths && InScope(b, s)
    requires WorkItem(b.w, b.e, s) && r in WorkRefs(b.e[s])
    ensures Unresolved(b.w, After(b), s, r, AsWork) <==> Unresolved(b.w, b.e, s, r, AsWork)
  {
    assert ReferrerChecked(b, Side(b, true), s) && ReferrerChecked(b, Side(b, false), s);
    UntouchedUnresolved(b, s, r, AsWork);
  }

  lemma UnvalidatedRecordUnchanged(b: Batch, s: Path)
    requires FullyAdequate(b) && s !in b.d.validationPaths
    ensures s in b.e <==> s in After(b)
    ensures s in b.e ==> b.e[s] == After(b)[s]
  {
  }

  /** A work item that is not validated is reported alike before and after. */
  lemma UnvalidatedWorkUnchanged(b: Batch, d: Diagnostic)
    requires Sound(b) && FullyAdequate(b) && d.path !in b.d.validationPaths && InScope(b, d.path)
    requires d.UnresolvedDecision? || d.UnresolvedWork?
    ensures Multiplicity(b.w, After(b), d) == Multiplicity(b.w, b.e, d)
  {
    UnvalidatedRecordUnchanged(b, d.path);
    if d.UnresolvedDecision? {
      DecisionReferenceUnchanged(b, d.path, d.reference);
    } else if WorkItem(b.w, b.e, d.path) && d.reference in WorkRefs(b.e[d.path]) {
      UnvalidatedReferenceUnchanged(b, d.path, d.reference);
    }
  }

  // ---- Evidence and review metadata ----

  /** Some written record holds the identity `id` in the scope of `s`. */
  ghost predicate Touched(b: Batch, s: Path, id: Option<string>)
  {
    exists z, after :: z in b.changes && z in Side(b, after) && Side(b, after)[z].governed
      && Side(b, after)[z].identity == id && b.w.facts(z).scope == b.w.facts(s).scope
  }

  /** Every holder of a touched identity is checked, on both sides. */
  lemma TouchedHoldersChecked(b: Batch, after: bool, s: Path, t: Path)
    requires FullyAdequate(b) && t in Side(b, after) && Side(b, after)[t].governed && Side(b, after)[t].identity.Some?
    requires b.w.facts(t).scope == b.w.facts(s).scope && Touched(b, s, Side(b, after)[t].identity)
    ensures t in b.d.paths
  {
    if t !in b.changes {
      var z, side :| z in b.changes && z in Side(b, side) && Side(b, side)[z].governed
        && Side(b, side)[z].identity == Side(b, after)[t].identity && b.w.facts(z).scope == b.w.facts(s).scope;
      assert Namesakes(b, Side(b, side), t, z);
    }
  }

  lemma TouchedMetadataAlike(b: Batch, after: bool, s: Path, r: string)
    requires Sound(b) && FullyAdequate(b) && Touched(b, s, Some(r))
    ensures Unresolved(b.w, LocalSide(b, after), s, r, AsMetadata) <==>
      Unresolved(b.w, Side(b, after), s, r, AsMetadata)
  {
    forall t | Eligible(b.w, Side(b, after), s, r, AsMetadata, t) ensures t in b.d.paths {
      TouchedHoldersChecked(b, after, s, t);
    }
    TargetsSame(b, after, s, r, AsMetadata);
    SameTargetsSameVerdict(b.w, LocalSide(b, after), Side(b, after), s, r, AsMetadata);
  }

  /** One reference: the two checks agree about it, or neither changes its mind. */
  lemma MetadataReferenceAlike(b: Batch, s: Path, r: string)
    requires Sound(b) && FullyAdequate(b)
    ensures (forall after :: Unresolved(b.w, LocalSide(b, after), s, r, AsMetadata) <==>
      Unresolved(b.w, Side(b, after), s, r, AsMetadata))
      || ((Unresolved(b.w, After(b), s, r, AsMetadata) <==> Unresolved(b.w, b.e, s, r, AsMetadata))
          && (Unresolved(b.w, LocalSide(b, true), s, r, AsMetadata) <==>
            Unresolved(b.w, LocalSide(b, false), s, r, AsMetadata)))
  {
    if Touched(b, s, Some(r)) {
      forall after ensures Unresolved(b.w, LocalSide(b, after), s, r, AsMetadata) <==>
        Unresolved(b.w, Side(b, after), s, r, AsMetadata) {
        TouchedMetadataAlike(b, after, s, r);
      }
    } else {
      UntouchedUnresolved(b, s, r, AsMetadata);
      UntouchedLocalTargets(b, s, r);
    }
  }

  lemma UntouchedLocalTargets(b: Batch, s: Path, r: string)
    requires !Touched(b, s, Some(r))
    ensures Unresolved(b.w, LocalSide(b, true), s, r, AsMetadata) <==>
      Unresolved(b.w, LocalSide(b, false), s, r, AsMetadata)
  {
    var l, m := LocalSide(b, true), LocalSide(b, false);
    forall t ensures t in Targets(b.w, l, s, r, AsMetadata) <==> t in Targets(b.w, m, s, r, AsMetadata) {
      if t in b.changes {
        assert !(t in Side(b, true) && Side(b, true)[t].governed && Side(b, true)[t].identity == Some(r)
                 && b.w.facts(t).scope == b.w.facts(s).scope);
        assert !(t in Side(b, false) && Side(b, false)[t].governed && Side(b, false)[t].identity == Some(r)
                 && b.w.facts(t).scope == b.w.facts(s).scope);
      }
    }
    SameTargetsSameVerdict(b.w, l, m, s, r, AsMetadata);
  }

  /** The unresolved references of one metadata list move by the same amount in both checks. */
  lemma {:induction false} MetadataDifference(b: Batch, s: Path, refs: seq<string>)
    requires Sound(b) && FullyAdequate(b)
    ensures UnresolvedCount(b.w, After(b), s, refs, AsMetadata) - UnresolvedCount(b.w, b.e, s, refs, AsMetadata)
      == UnresolvedCount(b.w, LocalSide(b, true), s, refs, AsMetadata) - UnresolvedCount(b.w, LocalSide(b, false), s,
        refs, AsMetadata)
  {
    if refs != [] {
      MetadataDifference(b, s, refs[..|refs| - 1]);
      MetadataReferenceAlike(b, s, refs[|refs| - 1]);
      assert Side(b, true) == After(b) && Side(b, false) == b.e;
    }
  }

  lemma {:induction false} UnvalidatedCountUnchanged(b: Batch, s: Path, refs: seq<string>)
    requires Sound(b) && FullyAdequate(b) && s !in b.d.validationPaths && InScope(b, s)
    requires Metadata(b.w, b.e, s) && forall r :: r in refs ==> r in b.e[s].refs
    ensures UnresolvedCount(b.w, After(b), s, refs, AsMetadata) == UnresolvedCount(b.w, b.e, s, refs, AsMetadata)
  {
    if refs != [] {
      UnvalidatedCountUnchanged(b, s, refs[..|refs| - 1]);
      assert MetadataReferrerChecked(b, Side(b, true), s) && MetadataReferrerChecked(b, Side(b, false), s);
      UntouchedUnresolved(b, s, refs[|refs| - 1], AsMetadata);
    }
  }

  /** An accepted diagnostic is one that did not become more frequent. */
  ghost predicate AcceptedAlike(b: Batch, d: Diagnostic)
  {
    (LocalMultiplicity(b, true, d) <= LocalMultiplicity(b, false, d))
    <==> (WholeMultiplicity(b, true, d) <= WholeMultiplicity(b, false, d))
  }

  lemma MetadataAlike(b: Batch, d: Diagnostic)
    requires Sound(b) && FullyAdequate(b) && d.UnresolvedMetadata?
    ensures AcceptedAlike(b, d)
  {
    var s := d.path;
    if Metadata(b.w, b.e, s) && s !in b.changes {
      if s in b.d.validationPaths {
        ValidatedMetadataAlike(b, s);
      } else if InScope(b, s) {
        UnvalidatedCountUnchanged(b, s, b.e[s].refs);
      }
    }
  }

  lemma ValidatedMetadataAlike(b: Batch, s: Path)
    requires Sound(b) && FullyAdequate(b) && s in b.d.validationPaths && Metadata(b.w, b.e, s) && s !in b.changes
    ensures AcceptedAlike(b, UnresolvedMetadata(s))
  {
    MetadataDifference(b, s, b.e[s].refs);
  }

  lemma WorkAlike(b: Batch, d: Diagnostic)
    requires Sound(b) && FullyAdequate(b) && (d.UnresolvedDecision? || d.UnresolvedWork?)
    ensures AcceptedAlike(b, d)
  {
    if d.path in b.d.validationPaths {
      ValidatedWorkAlike(b, true, d);
      ValidatedWorkAlike(b, false, d);
    } else if InScope(b, d.path) {
      UnvalidatedWorkUnchanged(b, d);
    }
  }

  // ---- Duplicate identities ----

  lemma TouchedPairAlike(b: Batch, after: bool, p: Path, q: Path)
    requires Sound(b) && FullyAdequate(b) && p in Side(b, after) && InScope(b, p)
    requires Touched(b, p, Side(b, after)[p].identity)
    ensures IsPrevious(b.w, Side(b, after), p, q) <==> IsPrevious(b.w, LocalSide(b, after), p, q)
  {
    var x, l := Side(b, after), LocalSide(b, after);
    forall t ensures SharesIdentity(b.w, x, p, t) <==> SharesIdentity(b.w, l, p, t) {
      if SharesIdentity(b.w, x, p, t) {
        SameDomain(b, p, t);
        TouchedHoldersChecked(b, after, p, t);
        TouchedHoldersChecked(b, after, p, p);
      }
    }
  }

  lemma SameDomain(b: Batch, p: Path, t: Path)
    requires Sound(b) && InScope(b, p) && Domain(b.w.facts(p)) == Domain(b.w.facts(t))
    ensures b.w.facts(t).scope == b.w.facts(p).scope
  {
    var z :| z in b.changes && b.w.facts(z).scope == b.w.facts(p).scope;
    assert b.w.facts(p).scope.Some?;
  }

  /** An untouched identity has the same holders on both sides. */
  lemma UntouchedPairUnchanged(b: Batch, p: Path, q: Path)
    requires Sound(b) && p !in b.changes && p in b.e && !Touched(b, p, b.e[p].identity)
    ensures IsPrevious(b.w, After(b), p, q) <==> IsPrevious(b.w, b.e, p, q)
    ensures IsPrevious(b.w, LocalSide(b, true), p, q) <==> IsPrevious(b.w, LocalSide(b, false), p, q)
  {
    forall t
      ensures SharesIdentity(b.w, After(b), p, t) <==> SharesIdentity(b.w, b.e, p, t)
      ensures SharesIdentity(b.w, LocalSide(b, true), p, t) <==> SharesIdentity(b.w, LocalSide(b, false), p, t)
    {
      if t in b.changes && SharesIdentity(b.w, Side(b, true), p, t) {
        WrittenSharesTouch(b, p, t, true);
      }
      if t in b.changes && SharesIdentity(b.w, Side(b, false), p, t) {
        WrittenSharesTouch(b, p, t, false);
      }
    }
  }

  lemma WrittenSharesTouch(b: Batch, p: Path, t: Path, after: bool)
    requires Sound(b) && p !in b.changes && p in b.e && t in b.changes
    requires SharesIdentity(b.w, Side(b, after), p, t)
    ensures Touched(b, p, b.e[p].identity)
  {
    assert InScope(b, t);
    SameDomain(b, t, p);
    assert t in Side(b, after) && Side(b, after)[t].identity == b.e[p].identity;
  }

  lemma DuplicateAlike(b: Batch, d: Diagnostic)
    requires Sound(b) && FullyAdequate(b) && d.Duplicate?
    ensures AcceptedAlike(b, d)
  {
    var p, q := d.path, d.previous;
    if p in b.changes {
      assert InScope(b, p);
      WrittenPairAlike(b, true, p, q);
      WrittenPairAlike(b, false, p, q);
    } else if p in b.e {
      if Touched(b, p, b.e[p].identity) {
        TouchedInScope(b, p);
        TouchedPairAlike(b, true, p, q);
        TouchedPairAlike(b, false, p, q);
      } else {
        UntouchedPairUnchanged(b, p, q);
      }
    }
  }

  lemma TouchedInScope(b: Batch, p: Path)
    requires p in b.e && Touched(b, p, b.e[p].identity)
    ensures InScope(b, p)
  {
  }

  lemma WrittenPairAlike(b: Batch, after: bool, p: Path, q: Path)
    requires Sound(b) && FullyAdequate(b) && p in b.changes
    ensures IsPrevious(b.w, Side(b, after), p, q) <==> IsPrevious(b.w, LocalSide(b, after), p, q)
  {
    var x := Side(b, after);
    if p in x && x[p].governed {
      assert InScope(b, p);
      assert Touched(b, p, x[p].identity);
      TouchedPairAlike(b, after, p, q);
    }
  }

  // ---- Cycles, and the theorem ----

  lemma NotCyclicAlike(b: Batch, d: Diagnostic)
    requires Sound(b) && FullyAdequate(b) && !d.SupersessionCycle?
    ensures AcceptedAlike(b, d)
  {
    if d.Duplicate? {
      DuplicateAlike(b, d);
    } else if d.UnresolvedMetadata? {
      MetadataAlike(b, d);
    } else {
      WorkAlike(b, d);
    }
  }

  lemma ValidatedCycleAlike(b: Batch, after: bool, d: Diagnostic)
    requires Sound(b) && FullyAdequate(b) && d.SupersessionCycle? && d.path in b.d.validationPaths
    ensures LocalMultiplicity(b, after, d) == WholeMultiplicity(b, after, d)
  {
    CyclicLocally(b, after, d.path);
  }

  lemma WholeImpliesLocal(b: Batch)
    requires Sound(b) && FullyAdequate(b) && WhollyClean(b)
    ensures LocallyClean(b)
  {
    forall d ensures LocalMultiplicity(b, true, d) <= LocalMultiplicity(b, false, d) {
      assert WholeMultiplicity(b, true, d) <= WholeMultiplicity(b, false, d);
      if !d.SupersessionCycle? {
        NotCyclicAlike(b, d);
      } else if d.path in b.d.validationPaths {
        ValidatedCycleAlike(b, true, d);
        ValidatedCycleAlike(b, false, d);
      }
    }
  }

  lemma LocalImpliesWhole(b: Batch)
    requires Sound(b) && FullyAdequate(b) && LocallyClean(b)
    ensures WhollyClean(b)
  {
    forall d ensures WholeMultiplicity(b, true, d) <= WholeMultiplicity(b, false, d) {
      if !d.SupersessionCycle? {
        assert LocalMultiplicity(b, true, d) <= LocalMultiplicity(b, false, d);
        NotCyclicAlike(b, d);
      } else if Cyclic(b.w, After(b), d.path) && !Cyclic(b.w, b.e, d.path) {
        var v := NewCycleIsValidated(b, d.path);
        NewCycleReported(b, v);
        CleanReportsNothing(b, SupersessionCycle(v));
      }
    }
  }

  /** No two records of one scope, or of a project outside every scope, share an identity. */
  ghost predicate AllUnique(w: World, x: Entries)
  {
    forall p, q :: SharesIdentity(w, x, p, q) ==> p == q
  }

  lemma SharersFailWholly(b: Batch, p: Path, q: Path)
    requires Sound(b) && AllUnique(b.w, b.e) && SharesIdentity(b.w, After(b), p, q) && p != q
    ensures !WhollyClean(b)
  {
    var d := NeighbourReported(b.w, After(b), p, q);
    assert SharesIdentity(b.w, After(b), d.path, d.previous) && Lt(d.previous, d.path);
    LtIrreflexive(d.path);
    assert Multiplicity(b.w, b.e, d) == 0;
    SharersInScope(b, p, q, d.path);
    assert WholeMultiplicity(b, true, d) == 1 && WholeMultiplicity(b, false, d) == 0;
  }

  lemma SharersInScope(b: Batch, p: Path, q: Path, t: Path)
    requires Sound(b) && AllUnique(b.w, b.e) && SharesIdentity(b.w, After(b), p, q) && p != q
    requires Domain(b.w.facts(t)) == Domain(b.w.facts(p))
    ensures InScope(b, t)
  {
    assert !SharesIdentity(b.w, b.e, p, q);
    assert p in b.changes || q in b.changes;
    SameDomain(b, if p in b.changes then p else q, t);
  }

  lemma ProjectedCheckIsExact(b: Batch)
    requires Sound(b) && Discovered(b.w, b.e, b.changes, b.d) && Spelled(b) && NoHiddenNamesake(b)
    ensures LocallyClean(b) <==> WhollyClean(b)
  {
    DiscoveredIsFullyAdequate(b);
    if LocallyClean(b) {
      LocalImpliesWhole(b);
    }
    if WhollyClean(b) {
      WholeImpliesLocal(b);
    }
  }

  /** Under the same conditions an accepted batch keeps all identities apart, those of silent
      decisions included. */
  lemma ExactKeepsUnique(b: Batch)
    requires Sound(b) && Discovered(b.w, b.e, b.changes, b.d) && Spelled(b) && NoHiddenNamesake(b)
    requires LocallyClean(b) && AllUnique(b.w, b.e)
    ensures AllUnique(b.w, After(b))
  {
    ProjectedCheckIsExact(b);
    forall p, q | SharesIdentity(b.w, After(b), p, q) ensures p == q {
      if p != q {
        SharersFailWholly(b, p, q);
      }
    }
  }
}
