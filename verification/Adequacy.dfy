/** Discovery returns adequate dependencies when no seed loses the flag of a supersession
    edge for good; in a valid store nothing else is needed. */
module Adequacy {
  import opened Wrappers
  import opened Records
  import opened Validation
  import opened Discovery
  import opened Closure
  import opened Locality

  ghost function WorkLists(h: Header): seq<string>
  {
    h.relatedTickets + h.supersedes + h.supersededBy
  }

  /** The paths the frontier loop has visited. */
  ghost function Walked(b: Batch): set<Path>
  {
    set x | x in b.d.expanded :: x.0
  }

  /** A bare reference is looked up as a decision as soon as it is listed as one, so that
      its places as a work item are missed. */
  ghost predicate OneRole(b: Batch, s: Path, r: string)
  {
    Explicit(r) || r !in HeaderAt(ContextOf(b.w, b.e, b.changes), s).decisionRefs
  }

  /** Work items of other investigations that the supersession closure walks through name
      what they supersede in one role. */
  ghost predicate SeparateOutside(b: Batch)
  {
    forall s, r ::
      s in Walked(b) && !InScope(b, s) && WorkItem(b.w, b.e, s) && r in b.e[s].supersedes ==> OneRole(b, s, r)
  }

  ghost predicate Spelled(b: Batch)
  {
    NoFlagLost(ContextOf(b.w, b.e, b.changes)) && SeparateOutside(b)
  }

  /** The same of every work reference on the way, for writers that meet other writers. */
  ghost predicate SeparateRoles(b: Batch)
  {
    forall after, s, r ::
      s in Walked(b) && WorkItem(b.w, Side(b, after), s) && r in WorkRefs(Side(b, after)[s]) ==> OneRole(b, s, r)
  }

  ghost predicate SpelledApart(b: Batch)
  {
    NoFlagLost(ContextOf(b.w, b.e, b.changes)) && SeparateRoles(b)
  }

  lemma HeaderHolds(b: Batch, after: bool, s: Path, r: string)
    requires Sound(b) && WorkItem(b.w, Side(b, after), s) && r in WorkRefs(Side(b, after)[s])
    ensures r in WorkLists(HeaderAt(ContextOf(b.w, b.e, b.changes), s))
    ensures r in Side(b, after)[s].supersedes ==> r in HeaderAt(ContextOf(b.w, b.e, b.changes), s).supersedes
  {
    var c := ContextOf(b.w, b.e, b.changes);
    var x := Side(b, after);
    if s in b.changes {
      assert b.w.facts(s).scope in Scopes(b.w, b.changes);
      assert s in c.known;
    }
  }

  /** The paths at which a work reference can have its target, by name alone. */
  ghost function Places(w: World, s: Path, r: string): set<Path>
  {
    Candidates(w, map[], s, r, false)
  }

  lemma EligibleIsPlaced(w: World, x: Entries, s: Path, r: string, t: Path)
    requires WellFormed(w, x) && WorkItem(w, x, s) && Eligible(w, x, s, r, AsWork, t)
    ensures t in Places(w, s, r)
  {
    assert WellPlaced(w, t, x[t]) && WellPlaced(w, s, x[s]);
  }

  /** Discovery points at every place of a reference that is no decision as well. */
  lemma PlacesAreNamed(b: Batch, after: bool, s: Path, r: string, t: Path)
    requires Sound(b) && WorkItem(b.w, Side(b, after), s) && r in WorkRefs(Side(b, after)[s]) && t in Places(b.w, s, r)
    requires OneRole(b, s, r)
    ensures Names(ContextOf(b.w, b.e, b.changes), s, r, t)
  {
    HeaderHolds(b, after, s, r);
  }

  /** A listed work item is known by its identity. */
  lemma ListedIsKnown(b: Batch, t: Path)
    requires Sound(b) && t in b.e && t !in b.changes && WorkItem(b.w, b.e, t) && InScope(b, t)
    ensures var c := ContextOf(b.w, b.e, b.changes); t in c.known && c.known[t].id == b.e[t].identity
  {
    assert WellPlaced(b.w, t, b.e[t]);
  }

  /** Exactly a reference that is no decision as well points at its places as a work item. */
  lemma PlacesPointedIffOneRole(c: Context, s: Path, r: string)
    requires Coherent(c.w) && !Explicit(r) && r in WorkLists(HeaderAt(c, s)) && Places(c.w, s, r) != {}
    ensures Places(c.w, s, r) <= Pointed(c, s, HeaderAt(c, s), r) <==> r !in HeaderAt(c, s).decisionRefs
  {
    var t :| t in Places(c.w, s, r);
    assert IsWork(c.w.facts(t).kind);
  }

  /** Whatever a work reference resolves to was changed, or discovery names it. */
  lemma EligibleIsNamed(b: Batch, after: bool, s: Path, r: string, t: Path)
    requires Sound(b) && (InScope(b, s) || OneRole(b, s, r))
    requires WorkItem(b.w, Side(b, after), s) && r in WorkRefs(Side(b, after)[s])
    requires Eligible(b.w, Side(b, after), s, r, AsWork, t)
    ensures t in b.changes || Names(ContextOf(b.w, b.e, b.changes), s, r, t)
  {
    HeaderHolds(b, after, s, r);
    if t !in b.changes {
      if Explicit(r) || !InScope(b, s) {
        EligibleIsPlaced(b.w, Side(b, after), s, r, t);
        PlacesAreNamed(b, after, s, r, t);
      } else {
        ListedIsKnown(b, t);
      }
    }
  }

  lemma WorkListsAreFollowed(h: Header, r: string)
    ensures r in WorkLists(h) ==> r in FollowedRefs(h, true)
    ensures r in h.supersedes ==> r in WorkLists(h) && r in FollowedRefs(h, false)
  {
  }

  lemma ExpandedIsChecked(b: Batch, p: Path)
    requires Discovered(b.w, b.e, b.changes, b.d) && p in Expanded(b)
    ensures p in b.d.paths
  {
    if p !in Inert(b) {
      var x :| x in b.d.expanded && x.0 == p;
    }
  }

  lemma SeedIsExpanded(b: Batch, v: Path)
    requires Discovered(b.w, b.e, b.changes, b.d) && v in b.d.validationPaths
    ensures v in b.d.paths && (v, true) in b.d.expanded && v in Expanded(b)
  {
    assert v in ContextOf(b.w, b.e, b.changes).seeds;
    ExpandedMember(b, v, true);
  }

  lemma ValidatedInScope(b: Batch, v: Path)
    requires Sound(b) && v in ValidationPaths(b.w, b.e, b.changes)
    ensures InScope(b, v)
  {
  }

  lemma ValidatedIsExpanded(b: Batch)
    requires Sound(b) && Discovered(b.w, b.e, b.changes, b.d)
    ensures b.changes.Keys <= b.d.validationPaths <= b.d.paths
    ensures b.d.validationPaths <= Expanded(b) <= b.d.paths
    ensures forall v :: v in b.d.validationPaths ==> (v, true) in b.d.expanded
    ensures forall v :: v in b.d.validationPaths ==> InScope(b, v)
  {
    forall v | v in b.d.validationPaths
      ensures v in b.d.paths && (v, true) in b.d.expanded && v in Expanded(b) && InScope(b, v)
    {
      SeedIsExpanded(b, v);
      ValidatedInScope(b, v);
    }
    forall p | p in Expanded(b) ensures p in b.d.paths {
      ExpandedIsChecked(b, p);
    }
  }

  lemma TargetsAreChecked(b: Batch, after: bool, s: Path)
    requires Sound(b) && Discovered(b.w, b.e, b.changes, b.d) && InScope(b, s)
    requires (s, true) in b.d.expanded && b.changes.Keys <= b.d.paths
    ensures TargetsChecked(b, Side(b, after), s)
  {
    var x := Side(b, after);
    if WorkItem(b.w, x, s) {
      forall r, t | r in WorkRefs(x[s]) && Eligible(b.w, x, s, r, AsWork, t) ensures t in b.d.paths {
        var c := ContextOf(b.w, b.e, b.changes);
        HeaderHolds(b, after, s, r);
        EligibleIsNamed(b, after, s, r, t);
        WorkListsAreFollowed(HeaderAt(c, s), r);
        if t !in b.changes {
          CoveredTarget(c, b.d, s, true, r, t);
        }
      }
    }
  }

  // ---- Decisions ----

  lemma DecisionHeaderHolds(b: Batch, after: bool, s: Path, r: string)
    requires Sound(b) && WorkItem(b.w, Side(b, after), s) && r in Side(b, after)[s].decisionRefs
    ensures r in HeaderAt(ContextOf(b.w, b.e, b.changes), s).decisionRefs
    ensures r in FollowedRefs(HeaderAt(ContextOf(b.w, b.e, b.changes), s), true)
  {
    var c := ContextOf(b.w, b.e, b.changes);
    if s in b.changes {
      assert b.w.facts(s).scope in Scopes(b.w, b.changes);
      assert s in c.known;
    }
  }

  /** The listing by file name finds every decision a reference resolves to. */
  lemma DecisionIsNamed(b: Batch, after: bool, s: Path, r: string, t: Path)
    requires Sound(b) && WorkItem(b.w, Side(b, after), s) && r in Side(b, after)[s].decisionRefs
    requires Eligible(b.w, Side(b, after), s, r, AsDecision, t)
    ensures Names(ContextOf(b.w, b.e, b.changes), s, r, t)
  {
    DecisionHeaderHolds(b, after, s, r);
    assert t in b.e && b.e[t] == Side(b, after)[t];
    DecisionIsListed(b.w, b.e, s, r, t);
  }

  lemma DecisionIsListed(w: World, e: Entries, s: Path, r: string, t: Path)
    requires Coherent(w) && WellFormed(w, e) && w.facts(s).scope.Some? && Eligible(w, e, s, r, AsDecision, t)
    ensures t in Candidates(w, e, s, r, true)
  {
    assert WellPlaced(w, t, e[t]);
  }

  lemma DecisionsAreChecked(b: Batch, after: bool, s: Path)
    requires Sound(b) && Discovered(b.w, b.e, b.changes, b.d) && (s, true) in b.d.expanded
    ensures DecisionsChecked(b, Side(b, after), s)
  {
    var x := Side(b, after);
    if WorkItem(b.w, x, s) {
      var c := ContextOf(b.w, b.e, b.changes);
      forall r, t | r in x[s].decisionRefs && Eligible(b.w, x, s, r, AsDecision, t) ensures t in b.d.paths {
        DecisionHeaderHolds(b, after, s, r);
        DecisionIsNamed(b, after, s, r, t);
        CoveredTarget(c, b.d, s, true, r, t);
      }
    }
  }

  // ---- Supersession edges ----

  lemma ExpandedMember(b: Batch, t: Path, full: bool)
    requires (t, full) in b.d.expanded
    ensures t in Walked(b) && t in Expanded(b)
  {
    assert (t, full).0 in Walked(b) && (t, full).0 in Expanded(b);
  }

  lemma NamedIsRead(c: Context, s: Path, r: string, t: Path)
    requires Coherent(c.w) && Names(c, s, r, t)
    ensures t in c.known || FollowedKind(c.w.facts(t).kind)
  {
  }

  /** A checked target without supersession edges in its header has none in the store. */
  lemma NothingToContinue(b: Batch, s: Path, r: string, t: Path)
    requires Sound(b) && t in b.d.paths && t !in b.changes && Names(ContextOf(b.w, b.e, b.changes), s, r, t)
    requires HeaderAt(ContextOf(b.w, b.e, b.changes), t).supersedes == []
    ensures t in Inert(b)
  {
    NamedIsRead(ContextOf(b.w, b.e, b.changes), s, r, t);
  }

  /** What a followed supersession reference names is followed in turn, or has no edges. */
  lemma NamedEdgeIsExpanded(b: Batch, s: Path, full: bool, r: string, t: Path)
    requires Sound(b) && Discovered(b.w, b.e, b.changes, b.d) && (s, full) in b.d.expanded
    requires NoFlagLost(ContextOf(b.w, b.e, b.changes)) && b.changes.Keys <= Expanded(b)
    requires r in HeaderAt(ContextOf(b.w, b.e, b.changes), s).supersedes
    requires Names(ContextOf(b.w, b.e, b.changes), s, r, t)
    ensures t in Expanded(b)
  {
    var c := ContextOf(b.w, b.e, b.changes);
    WorkListsAreFollowed(HeaderAt(c, s), r);
    CoveredTarget(c, b.d, s, full, r, t);
    if full {
      assert s in c.seeds && Kept(c, t);
      if t in c.seeds {
        ExpandedMember(b, t, true);
      } else if SurelyChained(c, t) {
        SurelyChainedIsExpanded(c, b.d, t);
        ExpandedMember(b, t, false);
      } else if t !in b.changes {
        NothingToContinue(b, s, r, t);
      }
    } else {
      ExpandedMember(b, t, false);
    }
  }

  lemma EdgesAreExpanded(b: Batch, after: bool, s: Path)
    requires Sound(b) && Discovered(b.w, b.e, b.changes, b.d) && Spelled(b)
    requires s in Expanded(b) && b.changes.Keys <= Expanded(b)
    ensures EdgesExpanded(b, Side(b, after), s)
  {
    var x := Side(b, after);
    if WorkItem(b.w, x, s) && s !in Inert(b) {
      assert s in Walked(b);
      var step :| step in b.d.expanded && step.0 == s;
      forall r, t | r in x[s].supersedes && Eligible(b.w, x, s, r, AsWork, t) ensures t in Expanded(b) {
        WalkedEdgeIsExpanded(b, after, s, step.1, r, t);
      }
    }
  }

  lemma WalkedEdgeIsExpanded(b: Batch, after: bool, s: Path, full: bool, r: string, t: Path)
    requires Sound(b) && Discovered(b.w, b.e, b.changes, b.d) && Spelled(b) && b.changes.Keys <= Expanded(b)
    requires (s, full) in b.d.expanded && WorkItem(b.w, Side(b, after), s) && r in Side(b, after)[s].supersedes
    requires Eligible(b.w, Side(b, after), s, r, AsWork, t)
    ensures t in Expanded(b)
  {
    ExpandedMember(b, s, full);
    assert r in WorkRefs(Side(b, after)[s]);
    HeaderHolds(b, after, s, r);
    WalkedHasOneRole(b, after, s, r);
    EligibleIsNamed(b, after, s, r, t);
    if t !in b.changes {
      NamedEdgeIsExpanded(b, s, full, r, t);
    }
  }

  lemma WalkedHasOneRole(b: Batch, after: bool, s: Path, r: string)
    requires Sound(b) && SeparateOutside(b) && s in Walked(b)
    requires WorkItem(b.w, Side(b, after), s) && r in Side(b, after)[s].supersedes
    ensures InScope(b, s) || OneRole(b, s, r)
  {
    if s in b.changes {
      assert InScope(b, s);
    } else {
      assert WorkItem(b.w, b.e, s) && b.e[s] == Side(b, after)[s];
    }
  }

  /** The identity a written record has before or after the batch is a written target. */
  lemma WrittenIdentity(b: Batch, after: bool, z: Path)
    requires Sound(b) && z in b.changes && z in Side(b, after) && Side(b, after)[z].governed
    requires Side(b, after)[z].identity.Some?
    ensures (z, Side(b, after)[z].identity) in WrittenTargets(b.w, b.e, b.changes)
  {
    var x := Side(b, after);
    assert WellPlaced(b.w, z, x[z]);
    assert b.w.facts(z).scope in Scopes(b.w, b.changes);
    if !after {
      assert (z, OldHeader(b.w, b.e, b.changes, z).id) in WrittenTargets(b.w, b.e, b.changes);
    }
  }

  lemma ReferrersAreChecked(b: Batch, after: bool, s: Path)
    requires Sound(b) && Discovered(b.w, b.e, b.changes, b.d)
    ensures ReferrerChecked(b, Side(b, after), s)
  {
    var x := Side(b, after);
    if WorkItem(b.w, b.e, s) && s !in b.changes && InScope(b, s) {
      forall r, z | z in b.changes && r in WorkRefs(b.e[s]) && Eligible(b.w, x, s, r, AsWork, z)
        ensures s in b.d.validationPaths
      {
        assert WellPlaced(b.w, z, x[z]) && WellPlaced(b.w, s, b.e[s]);
        WrittenIdentity(b, after, z);
        var known := Known(b.w, b.e, b.changes);
        assert s in known && r in AllRefs(known[s]);
        assert Incoming(b.w, WrittenTargets(b.w, b.e, b.changes), s, known[s]) by {
          var target := (z, x[z].identity);
          assert target in WrittenTargets(b.w, b.e, b.changes);
          assert Matches(b.w, b.w.facts(s), r, target.0, target.1, b.w.facts(target.0));
        }
      }
    }
  }

  /** A namesake whose header carries its identity is validated. */
  lemma NamesakeIsChecked(b: Batch, after: bool, t: Path, z: Path)
    requires Sound(b) && Discovered(b.w, b.e, b.changes, b.d)
    requires Namesakes(b, Side(b, after), t, z)
    requires Speaks(b.e, t)
    ensures t in b.d.validationPaths
  {
    assert WellPlaced(b.w, t, b.e[t]);
    WrittenIdentity(b, after, z);
    assert b.w.facts(z).scope in Scopes(b.w, b.changes);
    var known := Known(b.w, b.e, b.changes);
    assert t in known && known[t].id == b.e[t].identity;
    assert SameIdentity(b.w, WrittenTargets(b.w, b.e, b.changes), t, known[t]) by {
      var target := (z, b.e[t].identity);
      assert target in WrittenTargets(b.w, b.e, b.changes);
    }
  }

  /** When no flag is lost, what discovery returns is adequate. */
  lemma DiscoveredIsAdequate(b: Batch)
    requires Sound(b) && Discovered(b.w, b.e, b.changes, b.d) && Spelled(b)
    ensures Adequate(b)
  {
    ValidatedIsExpanded(b);
    forall after, s | s in b.d.validationPaths
      ensures TargetsChecked(b, Side(b, after), s) && DecisionsChecked(b, Side(b, after), s)
    {
      TargetsAreChecked(b, after, s);
      DecisionsAreChecked(b, after, s);
    }
    forall after, s | s in Expanded(b) ensures EdgesExpanded(b, Side(b, after), s) {
      EdgesAreExpanded(b, after, s);
    }
    RestIsAdequate(b);
  }

  lemma RestIsAdequate(b: Batch)
    requires Sound(b) && Discovered(b.w, b.e, b.changes, b.d)
    ensures forall after, s :: ReferrerChecked(b, Side(b, after), s)
    ensures forall after, t, z :: Namesakes(b, Side(b, after), t, z) && Speaks(b.e, t) ==> t in b.d.validationPaths
  {
    forall after, s ensures ReferrerChecked(b, Side(b, after), s) {
      ReferrersAreChecked(b, after, s);
    }
    forall after, t, z | Namesakes(b, Side(b, after), t, z) && Speaks(b.e, t)
      ensures t in b.d.validationPaths
    {
      NamesakeIsChecked(b, after, t, z);
    }
  }

  // ---- Adequate by name: also for records that do not exist yet ----

  /** Every place of a work reference of `s` is among the checked files. */
  ghost predicate PlacesChecked(b: Batch, x: Entries, s: Path)
  {
    WorkItem(b.w, x, s) ==> forall r :: r in WorkRefs(x[s]) ==> Places(b.w, s, r) <= b.d.paths
  }

  ghost predicate PlacesExpanded(b: Batch, x: Entries, s: Path)
  {
    WorkItem(b.w, x, s) ==> forall r :: r in x[s].supersedes ==> Places(b.w, s, r) <= Expanded(b)
  }

  /** Adequate, and also locked where a referred record could appear. */
  ghost predicate Anchored(b: Batch)
  {
    && b.changes.Keys <= b.d.validationPaths <= b.d.paths
    && b.d.validationPaths <= Expanded(b) <= b.d.paths
    && (forall v :: v in b.d.validationPaths ==> InScope(b, v))
    && (forall after, s :: s in b.d.validationPaths ==> PlacesChecked(b, Side(b, after), s))
    && (forall after, s :: s in b.d.validationPaths ==> DecisionsChecked(b, Side(b, after), s))
    && (forall after, s :: s in Expanded(b) ==> PlacesExpanded(b, Side(b, after), s))
    && (forall after, s :: ReferrerChecked(b, Side(b, after), s))
    && (forall after, t, z :: Namesakes(b, Side(b, after), t, z) && Speaks(b.e, t) ==> t in b.d.validationPaths)
  }

  lemma PlacesAreEnough(b: Batch, after: bool, s: Path)
    requires Sound(b)
    ensures PlacesChecked(b, Side(b, after), s) ==> TargetsChecked(b, Side(b, after), s)
    ensures PlacesExpanded(b, Side(b, after), s) ==> EdgesExpanded(b, Side(b, after), s)
  {
    var x := Side(b, after);
    if WorkItem(b.w, x, s) {
      forall r, t | Eligible(b.w, x, s, r, AsWork, t) ensures t in Places(b.w, s, r) {
        EligibleIsPlaced(b.w, x, s, r, t);
      }
    }
  }

  lemma AnchoredIsAdequate(b: Batch)
    requires Sound(b) && Anchored(b)
    ensures Adequate(b)
  {
    forall after, s
      ensures PlacesChecked(b, Side(b, after), s) ==> TargetsChecked(b, Side(b, after), s)
      ensures PlacesExpanded(b, Side(b, after), s) ==> EdgesExpanded(b, Side(b, after), s)
    {
      PlacesAreEnough(b, after, s);
    }
  }

  lemma PlacesAreChecked(b: Batch, after: bool, s: Path)
    requires Sound(b) && Discovered(b.w, b.e, b.changes, b.d) && SpelledApart(b)
    requires (s, true) in b.d.expanded
    ensures PlacesChecked(b, Side(b, after), s)
  {
    var x := Side(b, after);
    if WorkItem(b.w, x, s) {
      ExpandedMember(b, s, true);
      forall r, t | r in WorkRefs(x[s]) && t in Places(b.w, s, r) ensures t in b.d.paths {
        var c := ContextOf(b.w, b.e, b.changes);
        HeaderHolds(b, after, s, r);
        PlacesAreNamed(b, after, s, r, t);
        WorkListsAreFollowed(HeaderAt(c, s), r);
        CoveredTarget(c, b.d, s, true, r, t);
      }
    }
  }

  lemma PlacesAreExpanded(b: Batch, after: bool, s: Path)
    requires Sound(b) && Discovered(b.w, b.e, b.changes, b.d) && SpelledApart(b)
    requires s in Expanded(b) && b.changes.Keys <= Expanded(b)
    ensures PlacesExpanded(b, Side(b, after), s)
  {
    var x := Side(b, after);
    if WorkItem(b.w, x, s) && s !in Inert(b) {
      assert s in Walked(b);
      var step :| step in b.d.expanded && step.0 == s;
      forall r, t | r in x[s].supersedes && t in Places(b.w, s, r) ensures t in Expanded(b) {
        assert r in WorkRefs(x[s]);
        HeaderHolds(b, after, s, r);
        PlacesAreNamed(b, after, s, r, t);
        NamedEdgeIsExpanded(b, s, step.1, r, t);
      }
    }
  }

  lemma DiscoveredIsAnchored(b: Batch)
    requires Sound(b) && Discovered(b.w, b.e, b.changes, b.d) && SpelledApart(b)
    ensures Anchored(b)
  {
    ValidatedIsExpanded(b);
    forall after, s | s in b.d.validationPaths
      ensures PlacesChecked(b, Side(b, after), s) && DecisionsChecked(b, Side(b, after), s)
    {
      PlacesAreChecked(b, after, s);
      DecisionsAreChecked(b, after, s);
    }
    forall after, s | s in Expanded(b) ensures PlacesExpanded(b, Side(b, after), s) {
      PlacesAreExpanded(b, after, s);
    }
    RestIsAdequate(b);
  }

  // ---- Roles in a valid store ----

  /** The bare decision references of a work item look like decisions, its bare work
      references do not. */
  ghost predicate Apart(w: World, p: Path, r: Record)
  {
    r.governed && IsWork(w.facts(p).kind) ==>
      && (forall x :: x in r.decisionRefs && !Explicit(x) ==> DecisionName(x))
      && (forall x :: x in WorkRefs(r) && !Explicit(x) ==> !DecisionName(x))
  }

  ghost predicate AllApart(w: World, x: Entries)
  {
    forall p :: p in x ==> Apart(w, p, x[p])
  }

  /** No malformed ticket or epic. */
  predicate Formed(w: World, p: Path, r: Option<Record>)
  {
    r.Some? && IsWork(w.facts(p).kind) ==> r.value.governed
  }

  /** The batch repairs no malformed ticket or epic and makes none. */
  predicate TouchesFormed(b: Batch)
  {
    forall p :: p in b.changes ==> Formed(b.w, p, At(b.e, p)) && Formed(b.w, p, b.changes[p])
  }

  /** A bare reference in the wrong role resolves to nothing. */
  lemma WrongRoleIsUnresolved(w: World, x: Entries, s: Path, r: string)
    requires WellFormed(w, x) && !Explicit(r)
    ensures DecisionName(r) ==> Unresolved(w, x, s, r, AsWork)
    ensures !DecisionName(r) ==> Unresolved(w, x, s, r, AsDecision)
  {
    forall role, t | Eligible(w, x, s, r, role, t) && (role.AsWork? || role.AsDecision?)
      ensures role.AsDecision? <==> DecisionName(r)
    {
      assert WellPlaced(w, t, x[t]);
    }
    forall role: Role, t | Resolves(w, x, s, r, role, t) ensures Eligible(w, x, s, r, role, t) {
      assert t in Targets(w, x, s, r, role);
    }
  }

  /** In a store in order every bare reference has the form of its role. */
  lemma GoodIsApart(w: World, x: Entries)
    requires WellFormed(w, x) && Good(w, x)
    ensures AllApart(w, x)
  {
    forall p, r | WorkItem(w, x, p) && !Explicit(r)
      ensures r in x[p].decisionRefs ==> DecisionName(r)
      ensures r in WorkRefs(x[p]) ==> !DecisionName(r)
    {
      WrongRoleIsUnresolved(w, x, p, r);
    }
  }

  lemma LocalIsWellFormed(b: Batch, after: bool)
    requires Sound(b)
    ensures WellFormed(b.w, LocalSide(b, after))
  {
  }

  /** An accepted batch puts no reference into the wrong list. */
  lemma CleanProposalIsApart(b: Batch, s: Path)
    requires Sound(b) && AllApart(b.w, b.e) && LocallyClean(b)
    requires b.changes.Keys <= b.d.validationPaths <= b.d.paths && s in b.changes && b.changes[s].Some?
    ensures Apart(b.w, s, b.changes[s].value)
  {
    var proposed := b.changes[s].value;
    if proposed.governed && IsWork(b.w.facts(s).kind) {
      assert WorkItem(b.w, LocalSide(b, true), s) && LocalSide(b, true)[s] == proposed;
      LocalIsWellFormed(b, true);
      forall r | !Explicit(r)
        ensures r in proposed.decisionRefs ==> DecisionName(r)
        ensures r in WorkRefs(proposed) ==> !DecisionName(r)
      {
        WrongRoleIsUnresolved(b.w, LocalSide(b, true), s, r);
        WrongRoleIsReported(b, s, r);
      }
    }
  }

  lemma WrongRoleIsReported(b: Batch, s: Path, r: string)
    requires AllApart(b.w, b.e) && LocallyClean(b) && !Explicit(r)
    requires s in b.d.validationPaths && IsWork(b.w.facts(s).kind) && WorkItem(b.w, LocalSide(b, true), s)
    ensures r in LocalSide(b, true)[s].decisionRefs && Unresolved(b.w, LocalSide(b, true), s, r, AsDecision) ==>
      DecisionName(r)
    ensures r in WorkRefs(LocalSide(b, true)[s]) && Unresolved(b.w, LocalSide(b, true), s, r, AsWork) ==>
      !DecisionName(r)
  {
    CleanReportsNothing(b, UnresolvedDecision(s, r));
    CleanReportsNothing(b, UnresolvedWork(s, r));
    var l := LocalSide(b, true)[s];
    assert r in l.decisionRefs ==> multiset(l.decisionRefs)[r] > 0;
    assert r in WorkRefs(l) ==> multiset(WorkRefs(l))[r] > 0;
    assert s in LocalSide(b, false) ==> Apart(b.w, s, LocalSide(b, false)[s]);
    SilentRole(b, s, r);
  }

  lemma SilentRole(b: Batch, s: Path, r: string)
    requires AllApart(b.w, b.e) && !Explicit(r) && IsWork(b.w.facts(s).kind)
    ensures !DecisionName(r) ==> LocalMultiplicity(b, false, UnresolvedDecision(s, r)) == 0
    ensures DecisionName(r) ==> LocalMultiplicity(b, false, UnresolvedWork(s, r)) == 0
  {
    assert s in b.e ==> Apart(b.w, s, b.e[s]);
  }

  /** The roles that discovery needs kept apart are apart when an accepted batch meets a
      valid store. */
  lemma CleanIsSeparate(b: Batch)
    requires Sound(b) && AllApart(b.w, b.e) && TouchesFormed(b) && LocallyClean(b)
    requires b.changes.Keys <= b.d.validationPaths <= b.d.paths
    ensures SeparateRoles(b)
  {
    forall after, s, r | WorkItem(b.w, Side(b, after), s) && r in WorkRefs(Side(b, after)[s]) ensures OneRole(b, s, r) {
      if s in b.changes && b.changes[s].Some? {
        CleanProposalIsApart(b, s);
      }
      assert s in b.e ==> Apart(b.w, s, b.e[s]);
      ApartHasOneRole(b, after, s, r);
    }
  }

  lemma ApartHasOneRole(b: Batch, after: bool, s: Path, r: string)
    requires Sound(b) && WorkItem(b.w, Side(b, after), s) && r in WorkRefs(Side(b, after)[s])
    requires TouchesFormed(b) && (s in b.e ==> Apart(b.w, s, b.e[s]))
    requires s in b.changes && b.changes[s].Some? ==> Apart(b.w, s, b.changes[s].value)
    ensures OneRole(b, s, r)
  {
    var h := HeaderAt(ContextOf(b.w, b.e, b.changes), s);
    forall x | x in h.decisionRefs && !Explicit(x) ensures DecisionName(x) {
      HeaderFrom(b, s, x);
    }
  }

  /** What a header lists stands in the stored record or in the proposed one. */
  lemma HeaderFrom(b: Batch, s: Path, r: string)
    requires r in HeaderAt(ContextOf(b.w, b.e, b.changes), s).decisionRefs
    ensures (s in b.e && r in b.e[s].decisionRefs)
      || (s in b.changes && b.changes[s].Some? && r in b.changes[s].value.decisionRefs)
  {
  }

  /** In a store in order the roles outside the changed investigations are apart. */
  lemma GoodIsSpelled(b: Batch)
    requires Sound(b) && Good(b.w, b.e) && NoFlagLost(ContextOf(b.w, b.e, b.changes))
    ensures Spelled(b)
  {
    GoodIsApart(b.w, b.e);
    forall s, r | !InScope(b, s) && WorkItem(b.w, b.e, s) && r in b.e[s].supersedes ensures OneRole(b, s, r) {
      assert s !in b.changes && Apart(b.w, s, b.e[s]) && r in WorkRefs(b.e[s]);
      if r in HeaderAt(ContextOf(b.w, b.e, b.changes), s).decisionRefs {
        HeaderFrom(b, s, r);
      }
    }
  }

  /** A preview without diagnostics is safe: it keeps a store in order when no seed loses
      a flag. */
  lemma CleanPreviewIsSafe(b: Batch)
    requires Sound(b) && Discovered(b.w, b.e, b.changes, b.d) && NoFlagLost(ContextOf(b.w, b.e, b.changes))
    requires Good(b.w, b.e) && LocallyClean(b)
    ensures Good(b.w, After(b))
  {
    GoodIsSpelled(b);
    DiscoveredIsAdequate(b);
    CleanBatchIsSafe(b);
  }

  /** Every identity a written path holds, before or after, is locked for writing. */
  ghost predicate IdentitiesLocked(b: Batch)
  {
    && b.d.writtenIdentities <= b.d.identities
    && forall after, z :: z in b.changes ==> IdentityLocked(b, Side(b, after), z)
  }

  ghost predicate IdentityLocked(b: Batch, x: Entries, z: Path)
  {
    z in x && x[z].governed && x[z].identity.Some? ==> IdentityOf(b.w, z, x[z].identity.value) in b.d.writtenIdentities
  }

  lemma DiscoveredLocksIdentities(b: Batch)
    requires Sound(b) && Discovered(b.w, b.e, b.changes, b.d)
    ensures IdentitiesLocked(b)
  {
    forall after, z | z in b.changes ensures IdentityLocked(b, Side(b, after), z) {
      var x := Side(b, after);
      if z in x && x[z].governed && x[z].identity.Some? {
        WrittenIdentity(b, after, z);
        assert (z, x[z].identity) in WrittenTargets(b.w, b.e, b.changes);
      }
    }
  }
}
