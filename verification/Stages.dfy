/** Small stores of tickets at their conventional paths, and batches that change one of
    them: what each reference resolves to, what discovery names, and what it validates. */
module Stages {
  import opened Wrappers
  import opened Records
  import opened Ordering
  import opened Cycles
  import opened Validation
  import opened Discovery
  import opened Locality

  /** Tickets of one project. */
  datatype Stage = Stage(w: World, tickets: set<Path>)

  ghost predicate TicketAt(w: World, p: Path)
  {
    var facts := w.facts(p);
    && facts.kind == Some(Ticket) && facts.scope.Some? && facts.project.Some?
    && w.safe(p) && Explicit(p) && w.safe(w.stem(p)) && !Explicit(w.stem(p)) && !DecisionName(w.stem(p))
    && p in w.conventional(facts.scope.value, w.stem(p))
    && forall u :: u in w.conventional(facts.scope.value, w.stem(p)) ==> w.stem(u) == w.stem(p)
  }

  ghost predicate Staged(g: Stage)
  {
    && Coherent(g.w)
    && (forall p :: p in g.tickets ==> TicketAt(g.w, p))
    && (forall p, q :: p in g.tickets && q in g.tickets ==> g.w.facts(p).project == g.w.facts(q).project)
    && (forall p, q :: p in g.tickets && q in g.tickets && SameName(g.w, p, q) ==> p == q)
  }

  ghost predicate SameName(w: World, p: Path, q: Path)
  {
    w.stem(p) == w.stem(q) && w.facts(p).scope == w.facts(q).scope
  }

  function TicketRecord(w: World, p: Path, decisions: seq<string>, related: seq<string>,
                        supersedes: seq<string>): Record
  {
    Record(true, Some(w.stem(p)), Some(w.stem(p)), decisions, related, supersedes, [], [])
  }

  ghost predicate TicketLike(w: World, p: Path, r: Record)
  {
    r == TicketRecord(w, p, r.decisionRefs, r.relatedTickets, r.supersedes)
  }

  ghost predicate Plays(g: Stage, x: Entries)
  {
    x.Keys <= g.tickets && forall p :: p in x ==> TicketLike(g.w, p, x[p])
  }

  /** From `s`, the reference means `t`: its path, or its identity in the same investigation. */
  ghost predicate Spells(g: Stage, s: Path, ref: string, t: Path)
  {
    s in g.tickets && t in g.tickets && (ref == t || (ref == g.w.stem(t) && g.w.facts(s).scope == g.w.facts(t).scope))
  }

  lemma SpellsMatches(g: Stage, s: Path, ref: string, t: Path, u: Path)
    requires Staged(g) && Spells(g, s, ref, t) && u in g.tickets
    ensures Matches(g.w, g.w.facts(s), ref, u, Some(g.w.stem(u)), g.w.facts(u)) <==> u == t
  {
    assert TicketAt(g.w, u) && TicketAt(g.w, t) && TicketAt(g.w, s);
    if ref != t && g.w.stem(u) == ref && g.w.facts(u).scope == g.w.facts(s).scope {
      assert SameName(g.w, u, t);
    }
  }

  // ---- Validation ----

  lemma StageWorkItem(g: Stage, x: Entries, p: Path)
    requires Staged(g) && Plays(g, x) && p in x
    ensures WorkItem(g.w, x, p) && x[p].identity == Some(g.w.stem(p))
  {
    assert TicketAt(g.w, p);
  }

  lemma StageTargets(g: Stage, x: Entries, s: Path, ref: string, t: Path)
    requires Staged(g) && Plays(g, x) && Spells(g, s, ref, t)
    ensures Targets(g.w, x, s, ref, AsWork) == if t in x then {t} else {}
  {
    forall u ensures u in Targets(g.w, x, s, ref, AsWork) <==> u in x && u == t {
      if u in x {
        StageWorkItem(g, x, u);
        SpellsMatches(g, s, ref, t, u);
      }
    }
  }

  lemma StageEdge(g: Stage, x: Entries, s: Path, ref: string, t: Path)
    requires Staged(g) && Plays(g, x) && Spells(g, s, ref, t)
    ensures ResolvedList(g.w, x, s, [ref]) == if t in x then [t] else []
  {
    StageTargets(g, x, s, ref, t);
    assert forall u :: Resolves(g.w, x, s, ref, AsWork, u) <==> t in x && u == t;
    assert ResolvedList(g.w, x, s, [ref][..0]) == [];
    if t in x {
      assert Resolves(g.w, x, s, ref, AsWork, t);
    }
  }

  lemma StageResolved(g: Stage, x: Entries, s: Path, ref: string, t: Path)
    requires Staged(g) && Plays(g, x) && Spells(g, s, ref, t) && t in x && s != t
    ensures !Unresolved(g.w, x, s, ref, AsWork)
  {
    StageTargets(g, x, s, ref, t);
    assert Resolves(g.w, x, s, ref, AsWork, t);
  }

  /** The supersession graph, node by node. */
  lemma StageNode(g: Stage, x: Entries, p: Path)
    requires Staged(g) && Plays(g, x)
    ensures p in Supersession(g.w, x) <==> p in x
    ensures p in x && x[p].supersedes == [] ==> Supersession(g.w, x)[p] == []
  {
    if p in x {
      StageWorkItem(g, x, p);
    }
  }

  lemma StageNodes(g: Stage, x: Entries)
    requires Staged(g) && Plays(g, x)
    ensures Supersession(g.w, x).Keys == x.Keys
  {
    forall p ensures p in Supersession(g.w, x) <==> p in x {
      StageNode(g, x, p);
    }
  }

  lemma StageEdgeAt(g: Stage, x: Entries, p: Path, t: Path)
    requires Staged(g) && Plays(g, x) && p in x && |x[p].supersedes| == 1 && Spells(g, p, x[p].supersedes[0], t)
    ensures p in Supersession(g.w, x) && Supersession(g.w, x)[p] == if t in x then [t] else []
  {
    StageNode(g, x, p);
    assert x[p].supersedes == [x[p].supersedes[0]];
    StageEdge(g, x, p, x[p].supersedes[0], t);
  }

  lemma StageShares(g: Stage, x: Entries, p: Path, q: Path)
    requires Staged(g) && Plays(g, x) && SharesIdentity(g.w, x, p, q)
    ensures p == q
  {
    StageWorkItem(g, x, p);
    StageWorkItem(g, x, q);
    assert SameName(g.w, p, q);
  }

  lemma StageHasNoDuplicate(g: Stage, x: Entries, p: Path, q: Path)
    requires Staged(g) && Plays(g, x)
    ensures !IsPrevious(g.w, x, p, q)
  {
    if SharesIdentity(g.w, x, p, q) {
      StageShares(g, x, p, q);
      LtIrreflexive(p);
    }
  }

  lemma StageWellFormed(g: Stage, x: Entries)
    requires Staged(g) && Plays(g, x)
    ensures WellFormed(g.w, x)
  {
    forall p | p in x ensures WellPlaced(g.w, p, x[p]) {
      assert TicketAt(g.w, p);
    }
  }

  /** The work references of a ticket are met by other tickets. */
  ghost predicate Answered(g: Stage, x: Entries, p: Path)
    requires p in x
  {
    x[p].decisionRefs == [] && forall r :: r in WorkRefs(x[p]) ==> exists t :: t in x && t != p && Spells(g, p, r, t)
  }

  lemma AnsweredResolves(g: Stage, x: Entries, p: Path, ref: string)
    requires Staged(g) && Plays(g, x) && p in x && Answered(g, x, p) && ref in WorkRefs(x[p])
    ensures !Unresolved(g.w, x, p, ref, AsWork)
  {
    var t :| t in x && t != p && Spells(g, p, ref, t);
    StageResolved(g, x, p, ref, t);
  }

  /** Nothing is reported about such a ticket, and no duplicate at all. */
  lemma StageIsSilent(g: Stage, x: Entries, d: Diagnostic)
    requires Staged(g) && Plays(g, x) && NoCycle(g.w, x)
    requires d.Duplicate? || (d.path in x ==> Answered(g, x, d.path))
    ensures Multiplicity(g.w, x, d) == 0
  {
    match d
    case Duplicate(p, q) => StageHasNoDuplicate(g, x, p, q);
    case UnresolvedDecision(p, ref) =>
    case UnresolvedWork(p, ref) =>
      if p in x && ref in WorkRefs(x[p]) {
        AnsweredResolves(g, x, p, ref);
      }
    case UnresolvedMetadata(p) =>
      if p in x {
        assert TicketAt(g.w, p);
      }
    case SupersessionCycle(p) => CycleCount(g.w, x, p);
  }

  lemma StageIsGood(g: Stage, x: Entries)
    requires Staged(g) && Plays(g, x) && NoCycle(g.w, x) && forall p :: p in x ==> Answered(g, x, p)
    ensures Good(g.w, x)
  {
    forall p, q | SharesIdentity(g.w, x, p, q) ensures p == q {
      StageShares(g, x, p, q);
    }
    forall s, r | WorkItem(g.w, x, s) && r in WorkRefs(x[s]) ensures !Unresolved(g.w, x, s, r, AsWork) {
      AnsweredResolves(g, x, s, r);
    }
  }

  lemma OrderedIsAcyclic(w: World, x: Entries, order: seq<Path>)
    requires Layered(Supersession(w, x), order) && forall p :: p in Supersession(w, x) ==> p in order
    ensures NoCycle(w, x)
  {
    forall s ensures !Cyclic(w, x, s) {
      if s in Supersession(w, x) {
        PeeledReachesNoCycle(Supersession(w, x), order, s);
      }
    }
  }

  // ---- Discovery ----

  /** The tickets are the whole store, and the batch replaces the record of `a`. */
  ghost predicate Scene(g: Stage, e: Entries, a: Path, next: Record)
  {
    Staged(g) && Plays(g, e) && e.Keys == g.tickets && a in g.tickets && TicketLike(g.w, a, next)
  }

  function Replace(a: Path, next: Record): Overlay
  {
    map[a := Some(next)]
  }

  /** What discovery reads at a path. */
  function SceneHeader(g: Stage, e: Entries, a: Path, next: Record, p: Path): Header
  {
    if p == a && p in e then Merged(RawHeader(e[p]), next)
    else if p in e then RawHeader(e[p])
    else EMPTY
  }

  lemma SceneScopes(g: Stage, a: Path, next: Record)
    ensures Scopes(g.w, Replace(a, next)) == {g.w.facts(a).scope}
  {
    assert a in Replace(a, next);
  }

  lemma SceneListed(g: Stage, e: Entries, a: Path, next: Record, p: Path)
    requires Scene(g, e, a, next)
    ensures Listed(g.w, e, Replace(a, next), p) <==> p in g.tickets && g.w.facts(p).scope == g.w.facts(a).scope
    ensures p in e ==> ListedHeader(g.w, p, e[p]) == RawHeader(e[p]) && RawHeader(e[p]).id == Some(g.w.stem(p))
  {
    SceneScopes(g, a, next);
    if p in e {
      StageWorkItem(g, e, p);
      assert TicketAt(g.w, p) && TicketLike(g.w, p, e[p]);
    }
  }

  lemma SceneHeaders(g: Stage, e: Entries, a: Path, next: Record, p: Path)
    requires Scene(g, e, a, next)
    ensures var c := ContextOf(g.w, e, Replace(a, next));
      && HeaderAt(c, p) == SceneHeader(g, e, a, next, p)
      && (p in c.known <==> p in g.tickets && g.w.facts(p).scope == g.w.facts(a).scope)
      && (p in g.tickets ==> HeaderAt(c, p).id == Some(g.w.stem(p)))
  {
    SceneListed(g, e, a, next, p);
    if p in e {
      assert TicketAt(g.w, p) && TicketLike(g.w, p, e[p]);
    }
  }

  /** The headers of a context over the stage. */
  ghost predicate Seeing(g: Stage, c: Context)
  {
    && c.w == g.w
      && (forall p :: p in g.tickets ==> HeaderAt(c, p).id == Some(g.w.stem(p)) && FollowedKind(g.w.facts(p).kind))
    && (forall p :: p !in g.tickets ==> HeaderAt(c, p) == EMPTY)
  }

  lemma SceneIsSeen(g: Stage, e: Entries, a: Path, next: Record)
    requires Scene(g, e, a, next)
    ensures Seeing(g, ContextOf(g.w, e, Replace(a, next)))
  {
    forall p
      ensures p in g.tickets ==>
        HeaderAt(ContextOf(g.w, e, Replace(a, next)), p).id == Some(g.w.stem(p)) && FollowedKind(g.w.facts(p).kind)
      ensures p !in g.tickets ==> HeaderAt(ContextOf(g.w, e, Replace(a, next)), p) == EMPTY
    {
      SceneHeaders(g, e, a, next, p);
      if p in g.tickets {
        assert TicketAt(g.w, p);
      }
    }
  }

  lemma SpellsPlaces(g: Stage, e: Entries, s: Path, ref: string, t: Path, u: Path)
    requires Staged(g) && Spells(g, s, ref, t)
    ensures t in Candidates(g.w, e, s, ref, false)
    ensures u in g.tickets && u in Candidates(g.w, e, s, ref, false) ==> u == t
  {
    assert TicketAt(g.w, t) && TicketAt(g.w, s);
    if u in g.tickets && ref != t && u in g.w.conventional(g.w.facts(s).scope.value, ref) {
      assert SameName(g.w, u, t);
    }
  }

  /** Among the tickets, a reference in one role names exactly what it means. */
  lemma SpellsNames(g: Stage, c: Context, s: Path, ref: string, t: Path, u: Path)
    requires Staged(g) && Seeing(g, c) && Spells(g, s, ref, t)
    requires ref in RecordRefs(HeaderAt(c, s)) && ref !in HeaderAt(c, s).decisionRefs
    ensures Names(c, s, ref, t)
    ensures u in g.tickets ==> (MayName(c, s, ref, u) <==> u == t) && (Names(c, s, ref, u) <==> u == t)
  {
    SpellsPlaces(g, c.e, s, ref, t, u);
    if u in g.tickets {
      SpellsMatches(g, s, ref, t, u);
    }
  }

  lemma SceneWritten(g: Stage, e: Entries, a: Path, next: Record)
    requires Scene(g, e, a, next)
    ensures WrittenTargets(g.w, e, Replace(a, next)) == {(a, Some(g.w.stem(a)))}
  {
    SceneListed(g, e, a, next, a);
    assert TicketLike(g.w, a, e[a]) && TicketLike(g.w, a, next);
  }

  /** Some reference of `q` means the changed ticket. */
  ghost predicate Refers(g: Stage, q: Path, h: Header, a: Path)
  {
    exists r :: r in AllRefs(h) && Matches(g.w, g.w.facts(q), r, a, Some(g.w.stem(a)), g.w.facts(a))
  }

  lemma RefersIsIncoming(g: Stage, q: Path, h: Header, a: Path)
    ensures Incoming(g.w, {(a, Some(g.w.stem(a)))}, q, h) <==> Refers(g, q, h, a)
  {
    var target := (a, Some(g.w.stem(a)));
    if Refers(g, q, h, a) {
      var r :| r in AllRefs(h) && Matches(g.w, g.w.facts(q), r, a, Some(g.w.stem(a)), g.w.facts(a));
      assert r in AllRefs(h) && target in {target}
        && Matches(g.w, g.w.facts(q), r, target.0, target.1, g.w.facts(target.0));
    }
  }

  /** Validated are the changed ticket and those of its investigation that refer to it. */
  lemma SceneValidation(g: Stage, e: Entries, a: Path, next: Record, q: Path)
    requires Scene(g, e, a, next)
    ensures q in ValidationPaths(g.w, e, Replace(a, next)) <==>
      q == a || (q in g.tickets && g.w.facts(q).scope == g.w.facts(a).scope
        && Refers(g, q, SceneHeader(g, e, a, next, q), a))
  {
    SceneWritten(g, e, a, next);
    SceneHeaders(g, e, a, next, q);
    var known := Known(g.w, e, Replace(a, next));
    if q in known {
      RefersIsIncoming(g, q, known[q], a);
      assert SameName(g.w, q, a) ==> q == a;
    }
  }

  /** The reference means another ticket than the changed one. */
  lemma SpellsElsewhere(g: Stage, q: Path, h: Header, a: Path)
    requires Staged(g) && a in g.tickets && forall r :: r in AllRefs(h) ==> exists t :: t != a && Spells(g, q, r, t)
    ensures !Refers(g, q, h, a)
  {
    forall r | r in AllRefs(h) ensures !Matches(g.w, g.w.facts(q), r, a, Some(g.w.stem(a)), g.w.facts(a)) {
      var t :| t != a && Spells(g, q, r, t);
      SpellsMatches(g, q, r, t, a);
    }
  }

  lemma SpellsBack(g: Stage, q: Path, h: Header, a: Path, r: string)
    requires Staged(g) && r in AllRefs(h) && Spells(g, q, r, a)
    ensures Refers(g, q, h, a)
  {
    SpellsMatches(g, q, r, a, a);
  }

  lemma SceneIsSound(g: Stage, e: Entries, a: Path, next: Record, d: Dependencies)
    requires Scene(g, e, a, next)
    ensures var b := Batch(g.w, e, Replace(a, next), d);
      Sound(b) && After(b) == e[a := next] && Plays(g, After(b)) && After(b).Keys == g.tickets
  {
    var b := Batch(g.w, e, Replace(a, next), d);
    assert After(b) == e[a := next];
    assert TicketAt(g.w, a);
    StageWellFormed(g, e);
    StageWellFormed(g, After(b));
  }
}
