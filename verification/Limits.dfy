/** Where the projected check falls short: whatever valid activation has an investigation
    without another one inside it, has batches that the check accepts although they break the
    store, one for each premise of the exactness theorem. */
module Limits {
  import opened Wrappers
  import opened Records
  import opened Ordering
  import opened Cycles
  import opened Validation
  import opened Discovery
  import opened Closure
  import opened Locality
  import opened Adequacy
  import opened Equivalence
  import opened Scopes
  import opened Sites
  import opened Stages
  import Layout
  import Protocol
  import Commit

  // ---- A decision whose header hides its identity ----

  /** A decision, known by the name of its file, and a board to be made. */
  datatype Hidden = Hidden(w: World, decision: Path, board: Path, id: string)

  ghost predicate Named(h: Hidden)
  {
    var w, decision, board := h.w, h.w.facts(h.decision), h.w.facts(h.board);
    && Coherent(w) && decision.kind == Some(Decision) && board.kind == Some(Board)
    && decision.scope == board.scope && decision.scope.Some?
    && w.safe(h.id) && !Explicit(h.id) && DecisionName(h.id) && NameMatches(w.stem(h.decision), h.id)
  }

  /** The header of the decision says nothing. */
  function HiddenDecision(h: Hidden): Record
  {
    Record(true, Some(h.id), None, [], [], [], [], [])
  }

  function NewBoard(h: Hidden): Record
  {
    Record(true, Some(h.id), Some(h.id), [], [], [], [], [])
  }

  ghost predicate Hiding(h: Hidden, b: Batch)
  {
    && Named(h) && b.w == h.w && b.e == map[h.decision := HiddenDecision(h)]
    && b.changes == map[h.board := Some(NewBoard(h))]
    && Discovered(b.w, b.e, b.changes, b.d)
  }

  lemma HiddenIsPlaced(h: Hidden)
    requires Named(h)
    ensures WellPlaced(h.w, h.decision, HiddenDecision(h)) && WellPlaced(h.w, h.board, NewBoard(h))
    ensures h.board != h.decision
  {
  }

  lemma HidingAfter(h: Hidden, b: Batch)
    requires b.e == map[h.decision := HiddenDecision(h)] && b.changes == map[h.board := Some(NewBoard(h))]
    ensures After(b) == map[h.decision := HiddenDecision(h), h.board := NewBoard(h)]
  {
  }

  lemma HidingIsSound(h: Hidden, b: Batch)
    requires Hiding(h, b)
    ensures Sound(b) && After(b) == map[h.decision := HiddenDecision(h), h.board := NewBoard(h)]
    ensures h.board != h.decision
    ensures SharesIdentity(b.w, After(b), h.decision, h.board)
  {
    HidingAfter(h, b);
    HiddenIsPlaced(h);
    HiddenIsWellFormed(h, b.e);
    HiddenIsWellFormed(h, After(b));
    BoardIsWritable(h);
  }

  lemma BoardIsWritable(h: Hidden)
    requires Named(h)
    ensures Writable(h.w, map[h.board := Some(NewBoard(h))])
  {
  }

  lemma HiddenIsWellFormed(h: Hidden, e: Entries)
    requires forall p ::
      p in e ==> (p == h.decision && e[p] == HiddenDecision(h)) || (p == h.board && e[p] == NewBoard(h))
    requires WellPlaced(h.w, h.decision, HiddenDecision(h)) && WellPlaced(h.w, h.board, NewBoard(h))
    ensures WellFormed(h.w, e)
  {
  }

  lemma NothingToFollow(h: Hidden, b: Batch, s: Path)
    requires Hiding(h, b)
    ensures AllRefs(HeaderAt(ContextOf(b.w, b.e, b.changes), s)) == []
  {
    NothingOld(h, b, s);
    EmptyParts(OldHeader(b.w, b.e, b.changes, s));
  }

  lemma NothingOld(h: Hidden, b: Batch, s: Path)
    requires Hiding(h, b)
    ensures AllRefs(OldHeader(b.w, b.e, b.changes, s)) == []
  {
  }

  lemma HidingSelects(h: Hidden, b: Batch)
    requires Hiding(h, b)
    ensures h.decision !in Seeds(b.w, b.e, b.changes)
  {
    var known := Known(b.w, b.e, b.changes);
    assert h.decision != h.board && h.decision != ACTIVATION;
    if h.decision in known {
      assert known[h.decision].id == None && AllRefs(known[h.decision]) == [];
    }
  }

  lemma EmptyParts(h: Header)
    requires AllRefs(h) == []
    ensures h.supersedes == h.decisionRefs == h.relatedTickets == h.supersededBy == h.refs == []
  {
  }

  lemma NothingNeighbours(c: Context, t: Path)
    requires forall s :: AllRefs(HeaderAt(c, s)) == []
    ensures !Neighbour(c, t) && !Chained(c, t) && NoFlagLost(c)
  {
    forall s ensures HeaderAt(c, s).supersedes == [] {
      EmptyParts(HeaderAt(c, s));
    }
    forall walk ensures !Chain(c, walk) {
      if |walk| > 1 {
        EmptyParts(HeaderAt(c, walk[0]));
      }
    }
  }

  lemma WithinOnly(w: World, e: Entries, changes: Overlay, d: Dependencies, p: Path)
    requires Discovered(w, e, changes, d) && p in d.paths
    ensures var c := ContextOf(w, e, changes); p in Seeds(w, e, changes) || Neighbour(c, p) || Chained(c, p)
  {
  }

  lemma HiddenDecisionIsMissed(h: Hidden, b: Batch)
    requires Hiding(h, b)
    ensures h.decision !in b.d.paths && NoFlagLost(ContextOf(b.w, b.e, b.changes))
  {
    var c := ContextOf(b.w, b.e, b.changes);
    forall s ensures AllRefs(HeaderAt(c, s)) == [] {
      NothingToFollow(h, b, s);
    }
    NothingNeighbours(c, h.decision);
    HidingSelects(h, b);
    if h.decision in b.d.paths {
      WithinOnly(b.w, b.e, b.changes, b.d, h.decision);
    }
  }

  /** One record without references leaves nothing to report. */
  lemma OneFileIsSilent(w: World, e: Entries, p: Path, d: Diagnostic)
    requires e.Keys <= {p} && (w.facts(p).kind == Some(Board) || w.facts(p).kind == Some(Decision))
    ensures Multiplicity(w, e, d) == 0
  {
    if d.Duplicate? && IsPrevious(w, e, d.path, d.previous) {
      LtIrreflexive(p);
    }
  }

  lemma OneFileIsGood(w: World, e: Entries, p: Path)
    requires e.Keys == {p} && w.facts(p).kind == Some(Decision)
    ensures Good(w, e)
  {
    assert forall s :: !WorkItem(w, e, s);
    assert Supersession(w, e) == map[];
  }

  lemma HidingPassesLocally(h: Hidden, b: Batch)
    requires Hiding(h, b) && h.decision !in b.d.paths
    requires After(b) == map[h.decision := HiddenDecision(h), h.board := NewBoard(h)]
    ensures LocallyClean(b)
  {
    assert LocalSide(b, true).Keys <= {h.board};
    forall d ensures LocalMultiplicity(b, true, d) == 0 {
      OneFileIsSilent(b.w, LocalSide(b, true), h.board, d);
    }
  }

  /** Of two holders of one identity, one is reported once the other exists. */
  lemma SecondHolderFailsWholly(b: Batch, p: Path, q: Path)
    requires b.e.Keys == {p} && b.changes.Keys == {q} && After(b).Keys == {p, q} && p != q
    requires SharesIdentity(b.w, After(b), p, q) && b.w.facts(p).scope == b.w.facts(q).scope
    ensures !WhollyClean(b)
  {
    var d := NeighbourReported(b.w, After(b), p, q);
    assert q in b.changes && InScope(b, p) && InScope(b, q);
    assert d.path in After(b);
    OneHolderIsSilent(b.w, b.e, p, d);
    assert WholeMultiplicity(b, true, d) == 1 && WholeMultiplicity(b, false, d) == 0;
  }

  lemma OneHolderIsSilent(w: World, e: Entries, p: Path, d: Diagnostic)
    requires e.Keys == {p} && d.Duplicate?
    ensures Multiplicity(w, e, d) == 0
  {
    LtIrreflexive(p);
  }

  /** A board that takes the identity of such a decision passes the projected check in a store
      in order, and validating the investigation reports the duplicate: every record with a
      touched identity must be checked. */
  lemma HiddenNamesakeEscapes(h: Hidden, b: Batch)
    requires Hiding(h, b)
    ensures Sound(b) && Spelled(b) && Good(b.w, b.e) && LocallyClean(b) && !WhollyClean(b) && !NoHiddenNamesake(b)
  {
    HidingIsSound(h, b);
    HiddenDecisionIsMissed(h, b);
    HidingPassesLocally(h, b);
    SecondHolderFailsWholly(b, h.decision, h.board);
    OneFileIsGood(b.w, b.e, h.decision);
    GoodIsSpelled(b);
    if NoHiddenNamesake(b) {
      ProjectedCheckIsExact(b);
    }
  }

  // ---- A supersession edge whose flag a later reference overwrites ----

  /** Four tickets of one investigation. */
  datatype Ring = Ring(w: World, a: Path, b: Path, c: Path, d: Path)

  function RingStage(r: Ring): Stage
  {
    Stage(r.w, {r.a, r.b, r.c, r.d})
  }

  /** Their identities sort before their paths. */
  ghost predicate Proper(r: Ring)
  {
    && Staged(RingStage(r))
    && r.a != r.b && r.a != r.c && r.a != r.d && r.b != r.c && r.b != r.d && r.c != r.d
    && (forall p, q ::
      p in RingStage(r).tickets && q in RingStage(r).tickets ==> r.w.facts(p).scope == r.w.facts(q).scope)
    && Lt(r.w.stem(r.a), r.a) && Lt(r.w.stem(r.b), r.b)
  }

  /** `b` supersedes `c`, `c` supersedes `d`, and `d` supersedes `a`, naming `a` a second
      time by its path. */
  function RingEntries(r: Ring): Entries
  {
    map[r.a := TicketRecord(r.w, r.a, [], [], []),
        r.b := TicketRecord(r.w, r.b, [], [], [r.w.stem(r.c)]),
        r.c := TicketRecord(r.w, r.c, [], [], [r.w.stem(r.d)]),
        r.d := TicketRecord(r.w, r.d, [], [r.a], [r.w.stem(r.a)])]
  }

  /** The change closes the ring, and names `b` a second time by its path. */
  function Closing(r: Ring): Record
  {
    TicketRecord(r.w, r.a, [], [r.b], [r.w.stem(r.b)])
  }

  ghost predicate Overwriting(r: Ring, b: Batch)
  {
    && Proper(r) && b.w == r.w && b.e == RingEntries(r) && b.changes == Replace(r.a, Closing(r))
    && Discovered(b.w, b.e, b.changes, b.d)
  }

  lemma RingScene(r: Ring)
    requires Proper(r)
    ensures Scene(RingStage(r), RingEntries(r), r.a, Closing(r))
  {
    var e := RingEntries(r);
    assert e[r.a] == TicketRecord(r.w, r.a, [], [], []) && e[r.b] == TicketRecord(r.w, r.b, [], [], [r.w.stem(r.c)]);
    assert e[r.c] == TicketRecord(r.w, r.c, [], [], [r.w.stem(r.d)])
      && e[r.d] == TicketRecord(r.w, r.d, [], [r.a], [r.w.stem(r.a)]);
    forall p | p in e ensures TicketLike(r.w, p, e[p]) {
    }
  }

  /** What discovery reads at a ticket: old edges and new ones. */
  function RingHeader(r: Ring, p: Path): Header
  {
    var id := Some(r.w.stem(p));
    if p == r.a then Header(id, [], [r.b], [r.w.stem(r.b)], [], [])
    else if p == r.b then Header(id, [], [], [r.w.stem(r.c)], [], [])
    else if p == r.c then Header(id, [], [], [r.w.stem(r.d)], [], [])
    else Header(id, [], [r.a], [r.w.stem(r.a)], [], [])
  }

  function RingContext(r: Ring): Context
  {
    ContextOf(r.w, RingEntries(r), Replace(r.a, Closing(r)))
  }

  ghost predicate RingSeen(r: Ring, c: Context)
  {
    && Seeing(RingStage(r), c) && forall p :: p in RingStage(r).tickets ==> HeaderAt(c, p) == RingHeader(r, p)
  }

  lemma RingIsSeen(r: Ring)
    requires Proper(r)
    ensures RingSeen(r, RingContext(r))
  {
    var e, g := RingEntries(r), RingStage(r);
    RingScene(r);
    SceneIsSeen(g, e, r.a, Closing(r));
    forall p | p in g.tickets ensures HeaderAt(RingContext(r), p) == RingHeader(r, p) {
      SceneHeaders(g, e, r.a, Closing(r), p);
      RingHeaderIs(r, p);
    }
  }

  lemma RingHeaderIs(r: Ring, p: Path)
    requires Proper(r) && p in RingStage(r).tickets
    ensures SceneHeader(RingStage(r), RingEntries(r), r.a, Closing(r), p) == RingHeader(r, p)
  {
    if p == r.a {
      assert RingEntries(r)[p] == TicketRecord(r.w, p, [], [], []);
    }
  }

  /** What a ticket of the ring refers to. */
  function Onward(r: Ring, p: Path): Path
  {
    if p == r.a then r.b else if p == r.b then r.c else if p == r.c then r.d else r.a
  }

  lemma RingRefs(r: Ring, p: Path)
    requires Proper(r) && p in RingStage(r).tickets
    ensures var h, next := RingHeader(r, p), Onward(r, p);
      && h.decisionRefs == [] && h.supersedes == [r.w.stem(next)] && next in RingStage(r).tickets
      && AllRefs(h) == RecordRefs(h) == if p == r.a || p == r.d then [next, r.w.stem(next)] else [r.w.stem(next)]
  {
  }

  lemma RingSpells(r: Ring, p: Path, ref: string)
    requires Proper(r) && p in RingStage(r).tickets && ref in AllRefs(RingHeader(r, p))
    ensures Spells(RingStage(r), p, ref, Onward(r, p)) && ref in RecordRefs(RingHeader(r, p))
  {
    RingRefs(r, p);
  }

  lemma RingRefers(r: Ring, q: Path)
    requires Proper(r) && q in RingStage(r).tickets && q != r.a
    ensures Refers(RingStage(r), q, RingHeader(r, q), r.a) <==> q == r.d
  {
    var g, h := RingStage(r), RingHeader(r, q);
    RingRefs(r, q);
    if q == r.d {
      assert AllRefs(h)[0] == r.a;
      SpellsBack(g, q, h, r.a, r.a);
    } else {
      forall x | x in AllRefs(h) ensures exists t :: t != r.a && Spells(g, q, x, t) {
        RingSpells(r, q, x);
      }
      SpellsElsewhere(g, q, h, r.a);
    }
  }

  lemma RingValidates(r: Ring, q: Path)
    requires Proper(r)
    ensures q in ValidationPaths(r.w, RingEntries(r), Replace(r.a, Closing(r))) <==> q == r.a || q == r.d
  {
    RingScene(r);
    SceneValidation(RingStage(r), RingEntries(r), r.a, Closing(r), q);
    if q in RingStage(r).tickets && q != r.a {
      RingHeaderIs(r, q);
      RingRefers(r, q);
    }
  }

  lemma RingValidation(r: Ring)
    requires Proper(r)
    ensures ValidationPaths(r.w, RingEntries(r), Replace(r.a, Closing(r))) == {r.a, r.d}
    ensures RingContext(r).seeds == {r.a, r.d, ACTIVATION}
  {
    forall q ensures q in ValidationPaths(r.w, RingEntries(r), Replace(r.a, Closing(r))) <==> q in {r.a, r.d} {
      RingValidates(r, q);
    }
  }

  /** Each reference names the next ticket and no other. */
  lemma RingNames(r: Ring, c: Context, p: Path, ref: string, u: Path)
    requires Proper(r) && RingSeen(r, c) && p in RingStage(r).tickets && ref in AllRefs(RingHeader(r, p))
    ensures Names(c, p, ref, Onward(r, p))
    ensures u in RingStage(r).tickets ==>
      (MayName(c, p, ref, u) <==> u == Onward(r, p)) && (Names(c, p, ref, u) <==> u == Onward(r, p))
  {
    RingSpells(r, p, ref);
    RingRefs(r, p);
    SpellsNames(RingStage(r), c, p, ref, Onward(r, p), u);
  }

  /** No flag of a seed reaches a ticket: the path, read last, resets it. */
  lemma RingFlagsAreLost(r: Ring, c: Context, s: Path, t: Path)
    requires Proper(r) && RingSeen(r, c) && (s == r.a || s == r.d) && t in RingStage(r).tickets
    ensures !Passed(c, s, t)
  {
    var again := Onward(r, s);
    var h := RingHeader(r, s);
    RingRefs(r, s);
    assert AllRefs(h)[0] == again && AllRefs(h)[1] == r.w.stem(again);
    RingNames(r, c, s, r.w.stem(again), t);
    RingNames(r, c, s, again, t);
    LtIrreflexive(again);
    LtAsymmetric(r.w.stem(again), again);
    LastWins(c, s, r.w.stem(again), again, t);
  }

  /** Another reference to the only target, read later, keeps its flag from passing. */
  lemma LastWins(c: Context, s: Path, ref: string, again: string, t: Path)
    requires HeaderAt(c, s).supersedes == [ref] && again in AllRefs(HeaderAt(c, s)) && again != ref
    requires !Lt(again, ref) && (MayName(c, s, ref, t) ==> Names(c, s, again, t))
    ensures !Passed(c, s, t)
  {
  }

  lemma RingChainsStop(r: Ring, c: Context, walk: seq<Path>)
    requires Proper(r) && RingSeen(r, c) && c.seeds == {r.a, r.d, ACTIVATION} && Chain(c, walk)
    ensures |walk| == 2 && walk[1] !in RingStage(r).tickets
  {
    RingSeedOnly(r, c, walk[0], walk[1]);
    if walk[1] in RingStage(r).tickets {
      RingFlagsAreLost(r, c, walk[0], walk[1]);
    }
    if |walk| > 2 {
      EmptyStops(c, walk[1], walk[2]);
    }
  }

  lemma EmptyStops(c: Context, s: Path, t: Path)
    requires HeaderAt(c, s) == EMPTY
    ensures !SupersessionStep(c, s, t)
  {
  }

  lemma RingSeedOnly(r: Ring, c: Context, s: Path, t: Path)
    requires Proper(r) && RingSeen(r, c) && c.seeds == {r.a, r.d, ACTIVATION} && s in c.seeds && Passed(c, s, t)
    ensures s == r.a || s == r.d
  {
    NotATicket(RingStage(r));
  }

  lemma NotATicket(g: Stage)
    requires Staged(g)
    ensures ACTIVATION !in g.tickets
  {
    forall p | p in g.tickets ensures p != ACTIVATION {
      assert TicketAt(g.w, p);
    }
  }

  lemma RingDoesNotName(r: Ring, c: Context)
    requires Proper(r) && RingSeen(r, c) && c.seeds == {r.a, r.d, ACTIVATION}
    ensures !Neighbour(c, r.c) && r.c !in c.seeds
  {
    forall s, ref | s in c.seeds && ref in AllRefs(HeaderAt(c, s)) ensures !MayName(c, s, ref, r.c) {
      if s in RingStage(r).tickets {
        RingNames(r, c, s, ref, r.c);
      }
    }
    NotATicket(RingStage(r));
  }

  lemma RingMisses(r: Ring, c: Context, d: Dependencies)
    requires Proper(r) && RingSeen(r, c) && c.seeds == {r.a, r.d, ACTIVATION} && Within(c, d)
    ensures r.c !in d.paths
  {
    RingDoesNotName(r, c);
    forall walk | Chain(c, walk) ensures walk[|walk| - 1] != r.c {
      RingChainsStop(r, c, walk);
    }
  }

  lemma RingSelects(r: Ring, c: Context, d: Dependencies)
    requires Proper(r) && RingSeen(r, c) && c.seeds == {r.a, r.d, ACTIVATION} && Covers(c, d)
    ensures {r.a, r.b, r.d} <= d.paths
  {
    RingRefs(r, r.a);
    assert AllRefs(RingHeader(r, r.a))[0] == r.b;
    RingNames(r, c, r.a, r.b, r.b);
    assert (r.a, true) in d.expanded;
    CoveredTarget(c, d, r.a, true, r.b, r.b);
  }

  /** The third ticket is not among the checked files; the others are. */
  lemma RingClosure(r: Ring, d: Dependencies)
    requires Proper(r) && Discovered(r.w, RingEntries(r), Replace(r.a, Closing(r)), d)
    ensures {r.a, r.b, r.d} <= d.paths && r.c !in d.paths && d.validationPaths == {r.a, r.d}
  {
    RingIsSeen(r);
    RingValidation(r);
    RingMisses(r, RingContext(r), d);
    RingSelects(r, RingContext(r), d);
  }

  // -- the two checks --

  function RingAfter(r: Ring): Entries
  {
    RingEntries(r)[r.a := Closing(r)]
  }

  lemma RingEdges(r: Ring, x: Entries, p: Path)
    requires Proper(r) && x.Keys <= RingStage(r).tickets
    requires forall q :: q in x ==> x[q] == RingAfter(r)[q] || x[q] == RingEntries(r)[q]
    requires p in x && (p == r.a ==> x[p] == Closing(r))
    ensures Plays(RingStage(r), x) && p in Supersession(r.w, x)
    ensures Supersession(r.w, x)[p] == if Onward(r, p) in x then [Onward(r, p)] else []
  {
    RingPlays(r, x);
    RingSupersedes(r, x[p], p);
    StageEdgeAt(RingStage(r), x, p, Onward(r, p));
  }

  lemma RingPlays(r: Ring, x: Entries)
    requires Proper(r) && x.Keys <= RingStage(r).tickets
    requires forall q :: q in x ==> x[q] == RingAfter(r)[q] || x[q] == RingEntries(r)[q]
    ensures Plays(RingStage(r), x)
  {
    RingScene(r);
  }

  lemma RingSupersedes(r: Ring, t: Record, p: Path)
    requires Proper(r) && p in RingStage(r).tickets && (p == r.a ==> t == Closing(r))
    requires t == RingEntries(r)[p] || t == RingAfter(r)[p]
    ensures t.supersedes == [r.w.stem(Onward(r, p))] && Spells(RingStage(r), p, r.w.stem(Onward(r, p)), Onward(r, p))
  {
  }

  lemma RingIsOpenBefore(r: Ring)
    requires Proper(r)
    ensures NoCycle(r.w, RingEntries(r))
  {
    var x, g := RingEntries(r), RingStage(r);
    RingScene(r);
    StageNode(g, x, r.a);
    RingEdges(r, x, r.b);
    RingEdges(r, x, r.c);
    RingEdges(r, x, r.d);
    StageNodes(g, x);
    LineIsLayered(Supersession(r.w, x), r);
    OrderedIsAcyclic(r.w, x, [r.a, r.d, r.c, r.b]);
  }

  lemma LineIsLayered(g: Graph, r: Ring)
    requires g.Keys == RingStage(r).tickets && g[r.a] == [] && g[r.d] == [r.a] && g[r.c] == [r.d] && g[r.b] == [r.c]
    ensures Layered(g, [r.a, r.d, r.c, r.b])
  {
    var order := [r.a, r.d, r.c, r.b];
    assert order[..1] == [r.a] && order[..2] == [r.a, r.d] && order[..3] == [r.a, r.d, r.c];
  }

  lemma RingIsWalked(g: Graph, r: Ring)
    requires g.Keys == RingStage(r).tickets && g[r.a] == [r.b] && g[r.b] == [r.c] && g[r.c] == [r.d] && g[r.d] == [r.a]
    ensures ReachesCycle(g, r.a)
  {
    var walk := [r.a, r.b, r.c, r.d, r.a];
    assert Walk(g, walk);
    assert walk[0] == walk[4];
    assert Repeats(walk);
  }

  lemma RingComesBack(r: Ring, x: Entries)
    requires Proper(r) && x.Keys == RingStage(r).tickets && x[r.a] == Closing(r)
    requires forall q :: q in x ==> x[q] == RingAfter(r)[q] || x[q] == RingEntries(r)[q]
    ensures Cyclic(r.w, x, r.a)
  {
    RingEdges(r, x, r.a);
    RingEdges(r, x, r.b);
    RingEdges(r, x, r.c);
    RingEdges(r, x, r.d);
    StageNodes(RingStage(r), x);
    RingIsWalked(Supersession(r.w, x), r);
  }

  lemma RingIsClosedAfter(r: Ring)
    requires Proper(r)
    ensures !NoCycle(r.w, RingAfter(r))
  {
    RingComesBack(r, RingAfter(r));
  }

  /** Without its third ticket the ring is open. */
  lemma RingIsOpenLocally(r: Ring, l: Entries)
    requires Proper(r) && Opened(r, l)
    ensures Plays(RingStage(r), l) && NoCycle(r.w, l)
  {
    RingEdges(r, l, r.a);
    RingEdges(r, l, r.b);
    RingEdges(r, l, r.d);
    StageNodes(RingStage(r), l);
    OpenIsLayered(Supersession(r.w, l), r);
    OrderedIsAcyclic(r.w, l, [r.b, r.a, r.d]);
  }

  lemma OpenIsLayered(g: Graph, r: Ring)
    requires r.a != r.b && r.b != r.d && r.a != r.d
    requires g.Keys == {r.a, r.b, r.d} && g[r.b] == [] && g[r.a] == [r.b] && g[r.d] == [r.a]
    ensures Layered(g, [r.b, r.a, r.d])
  {
    var order := [r.b, r.a, r.d];
    assert order[..1] == [r.b] && order[..2] == [r.b, r.a];
  }

  ghost predicate Opened(r: Ring, l: Entries)
  {
    l.Keys == {r.a, r.b, r.d} && RingAfter(r).Keys == RingStage(r).tickets && forall p ::
      p in l ==> l[p] == RingAfter(r)[p]
  }

  lemma RingAnswered(r: Ring, x: Entries, p: Path)
    requires Proper(r) && p in x && Onward(r, p) in x && p in RingStage(r).tickets
    requires x[p] == RingEntries(r)[p] || x[p] == RingAfter(r)[p]
    ensures Answered(RingStage(r), x, p)
  {
    RingWorkRefs(r, x[p], p);
    forall ref | ref in WorkRefs(x[p]) ensures Spells(RingStage(r), p, ref, Onward(r, p)) {
    }
  }

  lemma RingWorkRefs(r: Ring, t: Record, p: Path)
    requires Proper(r) && p in RingStage(r).tickets && (t == RingEntries(r)[p] || t == RingAfter(r)[p])
    ensures t.decisionRefs == []
    ensures forall ref :: ref in WorkRefs(t) ==> ref == Onward(r, p) || ref == r.w.stem(Onward(r, p))
  {
    RingRecord(r, t, p);
  }

  lemma RingRecord(r: Ring, t: Record, p: Path)
    requires Proper(r) && p in RingStage(r).tickets && (t == RingEntries(r)[p] || t == RingAfter(r)[p])
    ensures t.decisionRefs == t.supersededBy == []
    ensures t.relatedTickets == [] || t.relatedTickets == [Onward(r, p)]
    ensures t.supersedes == [] || t.supersedes == [r.w.stem(Onward(r, p))]
  {
  }

  lemma RingPassesLocally(r: Ring, b: Batch)
    requires Proper(r) && b.w == r.w && After(b) == RingAfter(r) && b.d.validationPaths == {r.a, r.d}
    requires {r.a, r.b, r.d} <= b.d.paths && r.c !in b.d.paths && RingAfter(r).Keys == RingStage(r).tickets
    ensures LocallyClean(b)
  {
    var l := LocalSide(b, true);
    assert l.Keys == {r.a, r.b, r.d};
    RingIsOpenLocally(r, l);
    RingAnswered(r, l, r.a);
    RingAnswered(r, l, r.d);
    SilentIsClean(RingStage(r), b);
  }

  /** A local store without anything to report. */
  lemma SilentIsClean(g: Stage, b: Batch)
    requires Staged(g) && g.w == b.w && Plays(g, LocalSide(b, true)) && NoCycle(b.w, LocalSide(b, true))
    requires forall v :: v in b.d.validationPaths && v in LocalSide(b, true) ==> Answered(g, LocalSide(b, true), v)
    ensures LocallyClean(b)
  {
    forall d ensures LocalMultiplicity(b, true, d) == 0 {
      if d.path in b.d.validationPaths || d.Duplicate? {
        StageIsSilent(g, LocalSide(b, true), d);
      }
    }
  }

  lemma RingIsGoodBefore(r: Ring)
    requires Proper(r)
    ensures Good(r.w, RingEntries(r))
  {
    var x := RingEntries(r);
    RingScene(r);
    RingIsOpenBefore(r);
    forall p | p in x ensures Answered(RingStage(r), x, p) {
      RingAnswered(r, x, p);
    }
    StageIsGood(RingStage(r), x);
  }

  lemma TicketsHideNothing(b: Batch)
    requires Sound(b) && Discovered(b.w, b.e, b.changes, b.d) && forall t :: t in b.e ==> Speaks(b.e, t)
    ensures NoHiddenNamesake(b)
  {
    forall after, t, z | Namesakes(b, Side(b, after), t, z) ensures t in b.d.paths {
      NamesakeIsChecked(b, after, t, z);
      SeedIsExpanded(b, t);
    }
  }

  lemma RingPursues(r: Ring, c: Context, s: Path, ref: string)
    requires Proper(r) && RingSeen(r, c) && c.seeds == {r.a, r.d, ACTIVATION} && Pursued(c, s, ref)
    ensures s in RingStage(r).tickets && ref in RecordRefs(HeaderAt(c, s))
  {
    if Chained(c, s) && s !in c.seeds {
      var walk :| Chain(c, walk) && walk[|walk| - 1] == s;
      RingChainsStop(r, c, walk);
    }
    NotATicket(RingStage(r));
    if s in RingStage(r).tickets {
      RingRefs(r, s);
    }
  }

  /** The order of reading does not matter here: the flags are lost whatever it is. */
  lemma RingIsSettled(r: Ring)
    requires Proper(r)
    ensures Settled(RingContext(r))
  {
    var c := RingContext(r);
    RingIsSeen(r);
    RingValidation(r);
    SceneScopes(RingStage(r), r.a, Closing(r));
    forall s, ref | Pursued(c, s, ref) ensures s in RingStage(r).tickets && ref in RecordRefs(HeaderAt(c, s)) {
      RingPursues(r, c, s, ref);
    }
    forall t | t in RingStage(r).tickets
      ensures r.w.facts(t).scope == r.w.facts(r.a).scope && r.w.facts(t).scope.Some?
    {
      assert TicketAt(r.w, t);
    }
    assert AtHome(c, Discovery.Scopes(r.w, Replace(r.a, Closing(r))));
    AtHomeIsSettled(r.w, RingEntries(r), Replace(r.a, Closing(r)));
  }

  lemma TicketsSpeak(g: Stage, e: Entries)
    requires Plays(g, e)
    ensures forall t :: t in e ==> Speaks(e, t)
  {
  }

  /** Work items of other investigations play no part, for there are none. */
  lemma RingIsApart(r: Ring, b: Batch)
    requires Proper(r) && b.w == r.w && b.e.Keys == RingStage(r).tickets && b.changes == Replace(r.a, Closing(r))
    ensures SeparateOutside(b)
  {
    SceneScopes(RingStage(r), r.a, Closing(r));
    assert forall s :: s in b.e ==> InScope(b, s);
  }

  /** A change that names its superseded ticket twice closes a supersession cycle in a store
      in order, and the projected check accepts it: `NoFlagLost` cannot be dropped. */
  lemma OverwrittenFlagHidesCycle(r: Ring, b: Batch)
    requires Overwriting(r, b)
    ensures Sound(b) && Good(b.w, b.e) && NoHiddenNamesake(b) && SeparateOutside(b)
    ensures Settled(ContextOf(b.w, b.e, b.changes)) && !NoFlagLost(ContextOf(b.w, b.e, b.changes))
    ensures LocallyClean(b) && !NoCycle(b.w, After(b))
  {
    RingScene(r);
    SceneIsSound(RingStage(r), b.e, r.a, Closing(r), b.d);
    RingIsGoodBefore(r);
    RingIsSettled(r);
    RingIsClosedAfter(r);
    RingClosure(r, b.d);
    RingPassesLocally(r, b);
    TicketsSpeak(RingStage(r), b.e);
    TicketsHideNothing(b);
    RingIsApart(r, b);
    if NoFlagLost(ContextOf(b.w, b.e, b.changes)) {
      CleanPreviewIsSafe(b);
    }
  }

  /** So a run of a writer that meets nobody takes a store in order to a quiet store with
      a cycle. */
  lemma OverwriteCommits(r: Ring, b: Batch) returns (run: seq<Protocol.System>)
    requires Overwriting(r, b)
    ensures Good(b.w, b.e) && Commit.CarriedOut(b.w, b.e, After(b), run) && !NoCycle(b.w, After(b))
  {
    OverwriteIsAccepted(r, b);
    run := Commit.AcceptedCommits(b, r.a);
  }

  lemma OverwriteIsAccepted(r: Ring, b: Batch)
    requires Overwriting(r, b)
    ensures Discovered(b.w, b.e, b.changes, b.d) && b.changes.Keys == {r.a}
    ensures Good(b.w, b.e) && LocallyClean(b) && !NoCycle(b.w, After(b))
  {
    OverwrittenFlagHidesCycle(r, b);
  }

  // ---- One text in two roles, in another investigation ----

  /** A ticket of one investigation and two of another. */
  datatype Roles = Roles(w: World, a: Path, b: Path, c: Path)

  function RolesStage(r: Roles): Stage
  {
    Stage(r.w, {r.a, r.b, r.c})
  }

  ghost predicate Across(r: Roles)
  {
    && Staged(RolesStage(r)) && r.a != r.b && r.a != r.c && r.b != r.c
    && r.w.facts(r.b).scope == r.w.facts(r.c).scope != r.w.facts(r.a).scope
  }

  /** `b` lists the identity of `c` as a decision and supersedes `c` by it; `c` supersedes `a`. */
  function RolesEntries(r: Roles): Entries
  {
    map[r.a := TicketRecord(r.w, r.a, [], [], []),
        r.b := TicketRecord(r.w, r.b, [r.w.stem(r.c)], [], [r.w.stem(r.c)]),
        r.c := TicketRecord(r.w, r.c, [], [], [r.a])]
  }

  /** The change makes `a` supersede `b`. */
  function Reaching(r: Roles): Record
  {
    TicketRecord(r.w, r.a, [], [], [r.b])
  }

  function RolesAfter(r: Roles): Entries
  {
    RolesEntries(r)[r.a := Reaching(r)]
  }

  ghost predicate DoubleRole(r: Roles, b: Batch)
  {
    && Across(r) && b.w == r.w && b.e == RolesEntries(r) && b.changes == Replace(r.a, Reaching(r))
    && Discovered(b.w, b.e, b.changes, b.d)
  }

  lemma RolesScene(r: Roles)
    requires Across(r)
    ensures Scene(RolesStage(r), RolesEntries(r), r.a, Reaching(r))
  {
    var e := RolesEntries(r);
    assert e[r.a] == TicketRecord(r.w, r.a, [], [], []) && e[r.c] == TicketRecord(r.w, r.c, [], [], [r.a]);
    assert e[r.b] == TicketRecord(r.w, r.b, [r.w.stem(r.c)], [], [r.w.stem(r.c)]);
    forall p | p in e ensures TicketLike(r.w, p, e[p]) {
    }
  }

  function RolesHeader(r: Roles, p: Path): Header
  {
    var id := Some(r.w.stem(p));
    if p == r.a then Header(id, [], [], [r.b], [], [])
    else if p == r.b then Header(id, [r.w.stem(r.c)], [], [r.w.stem(r.c)], [], [])
    else Header(id, [], [], [r.a], [], [])
  }

  function RolesContext(r: Roles): Context
  {
    ContextOf(r.w, RolesEntries(r), Replace(r.a, Reaching(r)))
  }

  ghost predicate RolesSeen(r: Roles, c: Context)
  {
    && Seeing(RolesStage(r), c) && c.e.Keys == RolesStage(r).tickets && c.seeds == {r.a, ACTIVATION} && r.c !in c.known
    && forall p :: p in RolesStage(r).tickets ==> HeaderAt(c, p) == RolesHeader(r, p)
  }

  lemma RolesHeaderIs(r: Roles, p: Path)
    requires Across(r) && p in RolesStage(r).tickets
    ensures SceneHeader(RolesStage(r), RolesEntries(r), r.a, Reaching(r), p) == RolesHeader(r, p)
  {
    if p == r.a {
      assert RolesEntries(r)[p] == TicketRecord(r.w, p, [], [], []);
    }
  }

  lemma RolesValidation(r: Roles)
    requires Across(r)
    ensures ValidationPaths(r.w, RolesEntries(r), Replace(r.a, Reaching(r))) == {r.a}
    ensures RolesContext(r).seeds == {r.a, ACTIVATION}
  {
    forall q ensures q in ValidationPaths(r.w, RolesEntries(r), Replace(r.a, Reaching(r))) <==> q in {r.a} {
      RolesValidates(r, q);
    }
  }

  /** No other ticket of its investigation refers to the changed one. */
  lemma RolesValidates(r: Roles, q: Path)
    requires Across(r)
    ensures q in ValidationPaths(r.w, RolesEntries(r), Replace(r.a, Reaching(r))) <==> q == r.a
  {
    RolesScene(r);
    SceneValidation(RolesStage(r), RolesEntries(r), r.a, Reaching(r), q);
  }

  lemma RolesAreSeen(r: Roles)
    requires Across(r)
    ensures RolesSeen(r, RolesContext(r))
  {
    var e, g := RolesEntries(r), RolesStage(r);
    RolesScene(r);
    RolesValidation(r);
    SceneIsSeen(g, e, r.a, Reaching(r));
    SceneHeaders(g, e, r.a, Reaching(r), r.c);
    forall p | p in g.tickets ensures HeaderAt(RolesContext(r), p) == RolesHeader(r, p) {
      SceneHeaders(g, e, r.a, Reaching(r), p);
      RolesHeaderIs(r, p);
    }
  }

  lemma RolesNames(r: Roles, c: Context, p: Path, u: Path)
    requires Across(r) && RolesSeen(r, c) && (p == r.a || p == r.c) && u in RolesStage(r).tickets
    ensures var next := if p == r.a then r.b else r.a;
      AllRefs(HeaderAt(c, p)) == [next] == HeaderAt(c, p).supersedes && (Names(c, p, next, u) <==> u == next)
  {
    var next := if p == r.a then r.b else r.a;
    assert RolesHeader(r, p).supersedes == [next]
      && AllRefs(RolesHeader(r, p)) == [next] == RecordRefs(RolesHeader(r, p));
    SpellsNames(RolesStage(r), c, p, next, next, u);
  }

  /** Looked up as a decision, the identity of `c` is no name of `c`. */
  lemma RolesLookUp(r: Roles, c: Context)
    requires Across(r) && RolesSeen(r, c)
    ensures AllRefs(HeaderAt(c, r.b)) == [r.w.stem(r.c), r.w.stem(r.c)]
    ensures !Names(c, r.b, r.w.stem(r.c), r.c)
  {
    assert TicketAt(r.w, r.c);
    assert RolesHeader(r, r.b).decisionRefs == [r.w.stem(r.c)];
  }

  lemma RolesMiss(r: Roles, c: Context, s: Path, full: bool, ref: string)
    requires Across(r) && RolesSeen(r, c) && ref in FollowedRefs(HeaderAt(c, s), full)
    ensures !Names(c, s, ref, r.c)
  {
    if s in RolesStage(r).tickets {
      if s == r.b {
        RolesLookUp(r, c);
      } else {
        RolesNames(r, c, s, r.c);
      }
    }
  }

  lemma RolesClosure(r: Roles, c: Context, d: Dependencies)
    requires Across(r) && RolesSeen(r, c) && Covers(c, d) && Within(c, d)
    ensures {r.a, r.b} <= d.paths && r.c !in d.paths
  {
    forall s, full, ref | (s, full) in d.expanded && ref in FollowedRefs(HeaderAt(c, s), full)
      ensures !Names(c, s, ref, r.c)
    {
      RolesMiss(r, c, s, full, ref);
    }
    assert r.c !in c.seeds by {
      NotATicket(RolesStage(r));
    }
    assert !Sourced(c, d.expanded, r.c);
    RolesNames(r, c, r.a, r.b);
    assert (r.a, true) in d.expanded;
    CoveredTarget(c, d, r.a, true, r.b, r.b);
  }

  lemma RolesEdges(r: Roles, x: Entries, p: Path)
    requires Across(r) && x.Keys <= RolesStage(r).tickets && p in x
    requires forall q :: q in x ==> x[q] == RolesAfter(r)[q] || x[q] == RolesEntries(r)[q]
    requires p == r.a ==> x[p] == Reaching(r)
    ensures Plays(RolesStage(r), x) && p in Supersession(r.w, x)
    ensures var next := if p == r.a then r.b else if p == r.b then r.c else r.a;
      Supersession(r.w, x)[p] == if next in x then [next] else []
  {
    RolesPlay(r, x);
    StageEdgeAt(RolesStage(r), x, p, if p == r.a then r.b else if p == r.b then r.c else r.a);
  }

  lemma RolesPlay(r: Roles, x: Entries)
    requires Across(r) && x.Keys <= RolesStage(r).tickets
    requires forall q :: q in x ==> x[q] == RolesAfter(r)[q] || x[q] == RolesEntries(r)[q]
    ensures Plays(RolesStage(r), x)
  {
    RolesScene(r);
  }

  lemma RolesAreOpen(r: Roles)
    requires Across(r)
    ensures NoCycle(r.w, RolesEntries(r))
  {
    var x, g := RolesEntries(r), RolesStage(r);
    RolesScene(r);
    RolesEdges(r, x, r.b);
    RolesEdges(r, x, r.c);
    StageNodes(g, x);
    StageNode(g, x, r.a);
    RolesLayered(Supersession(r.w, x), r);
    OrderedIsAcyclic(r.w, x, [r.a, r.c, r.b]);
  }

  lemma RolesLayered(g: Graph, r: Roles)
    requires g.Keys == RolesStage(r).tickets && g[r.a] == [] && g[r.c] == [r.a] && g[r.b] == [r.c]
    ensures Layered(g, [r.a, r.c, r.b])
  {
    var order := [r.a, r.c, r.b];
    assert order[..1] == [r.a] && order[..2] == [r.a, r.c];
  }

  lemma RolesAreClosed(r: Roles)
    requires Across(r)
    ensures Cyclic(r.w, RolesAfter(r), r.a)
  {
    var x, g := RolesAfter(r), RolesStage(r);
    RolesEdges(r, x, r.a);
    RolesEdges(r, x, r.b);
    RolesEdges(r, x, r.c);
    StageNodes(g, x);
    RolesAreWalked(Supersession(r.w, x), r);
  }

  lemma RolesAreWalked(g: Graph, r: Roles)
    requires g.Keys == RolesStage(r).tickets && g[r.a] == [r.b] && g[r.b] == [r.c] && g[r.c] == [r.a]
    ensures ReachesCycle(g, r.a)
  {
    var walk := [r.a, r.b, r.c, r.a];
    assert Walk(g, walk);
    assert walk[0] == walk[3];
    assert Repeats(walk);
  }

  lemma RolesAreOpenLocally(r: Roles, l: Entries)
    requires Across(r) && l.Keys == {r.a, r.b} && forall p :: p in l ==> l[p] == RolesAfter(r)[p]
    ensures Plays(RolesStage(r), l) && NoCycle(r.w, l) && Answered(RolesStage(r), l, r.a)
  {
    RolesEdges(r, l, r.a);
    RolesEdges(r, l, r.b);
    StageNodes(RolesStage(r), l);
    PairIsLayered(Supersession(r.w, l), r.a, r.b);
    OrderedIsAcyclic(r.w, l, [r.b, r.a]);
    assert WorkRefs(Reaching(r)) == [r.b];
    assert Spells(RolesStage(r), r.a, r.b, r.b);
  }

  lemma PairIsLayered(g: Graph, a: Path, b: Path)
    requires a != b && g.Keys == {a, b} && g[a] == [b] && g[b] == []
    ensures Layered(g, [b, a])
  {
    assert [b, a][..1] == [b];
  }

  lemma RolesPassLocally(r: Roles, b: Batch)
    requires Across(r) && b.w == r.w && After(b) == RolesAfter(r) && b.d.validationPaths == {r.a}
    requires {r.a, r.b} <= b.d.paths && r.c !in b.d.paths && RolesAfter(r).Keys == RolesStage(r).tickets
    ensures LocallyClean(b)
  {
    assert LocalSide(b, true).Keys == {r.a, r.b};
    RolesAreOpenLocally(r, LocalSide(b, true));
    SilentIsClean(RolesStage(r), b);
  }

  lemma RolesLoseNothing(r: Roles, c: Context)
    requires Across(r) && RolesSeen(r, c)
    ensures NoFlagLost(c)
  {
    RolesNames(r, c, r.a, r.b);
    OneReferenceCarries(c, r.a, r.b);
    forall s, ref, t | s in c.seeds && ref in HeaderAt(c, s).supersedes && Names(c, s, ref, t) ensures Kept(c, t) {
      RolesSeedNames(r, c, s, ref, t);
    }
  }

  lemma RolesSeedNames(r: Roles, c: Context, s: Path, ref: string, t: Path)
    requires Across(r) && RolesSeen(r, c) && s in c.seeds && ref in HeaderAt(c, s).supersedes && Names(c, s, ref, t)
    ensures t == r.b || HeaderAt(c, t) == EMPTY
  {
    NotATicket(RolesStage(r));
    if t in RolesStage(r).tickets {
      RolesNames(r, c, r.a, t);
    }
  }

  lemma OneReferenceCarries(c: Context, s: Path, t: Path)
    requires s in c.seeds && AllRefs(HeaderAt(c, s)) == [t] == HeaderAt(c, s).supersedes && Names(c, s, t, t)
    ensures SurelyChained(c, t)
  {
    assert t in HeaderAt(c, s).supersedes && Carried(c, s, t);
    assert SureChain(c, [s, t]);
  }

  lemma RolesAreChecked(r: Roles, b: Batch)
    requires DoubleRole(r, b)
    ensures Sound(b) && NoHiddenNamesake(b) && NoFlagLost(ContextOf(b.w, b.e, b.changes))
    ensures After(b) == RolesAfter(r) && LocallyClean(b)
  {
    RolesScene(r);
    SceneIsSound(RolesStage(r), b.e, r.a, Reaching(r), b.d);
    RolesAreSeen(r);
    RolesValidation(r);
    RolesClosure(r, RolesContext(r), b.d);
    RolesPassLocally(r, b);
    RolesLoseNothing(r, RolesContext(r));
    TicketsSpeak(RolesStage(r), b.e);
    TicketsHideNothing(b);
  }

  lemma NewCycleFailsWholly(b: Batch, p: Path)
    requires p in b.changes && Cyclic(b.w, After(b), p) && NoCycle(b.w, b.e)
    ensures !WhollyClean(b) && !NoCycle(b.w, After(b))
  {
    assert InScope(b, p);
    CycleCount(b.w, After(b), p);
    CycleCount(b.w, b.e, p);
    assert WholeMultiplicity(b, true, SupersessionCycle(p)) > WholeMultiplicity(b, false, SupersessionCycle(p));
  }

  /** A text that a ticket of another investigation uses in two roles hides a cycle: the
      premise about other investigations cannot be dropped. */
  lemma DoubleRoleHidesCycle(r: Roles, b: Batch)
    requires DoubleRole(r, b)
    ensures Sound(b) && NoHiddenNamesake(b) && NoFlagLost(ContextOf(b.w, b.e, b.changes)) && !SeparateOutside(b)
    ensures NoCycle(b.w, b.e) && LocallyClean(b) && !WhollyClean(b) && !NoCycle(b.w, After(b))
  {
    RolesAreChecked(r, b);
    RolesAreOpen(r);
    RolesAreClosed(r);
    NewCycleFailsWholly(b, r.a);
    if SeparateOutside(b) {
      ProjectedCheckIsExact(b);
    }
  }

  // ---- A reference from another investigation ----

  /** `c` is related to `a` by its path. */
  function RelatedEntries(r: Roles): Entries
  {
    map[r.a := TicketRecord(r.w, r.a, [], [], []), r.c := TicketRecord(r.w, r.c, [], [r.a], [])]
  }

  function RelatedAfter(r: Roles): Entries
  {
    map[r.c := TicketRecord(r.w, r.c, [], [r.a], [])]
  }

  /** The batch removes `a`. */
  ghost predicate Removal(r: Roles, b: Batch)
  {
    && Across(r) && b.w == r.w && b.e == RelatedEntries(r) && b.changes == map[r.a := None]
    && Discovered(b.w, b.e, b.changes, b.d)
  }

  lemma RemovalAfter(r: Roles, b: Batch)
    requires b.e == RelatedEntries(r) && b.changes == map[r.a := None] && r.a != r.c
    ensures After(b) == RelatedAfter(r)
  {
  }

  lemma RelatedPlay(r: Roles)
    requires Across(r)
    ensures Plays(RolesStage(r), RelatedEntries(r)) && Plays(RolesStage(r), RelatedAfter(r))
  {
    RecordsAreTicketLike(r.w, r.a, [], [], []);
    RecordsAreTicketLike(r.w, r.c, [], [r.a], []);
  }

  lemma RecordsAreTicketLike(w: World, p: Path, decisions: seq<string>, related: seq<string>, supersedes: seq<string>)
    ensures TicketLike(w, p, TicketRecord(w, p, decisions, related, supersedes))
  {
  }

  lemma RemovalIsSound(r: Roles, b: Batch)
    requires Removal(r, b)
    ensures Sound(b) && After(b) == RelatedAfter(r) && r.c !in b.d.validationPaths
  {
    RemovalAfter(r, b);
    RelatedAreWellFormed(r);
    RemovalReaches(r, b);
  }

  lemma RelatedAreWellFormed(r: Roles)
    requires Across(r)
    ensures WellFormed(r.w, RelatedEntries(r)) && WellFormed(r.w, RelatedAfter(r))
  {
    RelatedPlay(r);
    StageWellFormed(RolesStage(r), RelatedEntries(r));
    StageWellFormed(RolesStage(r), RelatedAfter(r));
  }

  /** The other investigation is not listed. */
  lemma RemovalReaches(r: Roles, b: Batch)
    requires Removal(r, b)
    ensures Writable(b.w, b.changes) && r.c !in b.d.validationPaths
  {
    assert TicketAt(r.w, r.a);
    RemovalScope(r.w, r.a);
    UnlistedIsNotValidated(b.w, b.e, b.changes, r.c);
  }

  lemma RemovalScope(w: World, a: Path)
    ensures Discovery.Scopes(w, map[a := None]) == {w.facts(a).scope}
  {
    var changes: Overlay := map[a := None];
    assert a in changes;
  }

  lemma UnlistedIsNotValidated(w: World, e: Entries, changes: Overlay, p: Path)
    requires p !in changes && w.facts(p).scope !in Discovery.Scopes(w, changes)
    ensures p !in ValidationPaths(w, e, changes)
  {
  }

  /** Tickets that supersede nothing make no cycle. */
  lemma NothingSuperseded(g: Stage, x: Entries)
    requires Staged(g) && Plays(g, x) && forall p :: p in x ==> x[p].supersedes == []
    ensures NoCycle(g.w, x)
  {
    StageNodes(g, x);
    forall p | p in x ensures Supersession(g.w, x)[p] == [] {
      StageNode(g, x, p);
    }
    forall s ensures !Cyclic(g.w, x, s) {
      NoEdgesNoCycle(Supersession(g.w, x), s);
    }
  }

  lemma NoEdgesNoCycle(g: Graph, n: string)
    requires forall p :: p in g ==> g[p] == []
    ensures !ReachesCycle(g, n)
  {
    forall walk ensures Walk(g, walk) ==> |walk| <= 1 {
      if |walk| > 1 && walk[0] in g {
        assert walk[1] !in g[walk[0]];
      }
    }
  }

  lemma RelatedIsGood(r: Roles)
    requires Across(r)
    ensures Good(r.w, RelatedEntries(r)) && NoCycle(r.w, RelatedAfter(r))
  {
    var g, e := RolesStage(r), RelatedEntries(r);
    RelatedPlay(r);
    NothingSuperseded(g, e);
    NothingSuperseded(g, RelatedAfter(r));
    assert WorkRefs(e[r.c]) == [r.a] && WorkRefs(e[r.a]) == [] && Spells(g, r.c, r.a, r.a);
    StageIsGood(g, e);
  }

  lemma RemovalPasses(r: Roles, b: Batch)
    requires Across(r) && b.w == r.w && After(b) == RelatedAfter(r) && r.c !in b.d.validationPaths
    ensures LocallyClean(b)
  {
    var g, l := RolesStage(r), LocalSide(b, true);
    RelatedPlay(r);
    assert forall p :: p in l ==> p == r.c && l[p] == RelatedAfter(r)[p];
    NothingSuperseded(g, l);
    SilentIsClean(g, b);
  }

  /** Removing a ticket that another investigation names by its path is accepted in a store in
      order, and leaves that reference unresolved. */
  lemma RemovalBreaksForeignReference(r: Roles, b: Batch)
    requires Removal(r, b)
    ensures Sound(b) && Good(b.w, b.e) && LocallyClean(b)
    ensures WorkItem(b.w, After(b), r.c) && r.a in WorkRefs(After(b)[r.c])
    ensures Unresolved(b.w, After(b), r.c, r.a, AsWork)
  {
    RemovalIsSound(r, b);
    RelatedIsGood(r);
    RemovalPasses(r, b);
    RelatedBreaks(r);
  }

  lemma RelatedBreaks(r: Roles)
    requires Across(r)
    ensures var x := RelatedAfter(r);
      WorkItem(r.w, x, r.c) && r.a in WorkRefs(x[r.c]) && Unresolved(r.w, x, r.c, r.a, AsWork)
  {
    var g, x := RolesStage(r), RelatedAfter(r);
    RelatedPlay(r);
    StageWorkItem(g, x, r.c);
    assert WorkRefs(x[r.c]) == [r.a] && [r.a][0] == r.a;
    StageTargets(g, x, r.c, r.a, r.a);
  }

  // ---- Every such activation has these batches ----

  /** The identities of a ticket file, which sort before every path. */
  predicate EarlyId(id: string)
  {
    TicketId(id) && id[0] < 'p'
  }

  lemma {:induction false} NotDecisionName(id: string)
    requires forall i :: 0 < i < |id| && id[i] == 'D' ==> id[i - 1] != '-'
    ensures !DecisionName(id)
  {
    if |id| >= 3 {
      NotDecisionName(id[1..]);
    }
  }

  lemma NumberedId(id: string)
    requires |id| == 7 && id[0] == 'H' && id[1] == 'M' && id[2] == 'D' && id[3] == '-' && id[4] == id[5] == '0'
    requires '0' <= id[6] <= '9'
    ensures EarlyId(id)
  {
    NotDecisionName(id);
  }

  lemma NumberedIds(a: string, b: string, c: string, d: string)
    requires a == "HMD-001" && b == "HMD-002" && c == "HMD-003" && d == "HMD-004"
    ensures EarlyId(a) && EarlyId(b) && EarlyId(c) && EarlyId(d)
    ensures a != b && a != c && a != d && b != c && b != d && c != d
  {
    NumberedId(a);
    NumberedId(b);
    NumberedId(c);
    NumberedId(d);
    assert a[6] == '1' && b[6] == '2' && c[6] == '3' && d[6] == '4';
  }

  lemma TicketIsStaged(active: Activated, root: string, id: string)
    requires Active(active) && Leaf(active, root) && Layout.SafeRelative(root) && TicketId(id)
    ensures TicketAt(WorldOf(active), TicketPath(root, id))
  {
    TicketFacts(active, root, id);
    forall u | u in WorldOf(active).conventional(root, id) ensures Stem(u) == id {
      ConventionalStem(active, root, id, u);
    }
  }

  /** The path of a ticket in an investigation of the project. */
  ghost predicate TicketOf(active: Activated, project: Option<string>, p: Path, root: string, id: string)
  {
    p == TicketPath(root, id) && Pitch(active, root) && TicketId(id) && ProjectOf(active, root) == project
  }

  lemma TicketOfFacts(active: Activated, project: Option<string>, p: Path, root: string, id: string)
    requires TicketOf(active, project, p, root, id)
    ensures var w := WorldOf(active);
      && TicketAt(w, p) && w.facts(p).scope == Some(root) && w.stem(p) == id && w.facts(p).project == project
      && p == TicketPath(w.facts(p).scope.value, w.stem(p))
  {
    TicketFacts(active, root, id);
    TicketIsStaged(active, root, id);
  }

  /** Tickets of investigations of one project make a stage. */
  lemma TicketsAreStaged(active: Activated, project: Option<string>, tickets: set<Path>)
    requires Active(active) && forall p :: p in tickets ==> exists root, id :: TicketOf(active, project, p, root, id)
    ensures Staged(Stage(WorldOf(active), tickets))
  {
    WorldIsCoherent(active);
    forall p | p in tickets
      ensures var w := WorldOf(active);
        && TicketAt(w, p) && w.facts(p).project == project
        && w.facts(p).scope.Some? && p == TicketPath(w.facts(p).scope.value, w.stem(p))
    {
      var root, id :| TicketOf(active, project, p, root, id);
      TicketOfFacts(active, project, p, root, id);
    }
  }

  lemma EarlyIdSorts(active: Activated, root: string, id: string)
    requires RootsPlaced(active) && root in Roots(active) && EarlyId(id)
    ensures Lt(id, TicketPath(root, id))
  {
    RootsAreBelowProjects(active, root);
    assert root[..|PROJECTS|] == PROJECTS && TicketPath(root, id)[0] == root[0] == 'p';
  }

  lemma DifferentTickets(active: Activated, root: string, i: string, j: string)
    requires Active(active) && Leaf(active, root) && Layout.SafeRelative(root) && TicketId(i) && TicketId(j) && i != j
    ensures TicketPath(root, i) != TicketPath(root, j)
  {
    TicketFacts(active, root, i);
    TicketFacts(active, root, j);
  }

  ghost predicate Pitch(active: Activated, root: string)
  {
    Active(active) && Leaf(active, root) && Layout.SafeRelative(root)
  }

  ghost function RingOf(active: Activated, root: string, a: string, b: string, c: string, d: string): Ring
  {
    Ring(WorldOf(active), TicketPath(root, a), TicketPath(root, b), TicketPath(root, c), TicketPath(root, d))
  }

  lemma RingDiffers(active: Activated, root: string, a: string, b: string, c: string, d: string)
    requires Pitch(active, root) && TicketId(a) && TicketId(b) && TicketId(c) && TicketId(d)
    requires a != b && a != c && a != d && b != c && b != d && c != d
    ensures var r := RingOf(active, root, a, b, c, d);
      r.a != r.b && r.a != r.c && r.a != r.d && r.b != r.c && r.b != r.d && r.c != r.d
  {
    DifferentTickets(active, root, a, b);
    DifferentTickets(active, root, a, c);
    DifferentTickets(active, root, a, d);
    DifferentTickets(active, root, b, c);
    DifferentTickets(active, root, b, d);
    DifferentTickets(active, root, c, d);
  }

  lemma RingStaged(active: Activated, root: string, a: string, b: string, c: string, d: string)
    requires Pitch(active, root) && TicketId(a) && TicketId(b) && TicketId(c) && TicketId(d)
    ensures Staged(RingStage(RingOf(active, root, a, b, c, d)))
  {
    var tickets := RingStage(RingOf(active, root, a, b, c, d)).tickets;
    forall p | p in tickets ensures exists r, id :: TicketOf(active, ProjectOf(active, root), p, r, id) {
      assert exists id :: id in {a, b, c, d} && p == TicketPath(root, id);
      var id :| id in {a, b, c, d} && p == TicketPath(root, id);
      assert TicketOf(active, ProjectOf(active, root), p, root, id);
    }
    TicketsAreStaged(active, ProjectOf(active, root), tickets);
  }

  lemma TicketScope(active: Activated, root: string, id: string)
    requires Pitch(active, root) && TicketId(id)
    ensures WorldOf(active).facts(TicketPath(root, id)).scope == Some(root)
  {
    TicketFacts(active, root, id);
  }

  lemma OneScope(r: Ring, scope: Option<string>)
    requires r.w.facts(r.a).scope == scope && r.w.facts(r.b).scope == scope
    requires r.w.facts(r.c).scope == scope && r.w.facts(r.d).scope == scope
    ensures forall p :: p in RingStage(r).tickets ==> r.w.facts(p).scope == scope
  {
  }

  /** In every investigation without another one inside it, any four ticket identities make
      a ring. */
  lemma RingIsProper(active: Activated, root: string, a: string, b: string, c: string, d: string)
    requires Pitch(active, root) && EarlyId(a) && EarlyId(b) && TicketId(c) && TicketId(d)
    requires a != b && a != c && a != d && b != c && b != d && c != d
    ensures Proper(RingOf(active, root, a, b, c, d))
  {
    RingDiffers(active, root, a, b, c, d);
    RingStaged(active, root, a, b, c, d);
    TicketScope(active, root, a);
    TicketScope(active, root, b);
    TicketScope(active, root, c);
    TicketScope(active, root, d);
    OneScope(RingOf(active, root, a, b, c, d), Some(root));
    TicketFacts(active, root, a);
    TicketFacts(active, root, b);
    EarlyIdSorts(active, root, a);
    EarlyIdSorts(active, root, b);
  }

  /** Concrete paths and identities of a ring. */
  lemma RingExists() returns (active: Activated, root: string, r: Ring)
    ensures Pitch(active, root) && Proper(r)
    ensures r == RingOf(active, root, "HMD-001", "HMD-002", "HMD-003", "HMD-004")
  {
    var other;
    active, root, other := SmallIsActive();
    var a, b, c, d := "HMD-001", "HMD-002", "HMD-003", "HMD-004";
    NumberedIds(a, b, c, d);
    RingIsProper(active, root, a, b, c, d);
    r := RingOf(active, root, a, b, c, d);
  }

  ghost function RolesOf(active: Activated, root: string, other: string, a: string, b: string, c: string): Roles
  {
    Roles(WorldOf(active), TicketPath(root, a), TicketPath(other, b), TicketPath(other, c))
  }

  lemma RolesStaged(active: Activated, root: string, other: string, a: string, b: string, c: string)
    requires Pitch(active, root) && Pitch(active, other) && ProjectOf(active, root) == ProjectOf(active, other)
    requires TicketId(a) && TicketId(b) && TicketId(c)
    ensures Staged(RolesStage(RolesOf(active, root, other, a, b, c)))
  {
    var project := ProjectOf(active, root);
    assert TicketOf(active, project, TicketPath(root, a), root, a);
    assert TicketOf(active, project, TicketPath(other, b), other, b);
    assert TicketOf(active, project, TicketPath(other, c), other, c);
    TicketsAreStaged(active, project, RolesStage(RolesOf(active, root, other, a, b, c)).tickets);
  }

  /** Any two such investigations of a project have tickets for the second batch. */
  lemma RolesAreAcross(active: Activated, root: string, other: string, a: string, b: string, c: string)
    requires Pitch(active, root) && Pitch(active, other) && root != other
    requires ProjectOf(active, root) == ProjectOf(active, other)
    requires TicketId(a) && TicketId(b) && TicketId(c) && b != c
    ensures Across(RolesOf(active, root, other, a, b, c))
  {
    RolesStaged(active, root, other, a, b, c);
    TicketFacts(active, root, a);
    TicketFacts(active, other, b);
    TicketFacts(active, other, c);
  }

  lemma RolesExist() returns (active: Activated, north: string, south: string, r: Roles)
    ensures Pitch(active, north) && Pitch(active, south) && Across(r)
    ensures r == RolesOf(active, north, south, "HMD-001", "HMD-002", "HMD-003")
  {
    active, north, south := SmallIsActive();
    var a, b, c := "HMD-001", "HMD-002", "HMD-003";
    NumberedIds(a, b, c, "HMD-004");
    RolesAreAcross(active, north, south, a, b, c);
    r := RolesOf(active, north, south, a, b, c);
  }

  lemma DecisionIdentity(id: string)
    requires id == "HMD-D-001"
    ensures Layout.NormalSegment(id) && Layout.Clean(id) && DecisionName(id)
  {
    LongIsNormal(id);
    assert id[1..][1..][1..] == id[3..];
    assert DecisionName(id[3..]);
    assert DecisionName(id[1..][1..]) && DecisionName(id[1..]);
  }

  ghost function HiddenOf(active: Activated, root: string, id: string, name: string, board: string): Hidden
  {
    Hidden(WorldOf(active), PairPath(root, "decision-log", name + ".md"), PairPath(root, "boards", board + ".toml"), id)
  }

  /** In every such investigation a decision and a board can play these parts. */
  lemma HiddenIsNamed(active: Activated, root: string, id: string, name: string, board: string)
    requires Pitch(active, root) && Layout.Clean(id) && Layout.NormalSegment(id) && DecisionName(id)
    requires NameMatches(name, id) && '/' !in name && '.' !in name && '-' in name && '/' !in board
    ensures Named(HiddenOf(active, root, id, name, board))
  {
    SafeName(id);
    WorldIsCoherent(active);
    DecisionFacts(active, root, name);
    BoardFacts(active, root, board);
  }

  lemma DecisionFile(id: string, name: string, board: string)
    requires id == "HMD-D-001" && name == "HMD-D-001-scope" && board == "plan"
    ensures NameMatches(name, id) && '/' !in name && '.' !in name && '-' in name && '/' !in board
  {
    assert name == id + "-scope";
  }

  lemma HiddenExists() returns (active: Activated, root: string, h: Hidden)
    ensures Pitch(active, root) && Named(h) && h == HiddenOf(active, root, "HMD-D-001", "HMD-D-001-scope", "plan")
  {
    var other;
    active, root, other := SmallIsActive();
    var id, name, board := "HMD-D-001", "HMD-D-001-scope", "plan";
    DecisionIdentity(id);
    DecisionFile(id, name, board);
    HiddenIsNamed(active, root, id, name, board);
    h := HiddenOf(active, root, id, name, board);
  }
}
