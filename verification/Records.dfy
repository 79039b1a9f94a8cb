/** Records, the facts a path carries, and what a reference may name.

    Parsed files are values: the classifier's verdict (`governed`, `identity`) next to
    the header that dependency discovery reads (`headerId` and the reference lists). */
module Records {
  import opened Wrappers

  type Path = string

  datatype Kind =
    | Activation | ProjectMap | Request | Decision | Evidence | Review | Plan | Closeout
    | Strategy | StrategyBinding | StrategyTransition | Ticket | Epic | Board | Progress

  datatype PathFacts = PathFacts(project: Option<string>, scope: Option<string>, kind: Option<Kind>)

  /** The activation and the file layout, which no record mutation changes. `conventional`
      lists the paths at which a work item of a scope can carry an identity. */
  datatype World = World(
    facts: Path -> PathFacts,
    stem: Path -> string,
    safe: string -> bool,
    conventional: (string, string) -> set<Path>)

  datatype Record = Record(
    governed: bool,
    identity: Option<string>,
    headerId: Option<string>,
    decisionRefs: seq<string>,
    relatedTickets: seq<string>,
    supersedes: seq<string>,
    supersededBy: seq<string>,
    refs: seq<string>)

  const ACTIVATION: Path := "casefile.toml"

  type Entries = map<Path, Record>
  type Overlay = map<Path, Option<Record>>

  predicate Explicit(reference: string)
  {
    '/' in reference
  }

  predicate IsWork(kind: Option<Kind>)
  {
    kind == Some(Ticket) || kind == Some(Epic)
  }

  predicate IsWritable(kind: Option<Kind>)
  {
    IsWork(kind) || kind == Some(Board)
  }

  /** The references of a work item that must name another work item. */
  function WorkRefs(r: Record): seq<string>
  {
    r.relatedTickets + r.supersedes + r.supersededBy
  }

  ghost predicate WorkItem(w: World, e: Entries, p: Path)
  {
    p in e && e[p].governed && IsWork(w.facts(p).kind)
  }

  /** A decision file is listed under a reference when its name is the reference or
      continues it with a hyphen. */
  predicate NameMatches(stem: string, reference: string)
  {
    stem == reference || (reference <= stem && |reference| < |stem| && stem[|reference|] == '-')
  }

  /** The text that only the identities of decisions carry. */
  predicate DecisionName(id: string)
  {
    |id| >= 3 && ((id[0] == '-' && id[1] == 'D' && id[2] == '-') || DecisionName(id[1..]))
  }

  /** What the layout guarantees of every path. */
  ghost predicate Coherent(w: World)
  {
    && w.facts(ACTIVATION) == PathFacts(None, None, Some(Activation))
    && (forall p :: w.facts(p).scope.Some? ==> w.facts(p).project.Some?)
    && (forall p, q :: w.facts(p).scope.Some? && w.facts(p).scope == w.facts(q).scope ==>
        w.facts(p).project == w.facts(q).project)
    && (forall p, q :: w.facts(p).scope.Some? && w.facts(q).scope.None? ==> w.facts(p).scope != w.facts(q).project)
    && (forall s, id, p :: p in w.conventional(s, id) ==> w.facts(p).scope == Some(s) && IsWork(w.facts(p).kind))
  }

  /** What classification guarantees of the record at a path. */
  ghost predicate WellPlaced(w: World, p: Path, r: Record)
  {
    var facts := w.facts(p);
    && (r.identity.Some? ==>
        r.governed && !Explicit(r.identity.value) && (IsWritable(facts.kind) || facts.kind == Some(Decision)))
    && (r.governed && IsWork(facts.kind) ==>
        && facts.scope.Some? && r.identity == r.headerId == Some(w.stem(p))
        && w.safe(w.stem(p)) && !DecisionName(w.stem(p)) && r.refs == []
        && p in w.conventional(facts.scope.value, w.stem(p)))
    && (r.governed && facts.kind == Some(Board) ==> facts.scope.Some? && r.identity.Some? && r.identity == r.headerId)
    && (r.governed && facts.kind == Some(Decision) && r.identity.Some? ==>
        w.safe(r.identity.value) && DecisionName(r.identity.value) && NameMatches(w.stem(p), r.identity.value))
    && (r.governed && (facts.kind == Some(Evidence) || facts.kind == Some(Review)) ==>
      facts.scope.Some? && r.identity.None?)
  }

  ghost predicate WellFormed(w: World, e: Entries)
  {
    forall p :: p in e ==> WellPlaced(w, p, e[p])
  }

  /** Whether a reference of a source may name the record `id` at `target`. */
  predicate Matches(w: World, source: PathFacts, reference: string, target: Path, id: Option<string>, facts: PathFacts)
  {
    && source.project.Some? && source.project == facts.project
    && if Explicit(reference) then
         w.safe(reference) && reference == target
       else
         id == Some(reference) && (source.scope == facts.scope || (facts.scope.None? && facts.kind == Some(Decision)))
  }

  /** References stay in their project, and a bare one leaves its investigation only for a
      decision of the project outside every investigation. */
  lemma ReferencesStayInside(w: World, source: PathFacts, reference: string, target: Path, id: Option<string>,
                             facts: PathFacts)
    requires Matches(w, source, reference, target, id, facts)
    ensures source.project.Some? && facts.project == source.project
    ensures '/' in reference ==> target == reference
    ensures '/' !in reference ==> id == Some(reference)
    ensures '/' !in reference && facts.scope != source.scope ==> facts.scope == None && facts.kind == Some(Decision)
  {
  }

  predicate DecisionListed(w: World, source: PathFacts, reference: string, t: Path)
  {
    var facts := w.facts(t);
    && facts.kind == Some(Decision) && NameMatches(w.stem(t), reference)
    && (facts.scope == source.scope || (facts.scope.None? && facts.project == source.project))
  }

  /** The paths a reference points at by name alone, whether or not a file is there.
      Only the decision listing consults the existing files. */
  function Candidates(w: World, e: Entries, source: Path, reference: string, decision: bool): set<Path>
  {
    var from := w.facts(source);
    if Explicit(reference) then
      var target := w.facts(reference);
      if w.safe(reference) && from.project.Some? && from.project == target.project
         && (IsWork(target.kind) || target.kind == Some(Decision))
      then {reference} else {}
    else if !w.safe(reference) || from.scope.None? then {}
    else if !decision then w.conventional(from.scope.value, reference)
    else set t | t in e && DecisionListed(w, from, reference, t)
  }

  datatype Role = AsDecision | AsWork | AsMetadata

  /** The governed entries a reference of one class may resolve to. */
  ghost predicate Eligible(w: World, e: Entries, s: Path, reference: string, role: Role, t: Path)
  {
    && t in e && e[t].governed
    && match role
       case AsWork => IsWork(w.facts(t).kind) && Matches(w, w.facts(s), reference, t, e[t].identity, w.facts(t))
       case AsDecision =>
         w.facts(t).kind == Some(Decision) && Matches(w, w.facts(s), reference, t, e[t].identity, w.facts(t))
       case AsMetadata =>
         && e[t].identity == Some(reference)
         && w.facts(t).project == w.facts(s).project && w.facts(t).scope == w.facts(s).scope
  }

  ghost function Targets(w: World, e: Entries, s: Path, reference: string, role: Role): set<Path>
  {
    set t | t in e && Eligible(w, e, s, reference, role, t)
  }

  ghost predicate Resolves(w: World, e: Entries, s: Path, reference: string, role: Role, t: Path)
  {
    Targets(w, e, s, reference, role) == {t}
  }

  /** An overlay replaces, adds and removes files. */
  function Apply(e: Entries, changes: Overlay): Entries
  {
    map p | p in e.Keys + changes.Keys && (p in changes ==> changes[p].Some?) ::
      if p in changes then changes[p].value else e[p]
  }

  function Restrict(e: Entries, paths: set<Path>): Entries
  {
    map p | p in e && p in paths :: e[p]
  }

  function At(e: Entries, p: Path): Option<Record>
  {
    if p in e then Some(e[p]) else None
  }

  /** The identities of one investigation, or of one project outside every investigation. */
  function Domain(facts: PathFacts): Option<string>
  {
    if facts.scope.Some? then facts.scope else facts.project
  }
}
