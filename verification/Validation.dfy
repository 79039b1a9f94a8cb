/** Cross-record validation: duplicate identities, unresolved references, supersession
    cycles. `Multiplicity` says how often each diagnostic is due; `CrossValidate` computes
    the list with the indexes and loops of the Store. */
module Validation {
  import opened Wrappers
  import opened Records
  import opened Ordering
  import opened Cycles

  datatype Diagnostic =
    | Duplicate(path: Path, previous: Path)
    | UnresolvedDecision(path: Path, reference: string)
    | UnresolvedWork(path: Path, reference: string)
    | UnresolvedMetadata(path: Path)
    | SupersessionCycle(path: Path)

  /** A work item's reference is in order when it names exactly one record, another one. */
  ghost predicate Unresolved(w: World, e: Entries, s: Path, reference: string, role: Role)
  {
    !exists t :: Resolves(w, e, s, reference, role, t) && (role.AsMetadata? || t != s)
  }

  ghost function UnresolvedCount(w: World, e: Entries, s: Path, references: seq<string>, role: Role): nat
  {
    if references == [] then 0
    else UnresolvedCount(w, e, s, references[..|references| - 1], role)
         + if Unresolved(w, e, s, references[|references| - 1], role) then 1 else 0
  }

  ghost predicate SharesIdentity(w: World, e: Entries, p: Path, q: Path)
  {
    && p in e && q in e && e[p].governed && e[q].governed && e[p].identity.Some?
    && e[p].identity == e[q].identity && Domain(w.facts(p)) == Domain(w.facts(q))
  }

  /** `q` is the last record before `p`, in path order, with the identity of `p`. */
  ghost predicate IsPrevious(w: World, e: Entries, p: Path, q: Path)
  {
    && SharesIdentity(w, e, p, q) && Lt(q, p)
    && !exists z :: SharesIdentity(w, e, p, z) && Lt(q, z) && Lt(z, p)
  }

  ghost function ResolvedList(w: World, e: Entries, s: Path, references: seq<string>): seq<Path>
  {
    if references == [] then []
    else
      var last := references[|references| - 1];
      var rest := ResolvedList(w, e, s, references[..|references| - 1]);
      if exists t :: Resolves(w, e, s, last, AsWork, t)
      then (var t :| Resolves(w, e, s, last, AsWork, t); rest + [t])
      else rest
  }

  /** Each work item with the work items that its `supersedes` references resolve to. */
  ghost function Supersession(w: World, e: Entries): Graph
  {
    map s | s in e && WorkItem(w, e, s) :: ResolvedList(w, e, s, e[s].supersedes)
  }

  ghost predicate Metadata(w: World, e: Entries, p: Path)
  {
    p in e && e[p].governed && (w.facts(p).kind == Some(Evidence) || w.facts(p).kind == Some(Review))
  }

  /** How often validating `e` reports `d`. */
  ghost function Multiplicity(w: World, e: Entries, d: Diagnostic): nat
  {
    match d
    case Duplicate(p, q) => if IsPrevious(w, e, p, q) then 1 else 0
    case UnresolvedDecision(p, r) =>
      if WorkItem(w, e, p) && Unresolved(w, e, p, r, AsDecision) then multiset(e[p].decisionRefs)[r] else 0
    case UnresolvedWork(p, r) =>
      if WorkItem(w, e, p) && Unresolved(w, e, p, r, AsWork) then multiset(WorkRefs(e[p]))[r] else 0
    case UnresolvedMetadata(p) =>
      if Metadata(w, e, p) then UnresolvedCount(w, e, p, e[p].refs, AsMetadata) else 0
    case SupersessionCycle(p) => if p in Supersession(w, e) && ReachesCycle(Supersession(w, e), p) then 1 else 0
  }

  // ---- Lists of diagnostics ----

  datatype Code = DuplicateIdentity | DecisionReference | WorkReference | MetadataReference | Cycle

  function CodeOf(d: Diagnostic): Code
  {
    match d
    case Duplicate(_, _) => DuplicateIdentity
    case UnresolvedDecision(_, _) => DecisionReference
    case UnresolvedWork(_, _) => WorkReference
    case UnresolvedMetadata(_) => MetadataReference
    case SupersessionCycle(_) => Cycle
  }

  /** `ds` holds exactly the diagnostics of these codes that are due at these paths. */
  ghost predicate Reported(w: World, e: Entries, ds: seq<Diagnostic>, codes: set<Code>, paths: set<Path>)
  {
    forall d :: multiset(ds)[d] == if CodeOf(d) in codes && d.path in paths then Multiplicity(w, e, d) else 0
  }

  lemma ReportedTogether(w: World, e: Entries, a: seq<Diagnostic>, b: seq<Diagnostic>, codes: set<Code>,
                         more: set<Code>, paths: set<Path>)
    requires Reported(w, e, a, codes, paths) && Reported(w, e, b, more, paths) && codes !! more
    ensures Reported(w, e, a + b, codes + more, paths)
  {
  }

  lemma ReportedAtNext(w: World, e: Entries, a: seq<Diagnostic>, b: seq<Diagnostic>, codes: set<Code>, order: seq<Path>,
                       i: nat)
    requires i < |order| && order[i] !in order[..i]
    requires Reported(w, e, a, codes, Elements(order[..i])) && Reported(w, e, b, codes, {order[i]})
    ensures Reported(w, e, a + b, codes, Elements(order[..i + 1]))
  {
    assert order[..i + 1] == order[..i] + [order[i]];
  }

  // ---- The indexes ----

  type Key = (Option<string>, Option<string>, string)
  type Index = map<Key, seq<Path>>

  function KeyOf(w: World, p: Path, id: string): Key
  {
    (w.facts(p).project, w.facts(p).scope, id)
  }

  function Bucket(local: Index, key: Key): seq<Path>
  {
    if key in local then local[key] else []
  }

  ghost predicate Distinct(s: seq<Path>)
  {
    forall i, j :: 0 <= i < j < |s| ==> s[i] != s[j]
  }

  ghost predicate Keyed(w: World, e: Entries, t: Path, key: Key)
  {
    t in e && e[t].governed && e[t].identity.Some? && key == KeyOf(w, t, e[t].identity.value)
  }

  /** Governed entries among `seen`, by project, scope and identity. */
  ghost predicate Indexed(w: World, e: Entries, seen: seq<Path>, local: Index)
  {
    forall key :: IndexedAt(w, e, seen, local, key)
  }

  ghost predicate IndexedAt(w: World, e: Entries, seen: seq<Path>, local: Index, key: Key)
  {
    && Distinct(Bucket(local, key))
    && forall t :: t in Bucket(local, key) <==> t in seen && Keyed(w, e, t, key)
  }

  method IndexEntry(w: World, e: Entries, ghost seen: seq<Path>, local: Index, p: Path) returns (local': Index)
    requires Indexed(w, e, seen, local) && p in e && p !in seen
    ensures Indexed(w, e, seen + [p], local')
  {
    local' := local;
    if e[p].governed && e[p].identity.Some? {
      var key := KeyOf(w, p, e[p].identity.value);
      local' := local[key := Bucket(local, key) + [p]];
    }
    forall key ensures IndexedAt(w, e, seen + [p], local', key) {
      assert IndexedAt(w, e, seen, local, key);
    }
  }

  method IndexEntries(w: World, e: Entries, order: seq<Path>) returns (local: Index)
    requires Sorted(order) && forall p :: p in order <==> p in e
    ensures Indexed(w, e, order, local)
  {
    local := map[];
    for i := 0 to |order|
      invariant Indexed(w, e, order[..i], local)
    {
      SortedSuffix(order, i, i);
      assert order[i] in order && order[..i + 1] == order[..i] + [order[i]];
      local := IndexEntry(w, e, order[..i], local, order[i]);
    }
    assert order[..|order|] == order;
  }

  function KindAllowed(kind: Option<Kind>, decision: bool): bool
  {
    if decision then kind == Some(Decision) else IsWork(kind)
  }

  function RoleOf(decision: bool): Role
  {
    if decision then AsDecision else AsWork
  }

  /** The lookup by path or by bucket, before the kind filter. */
  function Lookup(w: World, e: Entries, local: Index, s: Path, reference: string, decision: bool): seq<Path>
  {
    var source := w.facts(s);
    if Explicit(reference) then
      if reference in e && Matches(w, source, reference, reference, e[reference].identity, w.facts(reference))
      then [reference] else []
    else
      Bucket(local, (source.project, source.scope, reference))
      + if decision && source.scope.Some? then Bucket(local, (source.project, None, reference)) else []
  }

  lemma LookupDistinct(w: World, e: Entries, order: seq<Path>, local: Index, s: Path, reference: string, decision: bool)
    requires Indexed(w, e, order, local)
    ensures Distinct(Lookup(w, e, local, s, reference, decision))
  {
    var a := Bucket(local, (w.facts(s).project, w.facts(s).scope, reference));
    var b := Bucket(local, (w.facts(s).project, None, reference));
    assert IndexedAt(w, e, order, local, (w.facts(s).project, w.facts(s).scope, reference));
    assert IndexedAt(w, e, order, local, (w.facts(s).project, None, reference));
    if w.facts(s).scope.Some? {
      forall i, j | 0 <= i < |a| && 0 <= j < |b| ensures a[i] != b[j] {
        assert a[i] in a && b[j] in b;
      }
    }
  }

  /** Indexed resolution sees exactly the governed entries that the naive scan admits. */
  lemma LookupIsNaive(w: World, e: Entries, order: seq<Path>, local: Index, s: Path, reference: string, decision: bool,
                      t: Path)
    requires Indexed(w, e, order, local) && (forall p :: p in order <==> p in e) && WellFormed(w, e)
    requires w.facts(s).project.Some?
    ensures (t in Lookup(w, e, local, s, reference, decision) && t in e
             && e[t].governed && KindAllowed(w.facts(t).kind, decision))
        <==> Eligible(w, e, s, reference, RoleOf(decision), t)
  {
    assert IndexedAt(w, e, order, local, (w.facts(s).project, w.facts(s).scope, reference));
    assert IndexedAt(w, e, order, local, (w.facts(s).project, None, reference));
  }

  /** The unique governed target of the right kind, if there is exactly one. */
  method Resolve(w: World, e: Entries, ghost order: seq<Path>, local: Index, s: Path, reference: string, decision: bool)
    returns (r: Option<Path>)
    requires Indexed(w, e, order, local) && (forall p :: p in order <==> p in e) && WellFormed(w, e)
    requires w.facts(s).project.Some?
    ensures forall t :: r == Some(t) <==> Resolves(w, e, s, reference, RoleOf(decision), t)
  {
    var found := Lookup(w, e, local, s, reference, decision);
    ghost var role := RoleOf(decision);
    LookupDistinct(w, e, order, local, s, reference, decision);
    forall t ensures (t in found && t in e && e[t].governed && KindAllowed(w.facts(t).kind, decision))
                     <==> t in Targets(w, e, s, reference, role) {
      LookupIsNaive(w, e, order, local, s, reference, decision, t);
    }
    var targets := [];
    for i := 0 to |found|
      invariant Distinct(targets)
      invariant forall t :: t in targets <==> t in found[..i] && t in Targets(w, e, s, reference, role)
    {
      assert found[..i + 1] == found[..i] + [found[i]];
      assert found[i] !in found[..i] && found[i] in found;
      if found[i] in e && e[found[i]].governed && KindAllowed(w.facts(found[i]).kind, decision) {
        targets := targets + [found[i]];
      }
    }
    assert found[..|found|] == found;
    r := if |targets| == 1 then Some(targets[0]) else None;
    Singleton(targets, Targets(w, e, s, reference, role));
  }

  lemma Singleton(list: seq<Path>, members: set<Path>)
    requires Distinct(list) && forall t :: t in list <==> t in members
    ensures forall t :: members == {t} <==> |list| == 1 && list[0] == t
  {
    if |list| >= 2 {
      assert list[0] in members && list[1] in members && list[0] != list[1];
    } else if |list| == 1 {
      assert list[0] in members;
      assert members == {list[0]};
    } else {
      assert members == {};
    }
  }

  // ---- Duplicate identities ----

  type DomainKey = (Option<string>, string)

  ghost predicate Holds(w: World, e: Entries, t: Path, key: DomainKey)
  {
    t in e && e[t].governed && e[t].identity.Some? && key == (Domain(w.facts(t)), e[t].identity.value)
  }

  /** `identities` maps each domain and identity to its last holder among `seen`. */
  ghost predicate LastHolders(w: World, e: Entries, seen: seq<Path>, identities: map<DomainKey, Path>)
  {
    && (forall key :: key in identities ==> identities[key] in seen && Holds(w, e, identities[key], key))
    && (forall t, key :: t in seen && Holds(w, e, t, key) ==>
        key in identities && (t == identities[key] || Lt(t, identities[key])))
  }

  lemma PreviousIsLastHolder(w: World, e: Entries, order: seq<Path>, i: nat, identities: map<DomainKey, Path>,
                             key: DomainKey, q: Path)
    requires Sorted(order) && (forall p :: p in order <==> p in e) && i < |order|
    requires LastHolders(w, e, order[..i], identities) && Holds(w, e, order[i], key)
    ensures IsPrevious(w, e, order[i], q) <==> key in identities && identities[key] == q
  {
    var p := order[i];
    forall z ensures z in order[..i] <==> z in e && Lt(z, p) {
      EarlierIsLess(order, i, z);
    }
    if key in identities && identities[key] == q {
      forall z | SharesIdentity(w, e, p, z) && Lt(z, p) ensures !Lt(q, z) {
        assert Holds(w, e, z, key);
        if z != q {
          LtAsymmetric(z, q);
        } else {
          LtIrreflexive(z);
        }
      }
    } else if IsPrevious(w, e, p, q) {
      assert Holds(w, e, q, key);
      assert SharesIdentity(w, e, p, identities[key]);
    }
  }

  lemma EarlierIsLess(order: seq<Path>, i: nat, z: Path)
    requires Sorted(order) && i < |order|
    ensures z in order[..i] <==> z in order && Lt(z, order[i])
  {
    if z in order {
      var j :| 0 <= j < |order| && order[j] == z;
      if j < i {
        assert order[..i][j] == z;
      } else {
        if j == i { LtIrreflexive(z); } else { LtAsymmetric(order[i], z); }
        SortedSuffix(order, i, j);
      }
    }
  }

  /** The first holder of an identity is silent; each later one names its predecessor. */
  method DuplicateAt(w: World, e: Entries, ghost order: seq<Path>, ghost i: nat, p: Path,
                     identities: map<DomainKey, Path>)
    returns (ds: seq<Diagnostic>, identities': map<DomainKey, Path>)
    requires Sorted(order) && (forall p :: p in order <==> p in e) && i < |order| && p == order[i]
    requires LastHolders(w, e, order[..i], identities)
    ensures LastHolders(w, e, order[..i + 1], identities')
    ensures Reported(w, e, ds, {DuplicateIdentity}, {p})
  {
    ds, identities' := [], identities;
    assert p in order && order[..i + 1] == order[..i] + [p];
    if e[p].governed && e[p].identity.Some? {
      var key := (Domain(w.facts(p)), e[p].identity.value);
      forall q ensures IsPrevious(w, e, p, q) <==> key in identities && identities[key] == q {
        PreviousIsLastHolder(w, e, order, i, identities, key, q);
      }
      if key in identities {
        ds := [Duplicate(p, identities[key])];
      }
      identities' := identities[key := p];
      NextHolder(w, e, order, i, identities, key);
    } else {
      assert forall q :: !IsPrevious(w, e, p, q);
    }
    DuplicatesAreDue(w, e, p, ds);
  }

  lemma NextHolder(w: World, e: Entries, order: seq<Path>, i: nat, identities: map<DomainKey, Path>, key: DomainKey)
    requires Sorted(order) && i < |order| && LastHolders(w, e, order[..i], identities) && Holds(w, e, order[i], key)
    ensures LastHolders(w, e, order[..i + 1], identities[key := order[i]])
  {
    assert order[..i + 1] == order[..i] + [order[i]];
    forall t | t in order[..i] ensures Lt(t, order[i]) {
      EarlierIsLess(order, i, t);
    }
  }

  lemma DuplicatesAreDue(w: World, e: Entries, p: Path, ds: seq<Diagnostic>)
    requires ds == [] || exists q :: ds == [Duplicate(p, q)]
    requires forall q :: IsPrevious(w, e, p, q) <==> ds == [Duplicate(p, q)]
    ensures Reported(w, e, ds, {DuplicateIdentity}, {p})
  {
    forall d | CodeOf(d) == DuplicateIdentity && d.path == p ensures multiset(ds)[d] == Multiplicity(w, e, d) {
      assert d == Duplicate(p, d.previous);
    }
  }

  method DuplicateDiagnostics(w: World, e: Entries, order: seq<Path>) returns (ds: seq<Diagnostic>)
    requires Sorted(order) && forall p :: p in order <==> p in e
    ensures Reported(w, e, ds, {DuplicateIdentity}, e.Keys)
  {
    ds := [];
    var identities: map<DomainKey, Path> := map[];
    for i := 0 to |order|
      invariant LastHolders(w, e, order[..i], identities)
      invariant Reported(w, e, ds, {DuplicateIdentity}, Elements(order[..i]))
    {
      var found;
      found, identities := DuplicateAt(w, e, order, i, order[i], identities);
      SortedSuffix(order, i, i);
      ReportedAtNext(w, e, ds, found, {DuplicateIdentity}, order, i);
      ds := ds + found;
    }
    assert order[..|order|] == order && Elements(order) == e.Keys;
  }

  // ---- Work items ----

  function ReferenceDiagnostic(p: Path, reference: string, decision: bool): Diagnostic
  {
    if decision then UnresolvedDecision(p, reference) else UnresolvedWork(p, reference)
  }

  ghost predicate Checked(w: World, e: Entries, ds: seq<Diagnostic>, p: Path, references: seq<string>, decision: bool)
  {
    var role := RoleOf(decision);
    && (forall r ::
          multiset(ds)[ReferenceDiagnostic(p, r, decision)]
            == (if Unresolved(w, e, p, r, role) then multiset(references)[r] else 0))
    && (forall d :: d in ds ==> exists r :: d == ReferenceDiagnostic(p, r, decision))
  }

  ghost predicate Ready(w: World, e: Entries, order: seq<Path>, local: Index)
  {
    && Sorted(order) && (forall p :: p in order <==> p in e)
    && Coherent(w) && WellFormed(w, e) && Indexed(w, e, order, local)
  }

  method IsUnresolved(w: World, e: Entries, ghost order: seq<Path>, local: Index, p: Path, reference: string,
                      decision: bool)
    returns (bad: bool)
    requires Ready(w, e, order, local) && WorkItem(w, e, p)
    ensures bad <==> Unresolved(w, e, p, reference, RoleOf(decision))
  {
    assert WellPlaced(w, p, e[p]);
    var target := Resolve(w, e, order, local, p, reference, decision);
    bad := target == None || target == Some(p);
    ghost var role := RoleOf(decision);
    if !bad {
      assert Resolves(w, e, p, reference, role, target.value);
    }
  }

  method CheckReferences(w: World, e: Entries, ghost order: seq<Path>, local: Index, p: Path, references: seq<string>,
                         decision: bool)
    returns (ds: seq<Diagnostic>)
    requires Ready(w, e, order, local) && WorkItem(w, e, p)
    ensures Checked(w, e, ds, p, references, decision)
  {
    ds := [];
    for i := 0 to |references|
      invariant Checked(w, e, ds, p, references[..i], decision)
    {
      assert references[..i + 1] == references[..i] + [references[i]];
      var bad := IsUnresolved(w, e, order, local, p, references[i], decision);
      if bad {
        ds := ds + [ReferenceDiagnostic(p, references[i], decision)];
      }
    }
    assert references[..|references|] == references;
  }

  method ResolveAll(w: World, e: Entries, ghost order: seq<Path>, local: Index, p: Path, references: seq<string>)
    returns (targets: seq<Path>)
    requires Ready(w, e, order, local) && WorkItem(w, e, p)
    ensures targets == ResolvedList(w, e, p, references)
  {
    targets := [];
    assert WellPlaced(w, p, e[p]);
    for i := 0 to |references|
      invariant targets == ResolvedList(w, e, p, references[..i])
    {
      var longer := references[..i + 1];
      assert longer[..i] == references[..i] && longer[i] == references[i];
      var target := Resolve(w, e, order, local, p, references[i], false);
      if target.Some? {
        assert Resolves(w, e, p, references[i], AsWork, target.value);
        targets := targets + [target.value];
      } else {
        assert !exists t :: Resolves(w, e, p, references[i], AsWork, t);
      }
    }
    assert references[..|references|] == references;
  }

  /** The three lists of one work item, and the resolved targets of its `supersedes`. */
  method WorkAt(w: World, e: Entries, ghost order: seq<Path>, local: Index, p: Path)
    returns (ds: seq<Diagnostic>, targets: seq<Path>)
    requires Ready(w, e, order, local) && WorkItem(w, e, p)
    ensures Reported(w, e, ds, {DecisionReference, WorkReference}, {p})
    ensures targets == ResolvedList(w, e, p, e[p].supersedes)
  {
    var decisions := CheckReferences(w, e, order, local, p, e[p].decisionRefs, true);
    var works := CheckReferences(w, e, order, local, p, WorkRefs(e[p]), false);
    targets := ResolveAll(w, e, order, local, p, e[p].supersedes);
    ds := decisions + works;
    CheckedIsReported(w, e, decisions, p, e[p].decisionRefs, true);
    CheckedIsReported(w, e, works, p, WorkRefs(e[p]), false);
    ReportedTogether(w, e, decisions, works, {DecisionReference}, {WorkReference}, {p});
    assert {DecisionReference} + {WorkReference} == {DecisionReference, WorkReference};
  }

  lemma CheckedIsReported(w: World, e: Entries, ds: seq<Diagnostic>, p: Path, references: seq<string>, decision: bool)
    requires WorkItem(w, e, p) && Checked(w, e, ds, p, references, decision)
    requires references == if decision then e[p].decisionRefs else WorkRefs(e[p])
    ensures Reported(w, e, ds, {if decision then DecisionReference else WorkReference}, {p})
  {
    var code := if decision then DecisionReference else WorkReference;
    forall d ensures multiset(ds)[d] == (if CodeOf(d) in {code} && d.path in {p} then Multiplicity(w, e, d) else 0) {
      if d in ds {
        var r :| d == ReferenceDiagnostic(p, r, decision);
        assert CodeOf(d) == code && d.path == p;
      }
      if CodeOf(d) == code && d.path == p {
        assert d == ReferenceDiagnostic(p, d.reference, decision);
      }
    }
  }

  /** The graph entries of the work items met so far. */
  ghost predicate GraphSoFar(w: World, e: Entries, seen: set<Path>, g: Graph)
  {
    && (forall s :: s in g <==> s in seen && WorkItem(w, e, s))
    && (forall s :: s in g && s in e ==> g[s] == ResolvedList(w, e, s, e[s].supersedes))
  }

  method WorkStep(w: World, e: Entries, ghost order: seq<Path>, local: Index, ghost seen: set<Path>, p: Path,
                  supersedes: Graph)
    returns (ds: seq<Diagnostic>, supersedes': Graph)
    requires Ready(w, e, order, local) && p in e
    requires GraphSoFar(w, e, seen, supersedes)
    ensures Reported(w, e, ds, {DecisionReference, WorkReference}, {p})
    ensures GraphSoFar(w, e, seen + {p}, supersedes')
  {
    ds, supersedes' := [], supersedes;
    if e[p].governed && IsWork(w.facts(p).kind) {
      var targets;
      ds, targets := WorkAt(w, e, order, local, p);
      supersedes' := supersedes[p := targets];
    }
  }

  method WorkDiagnostics(w: World, e: Entries, order: seq<Path>, local: Index)
    returns (ds: seq<Diagnostic>, supersedes: Graph)
    requires Ready(w, e, order, local)
    ensures Reported(w, e, ds, {DecisionReference, WorkReference}, e.Keys)
    ensures supersedes == Supersession(w, e)
  {
    ds, supersedes := [], map[];
    for i := 0 to |order|
      invariant Reported(w, e, ds, {DecisionReference, WorkReference}, Elements(order[..i]))
      invariant GraphSoFar(w, e, Elements(order[..i]), supersedes)
    {
      SortedSuffix(order, i, i);
      assert order[i] in order && Elements(order[..i + 1]) == Elements(order[..i]) + {order[i]} by {
        assert order[..i + 1] == order[..i] + [order[i]];
      }
      var found;
      found, supersedes := WorkStep(w, e, order, local, Elements(order[..i]), order[i], supersedes);
      ReportedAtNext(w, e, ds, found, {DecisionReference, WorkReference}, order, i);
      ds := ds + found;
    }
    assert order[..|order|] == order && Elements(order) == e.Keys;
  }

  // ---- Evidence and review metadata ----

  method MetadataAt(w: World, e: Entries, ghost order: seq<Path>, local: Index, p: Path) returns (ds: seq<Diagnostic>)
    requires Ready(w, e, order, local) && Metadata(w, e, p)
    ensures Reported(w, e, ds, {MetadataReference}, {p})
  {
    ds := [];
    var references := e[p].refs;
    for i := 0 to |references|
      invariant multiset(ds)[UnresolvedMetadata(p)] == UnresolvedCount(w, e, p, references[..i], AsMetadata)
      invariant forall d :: d in ds ==> d == UnresolvedMetadata(p)
    {
      var longer := references[..i + 1];
      assert longer[..i] == references[..i] && longer[i] == references[i];
      var bucket := Bucket(local, KeyOf(w, p, references[i]));
      BucketDecides(w, e, order, local, p, references[i]);
      if |bucket| != 1 {
        ds := ds + [UnresolvedMetadata(p)];
      }
    }
    assert references[..|references|] == references;
    forall d ensures multiset(ds)[d]
      == (if CodeOf(d) in {MetadataReference} && d.path in {p} then Multiplicity(w, e, d) else 0) {
      if CodeOf(d) == MetadataReference && d.path == p {
        assert d == UnresolvedMetadata(p);
      } else {
        assert d !in ds;
      }
    }
  }

  lemma BucketDecides(w: World, e: Entries, order: seq<Path>, local: Index, p: Path, reference: string)
    requires Ready(w, e, order, local)
    ensures |Bucket(local, KeyOf(w, p, reference))| != 1 <==> Unresolved(w, e, p, reference, AsMetadata)
  {
    var key := KeyOf(w, p, reference);
    var bucket := Bucket(local, key);
    assert IndexedAt(w, e, order, local, key);
    forall t ensures t in bucket <==> t in Targets(w, e, p, reference, AsMetadata) {
    }
    Singleton(bucket, Targets(w, e, p, reference, AsMetadata));
    if |bucket| == 1 {
      assert Resolves(w, e, p, reference, AsMetadata, bucket[0]);
    }
  }

  method MetadataDiagnostics(w: World, e: Entries, order: seq<Path>, local: Index) returns (ds: seq<Diagnostic>)
    requires Ready(w, e, order, local)
    ensures Reported(w, e, ds, {MetadataReference}, e.Keys)
  {
    ds := [];
    for i := 0 to |order|
      invariant Reported(w, e, ds, {MetadataReference}, Elements(order[..i]))
    {
      var p := order[i];
      SortedSuffix(order, i, i);
      assert p in order;
      var found := [];
      if e[p].governed && (w.facts(p).kind == Some(Evidence) || w.facts(p).kind == Some(Review)) {
        found := MetadataAt(w, e, order, local, p);
      }
      ReportedAtNext(w, e, ds, found, {MetadataReference}, order, i);
      ds := ds + found;
    }
    assert order[..|order|] == order && Elements(order) == e.Keys;
  }

  // ---- Supersession cycles ----

  method CycleDiagnostics(w: World, e: Entries, supersedes: Graph) returns (ds: seq<Diagnostic>)
    requires supersedes == Supersession(w, e)
    ensures Reported(w, e, ds, {Cycle}, e.Keys)
  {
    var starts := CycleReachable(supersedes);
    var order := SortedElements(starts);
    ds := [];
    for i := 0 to |order|
      invariant Reported(w, e, ds, {Cycle}, Elements(order[..i]))
    {
      SortedSuffix(order, i, i);
      assert order[i] in order;
      var found := [SupersessionCycle(order[i])];
      CycleIsDue(w, e, order[i]);
      ReportedAtNext(w, e, ds, found, {Cycle}, order, i);
      ds := ds + found;
    }
    assert order[..|order|] == order && Elements(order) == starts;
    OnlyCyclesAreDue(w, e, ds, starts);
  }

  lemma CycleIsDue(w: World, e: Entries, p: Path)
    requires p in Supersession(w, e) && ReachesCycle(Supersession(w, e), p)
    ensures Reported(w, e, [SupersessionCycle(p)], {Cycle}, {p})
  {
    assert Multiplicity(w, e, SupersessionCycle(p)) == 1;
  }

  lemma OnlyCyclesAreDue(w: World, e: Entries, ds: seq<Diagnostic>, starts: set<Path>)
    requires starts == set n | n in Supersession(w, e) && ReachesCycle(Supersession(w, e), n)
    requires Reported(w, e, ds, {Cycle}, starts)
    ensures Reported(w, e, ds, {Cycle}, e.Keys)
  {
    forall d | CodeOf(d) == Cycle && (d.path in starts) != (d.path in e) ensures Multiplicity(w, e, d) == 0 {
      assert d == SupersessionCycle(d.path);
    }
  }

  // ---- Field by field ----

  /** A ticket or an epic that is governed. */
  ghost predicate GovernedWork(w: World, e: Entries, s: Path)
  {
    s in e && e[s].governed && w.facts(s).kind.Some? && w.facts(s).kind.value in {Ticket, Epic}
  }

  /** A governed record of one of these kinds in the project of `s`: the file at that path, or
      a record of the same investigation with that identity, or else a decision of the project. */
  ghost predicate StandsFor(w: World, e: Entries, s: Path, reference: string, kinds: set<Kind>, t: Path)
  {
    var from, to := w.facts(s), w.facts(t);
    && t in e && e[t].governed && to.kind.Some? && to.kind.value in kinds && to.project == from.project
    && if '/' in reference then t == reference && w.safe(reference)
       else e[t].identity == Some(reference) && (to.scope == from.scope || (to.scope.None? && to.kind.value.Decision?))
  }

  /** There is one such record, and it is another one. */
  ghost predicate StandsForOther(w: World, e: Entries, s: Path, reference: string, kinds: set<Kind>)
  {
    exists t :: t != s && StandsFor(w, e, s, reference, kinds, t)
      && forall u :: StandsFor(w, e, s, reference, kinds, u) ==> u == t
  }

  /** Two governed records of one investigation, or of one project outside every investigation,
      with one identity. */
  ghost predicate BearOneName(w: World, e: Entries, p: Path, q: Path)
  {
    && p in e && q in e && e[p].governed && e[q].governed && e[p].identity.Some? && e[p].identity == e[q].identity
    && w.facts(p).scope == w.facts(q).scope && (w.facts(p).scope.None? ==> w.facts(p).project == w.facts(q).project)
  }

  lemma UnresolvedIff(w: World, e: Entries, s: Path, reference: string, decision: bool)
    requires Coherent(w) && WellFormed(w, e) && GovernedWork(w, e, s)
    ensures Unresolved(w, e, s, reference, RoleOf(decision)) <==>
      !StandsForOther(w, e, s, reference, if decision then {Kind.Decision} else {Ticket, Epic})
  {
    var role := RoleOf(decision);
    var kinds := if decision then {Kind.Decision} else {Ticket, Epic};
    assert WellPlaced(w, s, e[s]);
    forall t ensures t in Targets(w, e, s, reference, role) <==> StandsFor(w, e, s, reference, kinds, t) {
    }
    if t :| Resolves(w, e, s, reference, role, t) && t != s {
      assert t in Targets(w, e, s, reference, role);
    }
    if StandsForOther(w, e, s, reference, kinds) {
      var t :| t != s && StandsFor(w, e, s, reference, kinds, t)
        && forall u :: StandsFor(w, e, s, reference, kinds, u) ==> u == t;
      assert Targets(w, e, s, reference, role) == {t};
      assert Resolves(w, e, s, reference, role, t);
    }
  }

  /** A listed reference that no single other work item stands for, as often as it is listed. */
  ghost function WorkDue(w: World, e: Entries, s: Path, r: string): nat
  {
    if GovernedWork(w, e, s) && !StandsForOther(w, e, s, r, {Ticket, Epic})
    then multiset(e[s].relatedTickets)[r] + multiset(e[s].supersedes)[r] + multiset(e[s].supersededBy)[r] else 0
  }

  ghost function DecisionDue(w: World, e: Entries, s: Path, r: string): nat
  {
    if GovernedWork(w, e, s) && !StandsForOther(w, e, s, r, {Kind.Decision})
    then multiset(e[s].decisionRefs)[r] else 0
  }

  /** `q` comes before `p`, and no other namesake between them. */
  ghost predicate NearestNamesake(w: World, e: Entries, p: Path, q: Path)
  {
    BearOneName(w, e, p, q) && Lt(q, p) && !exists z :: BearOneName(w, e, p, z) && Lt(q, z) && Lt(z, p)
  }

  /** What is due for each reference field of a record. */
  lemma DueByField(w: World, e: Entries, s: Path, r: string)
    requires Coherent(w) && WellFormed(w, e)
    ensures Multiplicity(w, e, UnresolvedWork(s, r)) == WorkDue(w, e, s, r)
    ensures Multiplicity(w, e, UnresolvedDecision(s, r)) == DecisionDue(w, e, s, r)
  {
    if GovernedWork(w, e, s) {
      UnresolvedIff(w, e, s, r, false);
      UnresolvedIff(w, e, s, r, true);
    }
  }

  lemma NearestIsPrevious(w: World, e: Entries, p: Path, q: Path)
    requires Coherent(w)
    ensures NearestNamesake(w, e, p, q) <==> IsPrevious(w, e, p, q)
  {
    assert forall z :: BearOneName(w, e, p, z) <==> SharesIdentity(w, e, p, z);
  }

  /** The whole pass: the returned list holds each diagnostic as often as it is due. Said of
      the fields: a listed reference that no single other record stands for is reported as
      often as it is listed, and each record that comes after a namesake names the one
      directly before it. */
  method CrossValidate(w: World, e: Entries) returns (ds: seq<Diagnostic>)
    requires Coherent(w) && WellFormed(w, e)
    ensures forall d :: multiset(ds)[d] == Multiplicity(w, e, d)
    ensures forall s, r :: multiset(ds)[UnresolvedWork(s, r)] == WorkDue(w, e, s, r)
    ensures forall s, r :: multiset(ds)[UnresolvedDecision(s, r)] == DecisionDue(w, e, s, r)
    ensures forall p, q :: Duplicate(p, q) in ds <==> NearestNamesake(w, e, p, q)
  {
    var order := SortedElements(e.Keys);
    var local := IndexEntries(w, e, order);
    var duplicates := DuplicateDiagnostics(w, e, order);
    var works, supersedes := WorkDiagnostics(w, e, order, local);
    var metadata := MetadataDiagnostics(w, e, order, local);
    var cycles := CycleDiagnostics(w, e, supersedes);
    ds := duplicates + works + metadata + cycles;
    ReportedTogether(w, e, duplicates, works, {DuplicateIdentity}, {DecisionReference, WorkReference}, e.Keys);
    ReportedTogether(w, e, duplicates + works, metadata,
      {DuplicateIdentity} + {DecisionReference, WorkReference}, {MetadataReference}, e.Keys);
    ReportedTogether(w, e, duplicates + works + metadata, cycles,
      {DuplicateIdentity} + {DecisionReference, WorkReference} + {MetadataReference}, {Cycle}, e.Keys);
    forall d ensures multiset(ds)[d] == Multiplicity(w, e, d) {
      OnlyEntriesAreReported(w, e, d);
    }
    SaidOfFields(w, e, ds);
  }

  lemma SaidOfFields(w: World, e: Entries, ds: seq<Diagnostic>)
    requires Coherent(w) && WellFormed(w, e) && forall d :: multiset(ds)[d] == Multiplicity(w, e, d)
    ensures forall s, r :: multiset(ds)[UnresolvedWork(s, r)] == WorkDue(w, e, s, r)
    ensures forall s, r :: multiset(ds)[UnresolvedDecision(s, r)] == DecisionDue(w, e, s, r)
    ensures forall p, q :: Duplicate(p, q) in ds <==> NearestNamesake(w, e, p, q)
  {
    forall s, r {
      DueByField(w, e, s, r);
    }
    forall p, q ensures Duplicate(p, q) in ds <==> NearestNamesake(w, e, p, q) {
      NearestIsPrevious(w, e, p, q);
      assert multiset(ds)[Duplicate(p, q)] == Multiplicity(w, e, Duplicate(p, q));
    }
  }

  lemma OnlyEntriesAreReported(w: World, e: Entries, d: Diagnostic)
    ensures d.path !in e ==> Multiplicity(w, e, d) == 0
  {
  }
}
