/** Dependency discovery for a batch of record changes: the files to lock, the files to
    validate, and the identities to lock. */
module Discovery {
  import opened Wrappers
  import opened Records
  import opened Ordering

  datatype Header = Header(
    id: Option<string>,
    decisionRefs: seq<string>,
    relatedTickets: seq<string>,
    supersedes: seq<string>,
    supersededBy: seq<string>,
    refs: seq<string>)

  const EMPTY := Header(None, [], [], [], [], [])

  function RecordRefs(h: Header): seq<string>
  {
    h.decisionRefs + h.relatedTickets + h.supersedes + h.supersededBy
  }

  function AllRefs(h: Header): seq<string>
  {
    RecordRefs(h) + h.refs
  }

  function RawHeader(r: Record): Header
  {
    Header(r.headerId, r.decisionRefs, r.relatedTickets, r.supersedes, r.supersededBy, r.refs)
  }

  /** A listed work item is known by its file name, whatever its header says. */
  function ListedHeader(w: World, p: Path, r: Record): Header
  {
    if IsWork(w.facts(p).kind) then RawHeader(r).(id := Some(w.stem(p))) else RawHeader(r)
  }

  /** The header of a changed path keeps the old edges beside the proposed ones. */
  function Merged(prior: Header, r: Record): Header
  {
    Header(
      if r.headerId.Some? then r.headerId else prior.id,
      prior.decisionRefs + r.decisionRefs,
      prior.relatedTickets + r.relatedTickets,
      prior.supersedes + r.supersedes,
      prior.supersededBy + r.supersededBy,
      prior.refs + r.refs)
  }

  predicate Writable(w: World, changes: Overlay)
  {
    forall p :: p in changes ==> IsWritable(w.facts(p).kind) && w.facts(p).scope.Some?
  }

  function Scopes(w: World, changes: Overlay): set<Option<string>>
  {
    set p | p in changes :: w.facts(p).scope
  }

  predicate ListedKind(kind: Option<Kind>)
  {
    IsWritable(kind) || kind == Some(Decision) || kind == Some(Evidence) || kind == Some(Review)
  }

  predicate Listed(w: World, e: Entries, changes: Overlay, p: Path)
  {
    p in e && w.facts(p).scope.Some? && w.facts(p).scope in Scopes(w, changes) && ListedKind(w.facts(p).kind)
  }

  function OldHeader(w: World, e: Entries, changes: Overlay, p: Path): Header
  {
    if p in e && Listed(w, e, changes, p) then ListedHeader(w, p, e[p]) else EMPTY
  }

  /** The headers known before the frontier is followed. */
  function Known(w: World, e: Entries, changes: Overlay): map<Path, Header>
  {
    map p | p in e.Keys + changes.Keys && (Listed(w, e, changes, p) || (p in changes && changes[p].Some?)) ::
      if p in changes && changes[p].Some? then Merged(OldHeader(w, e, changes, p), changes[p].value)
      else OldHeader(w, e, changes, p)
  }

  type Written = set<(Path, Option<string>)>

  /** Each changed path under its listed identity and under its proposed one. */
  function WrittenTargets(w: World, e: Entries, changes: Overlay): Written
  {
    (set p | p in changes :: (p, OldHeader(w, e, changes, p).id))
    + set p | p in changes && changes[p].Some? && changes[p].value.headerId.Some? :: (p, changes[p].value.headerId)
  }

  predicate Incoming(w: World, written: Written, q: Path, h: Header)
  {
    exists r, target :: r in AllRefs(h) && target in written
      && Matches(w, w.facts(q), r, target.0, target.1, w.facts(target.0))
  }

  predicate SameIdentity(w: World, written: Written, q: Path, h: Header)
  {
    h.id.Some? && exists target :: target in written && target.1 == h.id && w.facts(q).scope == w.facts(target.0).scope
  }

  /** The records whose diagnostics the projected check keeps. */
  function ValidationPaths(w: World, e: Entries, changes: Overlay): set<Path>
  {
    var known := Known(w, e, changes);
    var written := WrittenTargets(w, e, changes);
    changes.Keys
    + set q | q in known && (Incoming(w, written, q, known[q]) || SameIdentity(w, written, q, known[q]))
  }

  function Seeds(w: World, e: Entries, changes: Overlay): set<Path>
  {
    ValidationPaths(w, e, changes) + {ACTIVATION}
  }

  /** The changes of `done` have been merged; the other listed headers are untouched. */
  ghost predicate Merging(w: World, e: Entries, changes: Overlay, done: seq<Path>, candidates: map<Path, Header>,
                          written: Written)
  {
    && (forall p :: MergingAt(w, e, changes, p in done, candidates, p))
    && (forall t :: t in written <==> t.0 in done && t in WrittenTargets(w, e, changes))
  }

  ghost predicate MergingAt(w: World, e: Entries, changes: Overlay, done: bool, candidates: map<Path, Header>, p: Path)
  {
    var proposed := done && p in changes && changes[p].Some?;
    && (p in candidates <==> Listed(w, e, changes, p) || proposed)
    && (p in candidates ==>
        candidates[p] == if proposed then Merged(OldHeader(w, e, changes, p), changes[p].value)
          else OldHeader(w, e, changes, p))
  }

  method MergeOne(w: World, e: Entries, changes: Overlay, ghost done: seq<Path>, candidates: map<Path, Header>,
                  written: Written, p: Path)
    returns (candidates': map<Path, Header>, written': Written)
    requires Merging(w, e, changes, done, candidates, written) && p in changes && p !in done
    ensures Merging(w, e, changes, done + [p], candidates', written')
  {
    assert MergingAt(w, e, changes, false, candidates, p);
    var prior := if p in candidates then candidates[p] else EMPTY;
    assert prior == OldHeader(w, e, changes, p);
    written' := written + {(p, prior.id)};
    candidates' := candidates;
    if changes[p].Some? {
      var parsed := changes[p].value;
      if parsed.headerId.Some? {
        written' := written' + {(p, parsed.headerId)};
      }
      candidates' := candidates[p := Merged(prior, parsed)];
    }
    forall q ensures MergingAt(w, e, changes, q in done + [p], candidates', q) {
      assert MergingAt(w, e, changes, q in done, candidates, q);
    }
  }

  /** Lists the scopes of the changes and merges the proposals into the listed headers. */
  method ReadHeaders(w: World, e: Entries, changes: Overlay) returns (candidates: map<Path, Header>, written: Written)
    ensures candidates == Known(w, e, changes) && written == WrittenTargets(w, e, changes)
  {
    candidates := map p | p in e && Listed(w, e, changes, p) :: ListedHeader(w, p, e[p]);
    written := {};
    var order := SortedElements(changes.Keys);
    for i := 0 to |order|
      invariant Merging(w, e, changes, order[..i], candidates, written)
    {
      assert order[i] in order && order[..i + 1] == order[..i] + [order[i]];
      SortedSuffix(order, i, i);
      candidates, written := MergeOne(w, e, changes, order[..i], candidates, written, order[i]);
    }
    assert order[..|order|] == order;
    forall p ensures p in candidates <==> p in Known(w, e, changes)
             ensures p in candidates ==> candidates[p] == Known(w, e, changes)[p] {
      assert MergingAt(w, e, changes, p in order, candidates, p);
    }
  }

  /** Keeps the records that refer to a written target or share an identity with one. */
  method Select(w: World, changes: Overlay, candidates: map<Path, Header>, written: Written)
    returns (validation: set<Path>)
    ensures validation == changes.Keys
      + set q | q in candidates
        && (Incoming(w, written, q, candidates[q]) || SameIdentity(w, written, q, candidates[q]))
  {
    validation := changes.Keys;
    var order := SortedElements(candidates.Keys);
    for i := 0 to |order|
      invariant forall q :: q in validation <==>
        (q in changes || (q in order[..i] && q in candidates
         && (Incoming(w, written, q, candidates[q]) || SameIdentity(w, written, q, candidates[q]))))
    {
      var q := order[i];
      assert q in order && order[..i + 1] == order[..i] + [q];
      if Incoming(w, written, q, candidates[q]) || SameIdentity(w, written, q, candidates[q]) {
        validation := validation + {q};
      }
    }
    assert order[..|order|] == order;
  }

  // ---- What a reference names ----

  /** What the frontier loop works on: the store, the headers known at the start, the seeds. */
  datatype Context = Context(w: World, e: Entries, known: map<Path, Header>, seeds: set<Path>)

  function ContextOf(w: World, e: Entries, changes: Overlay): Context
  {
    Context(w, e, Known(w, e, changes), Seeds(w, e, changes))
  }

  /** A seed without a known header has nothing to follow. */
  ghost predicate Grounded(c: Context)
  {
    forall p :: p in c.seeds ==> p in c.known || HeaderAt(c, p) == EMPTY
  }

  predicate FollowedKind(kind: Option<Kind>)
  {
    IsWork(kind) || kind == Some(Decision)
  }

  /** The header discovery uses for any path once it has been reached. */
  function HeaderAt(c: Context, p: Path): Header
  {
    if p in c.known then c.known[p]
    else if p in c.e && FollowedKind(c.w.facts(p).kind) then RawHeader(c.e[p])
    else EMPTY
  }

  function Pointed(c: Context, s: Path, h: Header, r: string): set<Path>
  {
    if r in RecordRefs(h) then Candidates(c.w, c.e, s, r, r in h.decisionRefs) else {}
  }

  /** Named by the headers known at the start or by the layout: followed in any order. */
  predicate Names(c: Context, s: Path, r: string, t: Path)
  {
    || (t in c.known && Matches(c.w, c.w.facts(s), r, t, c.known[t].id, c.w.facts(t)))
    || t in Pointed(c, s, HeaderAt(c, s), r)
  }

  /** Named once every reachable header has been read. */
  predicate MayName(c: Context, s: Path, r: string, t: Path)
  {
    || ((t in c.known || FollowedKind(c.w.facts(t).kind))
        && Matches(c.w, c.w.facts(s), r, t, HeaderAt(c, t).id, c.w.facts(t)))
    || t in Pointed(c, s, HeaderAt(c, s), r)
  }

  /** The flag of `t` survives: some `supersedes` reference names it after every other one. */
  ghost predicate Carried(c: Context, s: Path, t: Path)
  {
    var h := HeaderAt(c, s);
    exists r :: r in h.supersedes && Names(c, s, r, t)
      && forall x :: x in AllRefs(h) && x !in h.supersedes && MayName(c, s, x, t) ==> Lt(x, r)
  }

  // ---- The result ----

  datatype Identity = Identity(scope: string, id: string)

  /** `expanded` keeps the visited pairs of the frontier loop; `true` marks a seed. */
  datatype Dependencies = Dependencies(
    paths: set<Path>,
    validationPaths: set<Path>,
    identities: set<Identity>,
    writtenIdentities: set<Identity>,
    expanded: set<(Path, bool)>)

  function IdentityOf(w: World, p: Path, id: string): Identity
  {
    Identity(if w.facts(p).scope.Some? then w.facts(p).scope.value else "project", id)
  }

  function WrittenIdentities(w: World, e: Entries, changes: Overlay): set<Identity>
  {
    set target | target in WrittenTargets(w, e, changes) && target.1.Some? :: IdentityOf(w, target.0, target.1.value)
  }

  datatype LockKey = PathKey(path: Path) | IdentityKey(identity: Identity)

  /** The lock plan: `true` asks for an exclusive lock. */
  function Locks(d: Dependencies, changes: Overlay, applying: bool): map<LockKey, bool>
  {
    (map p | p in d.paths :: PathKey(p) := applying && p in changes)
    + (map i | i in d.identities :: IdentityKey(i) := applying && i in d.writtenIdentities)
  }

  /** Only a write is asked for alone: a preview shares every path and identity, and so does
      a change with what it merely depends on. */
  lemma OnlyWritesAreExclusive(d: Dependencies, changes: Overlay, applying: bool)
    ensures forall p :: PathKey(p) in Locks(d, changes, applying) <==> p in d.paths
    ensures forall i :: IdentityKey(i) in Locks(d, changes, applying) <==> i in d.identities
    ensures forall key :: key in Locks(d, changes, applying) && Locks(d, changes, applying)[key] ==> applying
    ensures applying ==> forall p :: p in d.paths ==> (Locks(d, changes, true)[PathKey(p)] <==> p in changes)
    ensures applying ==> forall i :: i in d.identities ==>
      (Locks(d, changes, true)[IdentityKey(i)] <==> i in d.writtenIdentities)
  {
  }

  function FollowedRefs(h: Header, full: bool): seq<string>
  {
    if full then AllRefs(h) else h.supersedes
  }

  /** Everything the closure must contain. */
  ghost predicate Covers(c: Context, d: Dependencies)
  {
    && (forall p :: p in c.seeds ==> p in d.paths && (p, true) in d.expanded)
    && (forall x :: x in d.expanded ==> x.0 in d.paths)
    && (forall s, full, r, t ::
        (s, full) in d.expanded && r in FollowedRefs(HeaderAt(c, s), full) && Names(c, s, r, t)
        ==> t in d.paths && (!full ==> (t, false) in d.expanded))
    && (forall s, t :: (s, true) in d.expanded && Carried(c, s, t) ==> (t, false) in d.expanded)
  }

  ghost predicate SupersessionStep(c: Context, s: Path, t: Path)
  {
    exists r :: r in HeaderAt(c, s).supersedes && MayName(c, s, r, t)
  }

  /** A supersession edge of a seed, not overwritten by a later reference to the same path. */
  ghost predicate Passed(c: Context, s: Path, t: Path)
  {
    var h := HeaderAt(c, s);
    exists r :: r in h.supersedes && MayName(c, s, r, t)
      && forall x :: x in AllRefs(h) && x !in h.supersedes && Names(c, s, x, t) ==> Lt(x, r)
  }

  /** A supersession walk from a seed; only the seed's own edges can be overwritten. */
  ghost predicate Chain(c: Context, walk: seq<Path>)
  {
    && |walk| > 1 && walk[0] in c.seeds && Passed(c, walk[0], walk[1])
    && forall i :: 1 < i < |walk| ==> SupersessionStep(c, walk[i - 1], walk[i])
  }

  ghost predicate Chained(c: Context, t: Path)
  {
    exists walk :: Chain(c, walk) && walk[|walk| - 1] == t
  }

  ghost predicate Neighbour(c: Context, t: Path)
  {
    exists s, r :: s in c.seeds && r in AllRefs(HeaderAt(c, s)) && MayName(c, s, r, t)
  }

  /** A header known at the start or the layout names `p` from a followed source: a header
      read during the loop adds no path. */
  ghost predicate Sourced(c: Context, expanded: set<(Path, bool)>, p: Path)
  {
    p in c.seeds
    || exists s, full, r :: (s, full) in expanded && r in FollowedRefs(HeaderAt(c, s), full) && Names(c, s, r, p)
  }

  /** Nothing else may be in it: seeds, their direct targets, supersession walks. */
  ghost predicate Within(c: Context, d: Dependencies)
  {
    && (forall p :: p in d.paths ==> Sourced(c, d.expanded, p))
    && (forall p :: p in d.paths ==> p in c.seeds || Neighbour(c, p) || Chained(c, p))
    && (forall p, full :: (p, full) in d.expanded ==>
        if full then p in c.seeds else Chained(c, p))
  }

  function PathIdentities(c: Context, paths: set<Path>): set<Identity>
  {
    set p | p in paths && HeaderAt(c, p).id.Some? :: IdentityOf(c.w, p, HeaderAt(c, p).id.value)
  }

  /** The contract of discovery. */
  ghost predicate Discovered(w: World, e: Entries, changes: Overlay, d: Dependencies)
  {
    var c := ContextOf(w, e, changes);
    && d.validationPaths == ValidationPaths(w, e, changes)
    && d.writtenIdentities == WrittenIdentities(w, e, changes)
    && d.identities == d.writtenIdentities + PathIdentities(c, d.paths)
    && Covers(c, d)
    && Within(c, d)
  }

  // ---- The algorithm ----

  /** Headers read so far: those known at the start, and those of paths reached since. */
  ghost predicate Reading(c: Context, candidates: map<Path, Header>)
  {
    && (forall p :: p in c.known ==> p in candidates)
    && (forall p ::
      p in candidates ==> candidates[p] == HeaderAt(c, p) && (p in c.known || FollowedKind(c.w.facts(p).kind)))
  }

  function NamedNow(c: Context, candidates: map<Path, Header>, s: Path, h: Header, r: string): set<Path>
  {
    (set t | t in candidates && Matches(c.w, c.w.facts(s), r, t, candidates[t].id, c.w.facts(t))) + Pointed(c, s, h, r)
  }

  /** The targets of `s` after the references `done`, each with the flag of the last one naming it. */
  ghost predicate Flagged(c: Context, candidates: map<Path, Header>, s: Path, h: Header, done: seq<string>,
                          targets: map<Path, bool>)
  {
    && (forall t :: t in targets ==> exists i ::
      LastNaming(c, candidates, s, h, done, t, i) && targets[t] == (done[i] in h.supersedes))
    && (forall t, r :: r in done && t in NamedNow(c, candidates, s, h, r) ==> t in targets)
  }

  ghost predicate LastNaming(c: Context, candidates: map<Path, Header>, s: Path, h: Header, done: seq<string>, t: Path,
                             i: int)
  {
    && 0 <= i < |done| && t in NamedNow(c, candidates, s, h, done[i])
    && forall j :: i < j < |done| ==> t !in NamedNow(c, candidates, s, h, done[j])
  }

  /** One reference: every path it names takes this reference's flag. */
  method Enter(c: Context, candidates: map<Path, Header>, s: Path, h: Header, ghost done: seq<string>, r: string,
               targets: map<Path, bool>)
    returns (targets': map<Path, bool>)
    requires Flagged(c, candidates, s, h, done, targets)
    ensures Flagged(c, candidates, s, h, done + [r], targets')
  {
    var cycle := r in h.supersedes;
    var named := NamedNow(c, candidates, s, h, r);
    targets' := targets + map t | t in named :: cycle;
    ghost var longer := done + [r];
    forall t | t in targets'
      ensures exists i :: LastNaming(c, candidates, s, h, longer, t, i) && targets'[t] == (longer[i] in h.supersedes)
    {
      if t in named {
        assert LastNaming(c, candidates, s, h, longer, t, |done|);
      } else {
        var i :| LastNaming(c, candidates, s, h, done, t, i) && targets[t] == (done[i] in h.supersedes);
        assert LastNaming(c, candidates, s, h, longer, t, i);
      }
    }
  }

  /** All references of one frontier element, in the order of a sorted set. */
  method Expand(c: Context, candidates: map<Path, Header>, s: Path, h: Header, full: bool)
    returns (targets: map<Path, bool>, order: seq<string>)
    ensures Sorted(order) && forall r :: r in order <==> r in FollowedRefs(h, full)
    ensures Flagged(c, candidates, s, h, order, targets)
  {
    order := SortedElements(set r | r in FollowedRefs(h, full));
    targets := map[];
    for i := 0 to |order|
      invariant Flagged(c, candidates, s, h, order[..i], targets)
    {
      assert order[..i + 1] == order[..i] + [order[i]];
      targets := Enter(c, candidates, s, h, order[..i], order[i], targets);
    }
    assert order[..|order|] == order;
  }

  lemma NamedNowIsBetween(c: Context, candidates: map<Path, Header>, s: Path, r: string, t: Path)
    requires Reading(c, candidates)
    ensures Names(c, s, r, t) ==> t in NamedNow(c, candidates, s, HeaderAt(c, s), r)
    ensures t in NamedNow(c, candidates, s, HeaderAt(c, s), r) ==> MayName(c, s, r, t)
  {
  }

  /** What the flags of one expansion mean. */
  ghost predicate Expansion(c: Context, s: Path, full: bool, targets: map<Path, bool>)
  {
    var h := HeaderAt(c, s);
    && (forall t :: t in targets ==> exists r :: r in FollowedRefs(h, full) && MayName(c, s, r, t))
    && (forall t :: t in targets && targets[t] ==> if full then Passed(c, s, t) else SupersessionStep(c, s, t))
    && (forall r, t :: r in FollowedRefs(h, full) && Names(c, s, r, t) ==> t in targets)
    && (forall t :: t in targets && !full ==> targets[t])
    && (forall t :: full && Carried(c, s, t) ==> t in targets && targets[t])
  }

  lemma FlagsMean(c: Context, candidates: map<Path, Header>, s: Path, full: bool,
                  order: seq<string>, targets: map<Path, bool>)
    requires Reading(c, candidates)
    requires Sorted(order) && forall r :: r in order <==> r in FollowedRefs(HeaderAt(c, s), full)
    requires Flagged(c, candidates, s, HeaderAt(c, s), order, targets)
    ensures Expansion(c, s, full, targets)
  {
    forall t | t in targets ensures FlagMeaning(c, s, full, t, targets[t]) {
      FlagMeans(c, candidates, s, full, order, targets, t);
    }
    forall r, t | r in FollowedRefs(HeaderAt(c, s), full) && Names(c, s, r, t) ensures t in targets {
      NamedNowIsBetween(c, candidates, s, r, t);
    }
  }

  /** What one flag of an expansion means. */
  ghost predicate FlagMeaning(c: Context, s: Path, full: bool, t: Path, flag: bool)
  {
    && (exists r :: r in FollowedRefs(HeaderAt(c, s), full) && MayName(c, s, r, t))
    && (flag ==> if full then Passed(c, s, t) else SupersessionStep(c, s, t))
    && (if full then Carried(c, s, t) ==> flag else flag)
  }

  lemma FlagMeans(c: Context, candidates: map<Path, Header>, s: Path, full: bool,
                  order: seq<string>, targets: map<Path, bool>, t: Path)
    requires Reading(c, candidates) && t in targets
    requires Sorted(order) && forall r :: r in order <==> r in FollowedRefs(HeaderAt(c, s), full)
    requires Flagged(c, candidates, s, HeaderAt(c, s), order, targets)
    ensures FlagMeaning(c, s, full, t, targets[t])
  {
    var h := HeaderAt(c, s);
    var i :| LastNaming(c, candidates, s, h, order, t, i) && targets[t] == (order[i] in h.supersedes);
    NamedNowIsBetween(c, candidates, s, order[i], t);
    assert order[i] in order;
    if full && Carried(c, s, t) {
      LastFlagSurvives(c, candidates, s, order, t, i);
    }
    if full && targets[t] {
      LastFlagPasses(c, candidates, s, order, t, i);
    }
  }

  lemma LastFlagSurvives(c: Context, candidates: map<Path, Header>, s: Path, order: seq<string>, t: Path, i: int)
    requires Reading(c, candidates)
    requires Sorted(order) && forall r :: r in order <==> r in AllRefs(HeaderAt(c, s))
    requires LastNaming(c, candidates, s, HeaderAt(c, s), order, t, i)
    requires Carried(c, s, t)
    ensures order[i] in HeaderAt(c, s).supersedes
  {
    var h := HeaderAt(c, s);
    var r :| r in h.supersedes && Names(c, s, r, t)
      && forall x :: x in AllRefs(h) && x !in h.supersedes && MayName(c, s, x, t) ==> Lt(x, r);
    NamedNowIsBetween(c, candidates, s, r, t);
    NamedNowIsBetween(c, candidates, s, order[i], t);
    assert r in order && order[i] in order;
    var k :| 0 <= k < |order| && order[k] == r;
    assert k <= i;
    if k < i {
      LtAsymmetric(order[k], order[i]);
    }
  }

  lemma LastFlagPasses(c: Context, candidates: map<Path, Header>, s: Path, order: seq<string>, t: Path, i: int)
    requires Reading(c, candidates)
    requires Sorted(order) && forall r :: r in order <==> r in AllRefs(HeaderAt(c, s))
    requires LastNaming(c, candidates, s, HeaderAt(c, s), order, t, i)
    requires order[i] in HeaderAt(c, s).supersedes
    ensures Passed(c, s, t)
  {
    var h := HeaderAt(c, s);
    NamedNowIsBetween(c, candidates, s, order[i], t);
    forall x | x in AllRefs(h) && x !in h.supersedes && Names(c, s, x, t) ensures Lt(x, order[i]) {
      NamedNowIsBetween(c, candidates, s, x, t);
      var k :| 0 <= k < |order| && order[k] == x;
    }
  }

  // ---- The frontier loop ----

  /** Every path the loop can meet. */
  function Universe(c: Context): set<Path>
  {
    c.seeds
    + set s, r, t | s in c.e.Keys + c.known.Keys && r in AllRefs(HeaderAt(c, s))
        && t in c.e.Keys + c.known.Keys + {r} + Pointed(c, s, HeaderAt(c, s), r) :: t
  }

  lemma MayNameInUniverse(c: Context, s: Path, r: string, t: Path)
    requires r in AllRefs(HeaderAt(c, s)) && MayName(c, s, r, t)
    ensures t in Universe(c)
  {
    assert s in c.e.Keys + c.known.Keys;
    assert t in c.e.Keys + c.known.Keys + {r} + Pointed(c, s, HeaderAt(c, s), r);
  }

  /** A reached path is a candidate, or it has no references to follow. */
  ghost predicate Readable(c: Context, candidates: map<Path, Header>, p: Path)
  {
    p in candidates || HeaderAt(c, p) == EMPTY
  }

  lemma SeedsAreGrounded(w: World, e: Entries, changes: Overlay)
    requires Coherent(w) && Writable(w, changes)
    ensures Grounded(ContextOf(w, e, changes))
  {
    forall p | p in Seeds(w, e, changes) && p !in Known(w, e, changes)
      ensures HeaderAt(ContextOf(w, e, changes), p) == EMPTY
    {
      if p in changes && p in e {
        assert w.facts(p).scope in Scopes(w, changes);
      }
    }
  }

  lemma NamedIsFollowed(c: Context, s: Path, r: string, t: Path)
    requires Coherent(c.w) && MayName(c, s, r, t) && t !in c.known
    ensures FollowedKind(c.w.facts(t).kind) || HeaderAt(c, t) == EMPTY
  {
  }

  ghost predicate Pending(frontier: seq<(Path, bool)>, visited: set<(Path, bool)>, x: (Path, bool))
  {
    x in visited || x in frontier
  }

  /** The targets of a visited pair are selected, and its supersession edges are queued. */
  ghost predicate Handled(c: Context, x: (Path, bool), paths: set<Path>,
                          frontier: seq<(Path, bool)>, visited: set<(Path, bool)>)
  {
    && (forall r, t :: r in FollowedRefs(HeaderAt(c, x.0), x.1) && Names(c, x.0, r, t) ==>
        t in paths && (!x.1 ==> Pending(frontier, visited, (t, false))))
    && (forall t :: x.1 && Carried(c, x.0, t) ==> Pending(frontier, visited, (t, false)))
  }

  ghost predicate Reachable(c: Context, x: (Path, bool))
  {
    if x.1 then x.0 in c.seeds else Chained(c, x.0)
  }

  ghost predicate Selectable(c: Context, candidates: map<Path, Header>, p: Path)
  {
    (p in c.seeds || Neighbour(c, p) || Chained(c, p)) && Readable(c, candidates, p)
  }

  ghost predicate Queueable(c: Context, paths: set<Path>, x: (Path, bool))
  {
    Reachable(c, x) && x.0 in Universe(c) && x.0 in paths
  }

  /** Nothing has been selected or queued without a reason. */
  ghost predicate Justified(c: Context, paths: set<Path>, candidates: map<Path, Header>,
                            frontier: seq<(Path, bool)>, visited: set<(Path, bool)>)
  {
    && Reading(c, candidates)
    && (forall p :: p in paths ==> Selectable(c, candidates, p))
    && (forall x :: Pending(frontier, visited, x) ==> Queueable(c, paths, x))
  }

  /** Seeds are in, and everything visited has been followed. */
  ghost predicate Followed(c: Context, paths: set<Path>,
                           frontier: seq<(Path, bool)>, visited: set<(Path, bool)>)
  {
    && (forall p :: p in c.seeds ==> p in paths && Pending(frontier, visited, (p, true)))
    && (forall x :: x in visited ==> Handled(c, x, paths, frontier, visited))
  }

  ghost predicate Following(c: Context, paths: set<Path>, candidates: map<Path, Header>,
                            frontier: seq<(Path, bool)>, visited: set<(Path, bool)>)
  {
    && Justified(c, paths, candidates, frontier, visited)
    && Followed(c, paths, frontier, visited)
    && Origins(c, paths, candidates, visited)
  }

  /** Every selected path has a source, and only selected headers have been read. */
  ghost predicate Origins(c: Context, paths: set<Path>, candidates: map<Path, Header>, visited: set<(Path, bool)>)
  {
    && (forall p :: p in paths ==> Sourced(c, visited, p))
    && (forall p :: p in candidates ==> p in c.known || p in paths)
  }

  lemma ChainedStep(c: Context, s: Path, t: Path)
    requires Chained(c, s) && SupersessionStep(c, s, t)
    ensures Chained(c, t)
  {
    var walk :| Chain(c, walk) && walk[|walk| - 1] == s;
    var longer := walk + [t];
    assert Chain(c, longer);
  }

  /** Selects the targets of one expansion and queues the flagged ones. */
  method Admit(c: Context, paths: set<Path>, candidates: map<Path, Header>,
               frontier: seq<(Path, bool)>, targets: map<Path, bool>)
    returns (paths': set<Path>, candidates': map<Path, Header>, frontier': seq<(Path, bool)>)
    requires Reading(c, candidates)
    requires forall t :: t in targets && t !in c.known ==>
      FollowedKind(c.w.facts(t).kind) || HeaderAt(c, t) == EMPTY
    ensures paths' == paths + targets.Keys
    ensures Reading(c, candidates') && candidates.Keys <= candidates'.Keys <= candidates.Keys + targets.Keys
    ensures forall t :: t in targets ==> Readable(c, candidates', t)
    ensures forall x :: x in frontier' <==> x in frontier || (!x.1 && x.0 in targets && targets[x.0])
  {
    paths', candidates', frontier' := paths, candidates, frontier;
    var order := SortedElements(targets.Keys);
    for i := 0 to |order|
      invariant forall p :: p in paths' <==> p in paths || p in order[..i]
      invariant Reading(c, candidates') && candidates.Keys <= candidates'.Keys <= candidates.Keys + targets.Keys
      invariant forall t :: t in order[..i] ==> Readable(c, candidates', t)
      invariant forall x :: x in frontier' <==> x in frontier || (!x.1 && x.0 in order[..i] && targets[x.0])
    {
      var t := order[i];
      assert t in order && order[..i + 1] == order[..i] + [t];
      if t !in candidates' && FollowedKind(c.w.facts(t).kind) {
        candidates' := candidates'[t := if t in c.e then RawHeader(c.e[t]) else EMPTY];
      }
      paths' := paths' + {t};
      if targets[t] {
        frontier' := frontier' + [(t, false)];
      }
    }
    assert order[..|order|] == order;
  }

  /** One element of the frontier that has not been visited yet. */
  method Visit(c: Context, paths: set<Path>, candidates: map<Path, Header>,
               frontier: seq<(Path, bool)>, visited: set<(Path, bool)>)
    returns (paths': set<Path>, candidates': map<Path, Header>, frontier': seq<(Path, bool)>)
    requires Coherent(c.w) && frontier != [] && frontier[0] !in visited
    requires Following(c, paths, candidates, frontier, visited)
    ensures Following(c, paths', candidates', frontier', visited + {frontier[0]})
  {
    var x := frontier[0];
    var (s, full) := x;
    assert Pending(frontier, visited, x);
    paths', candidates', frontier' := paths, candidates, frontier[1..];
    ghost var targets: map<Path, bool> := map[];
    if s in candidates {
      var found, order := Expand(c, candidates, s, candidates[s], full);
      FlagsMean(c, candidates, s, full, order, found);
      TargetsHaveSource(c, paths, candidates, x, order, found);
      TargetsReachable(c, s, full, found);
      paths', candidates', frontier' := Admit(c, paths, candidates, frontier[1..], found);
      targets := found;
    }
    VisitFollows(c, x, targets, paths, frontier, visited, paths', frontier');
    VisitJustified(c, x, targets, paths, candidates, frontier, visited, paths', candidates', frontier');
    VisitOrigins(c, x, targets, paths, candidates, visited, paths', candidates');
  }

  /** What one expansion names was known or pointed at, or has been selected before. */
  lemma TargetsHaveSource(c: Context, paths: set<Path>, candidates: map<Path, Header>, x: (Path, bool),
                          order: seq<string>, targets: map<Path, bool>)
    requires Reading(c, candidates) && forall p :: p in candidates ==> p in c.known || p in paths
    requires forall r :: r in order ==> r in FollowedRefs(HeaderAt(c, x.0), x.1)
    requires Flagged(c, candidates, x.0, HeaderAt(c, x.0), order, targets)
    ensures forall t :: t in targets ==> t in paths || Sourced(c, {x}, t)
  {
    forall t | t in targets ensures t in paths || Sourced(c, {x}, t) {
      var i :| LastNaming(c, candidates, x.0, HeaderAt(c, x.0), order, t, i)
        && targets[t] == (order[i] in HeaderAt(c, x.0).supersedes);
      assert order[i] in order;
      if t !in paths {
        assert Names(c, x.0, order[i], t);
        assert (x.0, x.1) in {x};
      }
    }
  }

  lemma SourcedGrows(c: Context, visited: set<(Path, bool)>, more: set<(Path, bool)>, p: Path)
    requires Sourced(c, visited, p) && visited <= more
    ensures Sourced(c, more, p)
  {
    if p !in c.seeds {
      var s, full, r :| (s, full) in visited && r in FollowedRefs(HeaderAt(c, s), full) && Names(c, s, r, p);
      assert (s, full) in more;
    }
  }

  lemma VisitOrigins(c: Context, x: (Path, bool), targets: map<Path, bool>, paths: set<Path>,
                     candidates: map<Path, Header>,
                     visited: set<(Path, bool)>, paths': set<Path>, candidates': map<Path, Header>)
    requires Origins(c, paths, candidates, visited) && paths' == paths + targets.Keys
    requires forall t :: t in targets ==> t in paths || Sourced(c, {x}, t)
    requires candidates'.Keys <= candidates.Keys + targets.Keys
    ensures Origins(c, paths', candidates', visited + {x})
  {
    forall p | p in paths' ensures Sourced(c, visited + {x}, p) {
      if p in paths {
        SourcedGrows(c, visited, visited + {x}, p);
      } else {
        SourcedGrows(c, {x}, visited + {x}, p);
      }
    }
  }

  lemma TargetsReachable(c: Context, s: Path, full: bool, targets: map<Path, bool>)
    requires Coherent(c.w) && Expansion(c, s, full, targets) && Reachable(c, (s, full))
    ensures Admissible(c, targets)
    ensures forall t :: t in targets && t !in c.known ==>
      FollowedKind(c.w.facts(t).kind) || HeaderAt(c, t) == EMPTY
  {
    forall t | t in targets
      ensures Chained(c, t) || Neighbour(c, t)
      ensures targets[t] ==> Chained(c, t)
      ensures t in Universe(c)
      ensures t !in c.known ==> FollowedKind(c.w.facts(t).kind) || HeaderAt(c, t) == EMPTY
    {
      var r :| r in FollowedRefs(HeaderAt(c, s), full) && MayName(c, s, r, t);
      assert r in AllRefs(HeaderAt(c, s));
      MayNameInUniverse(c, s, r, t);
      if t !in c.known {
        NamedIsFollowed(c, s, r, t);
      }
      if full {
        assert targets[t] ==> Chain(c, [s, t]);
      } else {
        ChainedStep(c, s, t);
      }
    }
  }

  /** The selection after visiting `x`, whose expansion is `targets`. */
  ghost predicate Visited(x: (Path, bool), targets: map<Path, bool>, paths: set<Path>, frontier: seq<(Path, bool)>,
                          paths': set<Path>, frontier': seq<(Path, bool)>)
  {
    && frontier != [] && x == frontier[0] && paths' == paths + targets.Keys
    && forall y :: y in frontier' <==> y in frontier[1..] || (!y.1 && y.0 in targets && targets[y.0])
  }

  lemma PendingGrows(x: (Path, bool), targets: map<Path, bool>, paths: set<Path>, frontier: seq<(Path, bool)>,
                     visited: set<(Path, bool)>, paths': set<Path>, frontier': seq<(Path, bool)>)
    requires Visited(x, targets, paths, frontier, paths', frontier')
    ensures forall y :: Pending(frontier', visited + {x}, y) <==>
      (Pending(frontier, visited, y) || (!y.1 && y.0 in targets && targets[y.0]))
  {
    assert frontier == [x] + frontier[1..];
  }

  lemma VisitFollows(c: Context, x: (Path, bool), targets: map<Path, bool>, paths: set<Path>,
                     frontier: seq<(Path, bool)>,
                     visited: set<(Path, bool)>, paths': set<Path>, frontier': seq<(Path, bool)>)
    requires Visited(x, targets, paths, frontier, paths', frontier')
    requires Followed(c, paths, frontier, visited)
    requires HeaderAt(c, x.0) == EMPTY || Expansion(c, x.0, x.1, targets)
    ensures Followed(c, paths', frontier', visited + {x})
  {
    PendingGrows(x, targets, paths, frontier, visited, paths', frontier');
    forall y | y in visited + {x} ensures Handled(c, y, paths', frontier', visited + {x}) {
      if y in visited {
        assert Handled(c, y, paths, frontier, visited);
      }
    }
  }

  /** The targets of a justified expansion may be selected. */
  ghost predicate Admissible(c: Context, targets: map<Path, bool>)
  {
    && (forall t :: t in targets ==> Chained(c, t) || Neighbour(c, t))
    && (forall t :: t in targets && targets[t] ==> Chained(c, t))
    && (forall t :: t in targets ==> t in Universe(c))
  }

  lemma VisitJustified(c: Context, x: (Path, bool), targets: map<Path, bool>, paths: set<Path>,
                       candidates: map<Path, Header>, frontier: seq<(Path, bool)>, visited: set<(Path, bool)>,
                       paths': set<Path>, candidates': map<Path, Header>, frontier': seq<(Path, bool)>)
    requires Visited(x, targets, paths, frontier, paths', frontier')
    requires Justified(c, paths, candidates, frontier, visited)
    requires Reading(c, candidates') && candidates.Keys <= candidates'.Keys
    requires Admissible(c, targets)
    requires forall t :: t in targets ==> Readable(c, candidates', t)
    ensures Justified(c, paths', candidates', frontier', visited + {x})
  {
    PendingGrows(x, targets, paths, frontier, visited, paths', frontier');
  }

  /** Follows the frontier until it is empty. */
  method Follow(c: Context) returns (paths: set<Path>, candidates: map<Path, Header>, visited: set<(Path, bool)>)
    requires Coherent(c.w) && Grounded(c)
    ensures Following(c, paths, candidates, [], visited)
  {
    paths, candidates, visited := c.seeds, c.known, {};
    var frontier := Queue(paths);
    Starting(c, frontier);
    ghost var pairs := Pairs(Universe(c));
    while frontier != []
      invariant Following(c, paths, candidates, frontier, visited)
      decreases pairs - visited, |frontier|
    {
      var x := frontier[0];
      assert Pending(frontier, visited, x);
      assert x in pairs by {
        assert x == (x.0, x.1) && x.1 in {true, false};
      }
      if x in visited {
        Skip(c, paths, candidates, frontier, visited);
        frontier := frontier[1..];
      } else {
        paths, candidates, frontier := Visit(c, paths, candidates, frontier, visited);
        visited := visited + {x};
      }
    }
  }

  ghost function Pairs(u: set<Path>): set<(Path, bool)>
  {
    set p, full | p in u && full in {true, false} :: (p, full)
  }

  /** The initial frontier: every selected path, to be expanded in full. */
  method Queue(paths: set<Path>) returns (frontier: seq<(Path, bool)>)
    ensures forall x :: x in frontier <==> x.1 && x.0 in paths
  {
    frontier := [];
    var order := SortedElements(paths);
    for i := 0 to |order|
      invariant forall x :: x in frontier <==> x.1 && x.0 in order[..i]
    {
      assert order[..i + 1] == order[..i] + [order[i]];
      frontier := frontier + [(order[i], true)];
    }
    assert order[..|order|] == order;
  }

  lemma Starting(c: Context, frontier: seq<(Path, bool)>)
    requires Grounded(c)
    requires forall x :: x in frontier <==> x.1 && x.0 in c.seeds
    ensures Following(c, c.seeds, c.known, frontier, {})
  {
  }

  lemma Skip(c: Context, paths: set<Path>, candidates: map<Path, Header>,
             frontier: seq<(Path, bool)>, visited: set<(Path, bool)>)
    requires frontier != [] && frontier[0] in visited
    requires Following(c, paths, candidates, frontier, visited)
    ensures Following(c, paths, candidates, frontier[1..], visited)
  {
    assert frontier == [frontier[0]] + frontier[1..];
    assert forall y :: Pending(frontier, visited, y) <==> Pending(frontier[1..], visited, y);
    forall y | y in visited ensures Handled(c, y, paths, frontier[1..], visited) {
      assert Handled(c, y, paths, frontier, visited);
    }
  }

  /** An empty frontier leaves the closure complete and minimal. */
  lemma Finished(c: Context, candidates: map<Path, Header>, d: Dependencies)
    requires Following(c, d.paths, candidates, [], d.expanded)
    ensures Covers(c, d) && Within(c, d)
  {
    forall x | x in d.expanded ensures Queueable(c, d.paths, x) {
      assert Pending([], d.expanded, x);
    }
    forall s, full | (s, full) in d.expanded
      ensures Handled(c, (s, full), d.paths, [], d.expanded) && Queueable(c, d.paths, (s, full))
    {
    }
  }

  /** The selection: seeds with their headers, the written targets, the validated paths. */
  method Begin(w: World, e: Entries, changes: Overlay) returns (c: Context, written: Written, validation: set<Path>)
    requires Coherent(w) && Writable(w, changes)
    ensures c == ContextOf(w, e, changes) && Grounded(c)
    ensures written == WrittenTargets(w, e, changes) && validation == ValidationPaths(w, e, changes)
  {
    var known;
    known, written := ReadHeaders(w, e, changes);
    validation := Select(w, changes, known, written);
    c := Context(w, e, known, validation + {ACTIVATION});
    SeedsAreGrounded(w, e, changes);
  }

  /** The closure of a context, with its lock identities. */
  method Close(c: Context, written: Written, validation: set<Path>) returns (d: Dependencies)
    requires Coherent(c.w) && Grounded(c)
    ensures Covers(c, d) && Within(c, d) && d.validationPaths == validation
    ensures d.writtenIdentities == set target | target in written && target.1.Some? ::
      IdentityOf(c.w, target.0, target.1.value)
    ensures d.identities == d.writtenIdentities + PathIdentities(c, d.paths)
  {
    var paths, candidates, visited := Follow(c);
    var writtenIdentities := set target | target in written && target.1.Some? ::
      IdentityOf(c.w, target.0, target.1.value);
    d := Dependencies(paths, validation, writtenIdentities + CandidateIdentities(c.w, candidates, paths),
      writtenIdentities, visited);
    Finished(c, candidates, d);
    ReadIdentities(c, candidates, paths, visited);
  }

  /** The record at `p` bears the identity: by its file name for a ticket or an epic, by its
      header otherwise. */
  ghost predicate Bears(w: World, e: Entries, p: Path, id: string)
  {
    p in e && if w.facts(p).kind in {Some(Ticket), Some(Epic)} then w.stem(p) == id else e[p].headerId == Some(id)
  }

  /** Before the batch or after it, the record at `p` bears the identity. */
  ghost predicate Stated(w: World, e: Entries, changes: Overlay, p: Path, id: string)
  {
    Bears(w, e, p, id) || (p in changes && changes[p].Some? && changes[p].value.headerId == Some(id))
  }

  /** A reference of `q` hits the changed path `p`: it is that path in the project, or an
      identity of it in the investigation. */
  ghost predicate Hits(w: World, e: Entries, changes: Overlay, q: Path, r: string, p: Path)
  {
    && p in changes && w.facts(q).project == w.facts(p).project
    && if '/' in r then w.safe(r) && r == p
       else w.facts(q).scope == w.facts(p).scope && Stated(w, e, changes, p, r)
  }

  /** The header of a changed path: its references are the old ones and the proposed ones, field
      by field, and its identity the proposed one, or the old one when none is proposed. */
  lemma ProposedHeader(w: World, e: Entries, changes: Overlay, p: Path)
    requires Writable(w, changes) && p in changes && changes[p].Some?
    ensures p in Known(w, e, changes)
    ensures var h, r := Known(w, e, changes)[p], changes[p].value;
      && (forall id :: h.id == Some(id) <==> r.headerId == Some(id) || (r.headerId.None? && Bears(w, e, p, id)))
      && (forall x :: x in h.decisionRefs <==> (p in e && x in e[p].decisionRefs) || x in r.decisionRefs)
      && (forall x :: x in h.relatedTickets <==> (p in e && x in e[p].relatedTickets) || x in r.relatedTickets)
      && (forall x :: x in h.supersedes <==> (p in e && x in e[p].supersedes) || x in r.supersedes)
      && (forall x :: x in h.supersededBy <==> (p in e && x in e[p].supersededBy) || x in r.supersededBy)
      && (forall x :: x in h.refs <==> (p in e && x in e[p].refs) || x in r.refs)
  {
    assert w.facts(p).scope in Scopes(w, changes);
  }

  ghost predicate Lists(r: Record, reference: string)
  {
    || reference in r.decisionRefs || reference in r.relatedTickets || reference in r.supersedes
    || reference in r.supersededBy || reference in r.refs
  }

  ghost predicate RefersToChange(w: World, e: Entries, changes: Overlay, q: Path)
    requires q in e
  {
    exists r, p :: Lists(e[q], r) && Hits(w, e, changes, q, r, p)
  }

  ghost predicate BearsStated(w: World, e: Entries, changes: Overlay, q: Path)
  {
    exists id, p ::
      Bears(w, e, q, id) && p in changes && w.facts(q).scope == w.facts(p).scope && Stated(w, e, changes, p, id)
  }

  /** A record of a changed investigation that refers to a changed path, or bears an identity
      that one has there. */
  ghost predicate Concerned(w: World, e: Entries, changes: Overlay, q: Path)
  {
    && q in e && w.facts(q).kind.Some? && w.facts(q).kind.value in {Ticket, Epic, Board, Decision, Evidence, Review}
    && (exists p :: p in changes && w.facts(p).scope == w.facts(q).scope)
    && (RefersToChange(w, e, changes, q) || BearsStated(w, e, changes, q))
  }

  /** The written identities are those that a changed path states, in its own investigation. */
  ghost predicate WrittenAre(w: World, e: Entries, changes: Overlay, written: set<Identity>)
  {
    forall scope, id :: Identity(scope, id) in written <==>
      exists p :: p in changes && w.facts(p).scope == Some(scope) && Stated(w, e, changes, p, id)
  }

  /** Every lock identity is that of a selected path: of its investigation, or of the project
      when it is in none. */
  ghost predicate IdentifiedBy(w: World, e: Entries, changes: Overlay, p: Path, i: Identity)
  {
    && (w.facts(p).scope == Some(i.scope) || (w.facts(p).scope.None? && i.scope == "project"))
    && (Stated(w, e, changes, p, i.id) || (p in e && e[p].headerId == Some(i.id)))
  }

  /** Discovery of the dependencies of a record batch. */
  method Discover(w: World, e: Entries, changes: Overlay) returns (d: Dependencies)
    requires Coherent(w) && Writable(w, changes)
    ensures Discovered(w, e, changes, d)
    ensures forall q :: q in d.validationPaths <==> q in changes || Concerned(w, e, changes, q)
    ensures WrittenAre(w, e, changes, d.writtenIdentities)
    ensures forall i :: i in d.identities ==> exists p :: p in d.paths && IdentifiedBy(w, e, changes, p, i)
  {
    var c, written, validation := Begin(w, e, changes);
    d := Close(c, written, validation);
    forall q | q !in changes ensures q in d.validationPaths <==> Concerned(w, e, changes, q) {
      ValidatedIsConcerned(w, e, changes, q);
    }
    WrittenIdentitiesAre(w, e, changes);
    IdentitiesAreStated(w, e, changes, d);
  }

  lemma TargetIsStated(w: World, e: Entries, changes: Overlay, p: Path, id: string)
    requires Writable(w, changes)
    ensures (p, Some(id)) in WrittenTargets(w, e, changes) <==> p in changes && Stated(w, e, changes, p, id)
    ensures p in changes ==> exists t :: t in WrittenTargets(w, e, changes) && t.0 == p
    ensures forall t :: t in WrittenTargets(w, e, changes) && t.0 == p ==> p in changes
  {
    if p in changes {
      assert w.facts(p).scope in Scopes(w, changes);
      assert (p, OldHeader(w, e, changes, p).id) in WrittenTargets(w, e, changes);
    }
  }

  /** Some written target is what the reference of `q` names. */
  ghost predicate NamesWritten(w: World, written: Written, q: Path, r: string)
  {
    exists t :: t in written && Matches(w, w.facts(q), r, t.0, t.1, w.facts(t.0))
  }

  lemma NamedIsHit(w: World, e: Entries, changes: Overlay, q: Path, r: string)
    requires Coherent(w) && Writable(w, changes) && w.facts(q).scope.Some?
    ensures NamesWritten(w, WrittenTargets(w, e, changes), q, r) <==> exists p :: Hits(w, e, changes, q, r, p)
  {
    if NamesWritten(w, WrittenTargets(w, e, changes), q, r) {
      var t :| t in WrittenTargets(w, e, changes) && Matches(w, w.facts(q), r, t.0, t.1, w.facts(t.0));
      TargetIsStated(w, e, changes, t.0, r);
      assert Hits(w, e, changes, q, r, t.0);
    }
    if p :| Hits(w, e, changes, q, r, p) {
      TargetIsStated(w, e, changes, p, r);
      var t :| t in WrittenTargets(w, e, changes) && if '/' in r then t.0 == p else t == (p, Some(r));
    }
  }

  lemma IncomingIsReferring(w: World, e: Entries, changes: Overlay, q: Path, h: Header)
    requires Coherent(w) && Writable(w, changes) && w.facts(q).scope.Some? && q in e
    requires forall r :: r in AllRefs(h) <==> Lists(e[q], r)
    ensures Incoming(w, WrittenTargets(w, e, changes), q, h) <==> RefersToChange(w, e, changes, q)
  {
    var written := WrittenTargets(w, e, changes);
    assert Incoming(w, written, q, h) <==> exists r :: r in AllRefs(h) && NamesWritten(w, written, q, r);
    forall r | r in AllRefs(h) {
      NamedIsHit(w, e, changes, q, r);
    }
  }

  lemma SameIsBearing(w: World, e: Entries, changes: Overlay, q: Path, h: Header)
    requires Writable(w, changes) && forall id :: h.id == Some(id) <==> Bears(w, e, q, id)
    ensures SameIdentity(w, WrittenTargets(w, e, changes), q, h) <==> BearsStated(w, e, changes, q)
  {
    var written := WrittenTargets(w, e, changes);
    if SameIdentity(w, written, q, h) {
      var t :| t in written && t.1 == h.id && w.facts(q).scope == w.facts(t.0).scope;
      TargetIsStated(w, e, changes, t.0, h.id.value);
    }
    if BearsStated(w, e, changes, q) {
      var id, p :|
        Bears(w, e, q, id) && p in changes && w.facts(q).scope == w.facts(p).scope && Stated(w, e, changes, p, id);
      TargetIsStated(w, e, changes, p, id);
      assert (p, Some(id)).1 == h.id;
    }
  }

  lemma ListedIsConcerned(w: World, e: Entries, changes: Overlay, q: Path)
    requires Coherent(w) && Writable(w, changes) && q in e && Listed(w, e, changes, q)
    ensures Incoming(w, WrittenTargets(w, e, changes), q, ListedHeader(w, q, e[q]))
            || SameIdentity(w, WrittenTargets(w, e, changes), q, ListedHeader(w, q, e[q]))
        <==> Concerned(w, e, changes, q)
  {
    IncomingIsReferring(w, e, changes, q, ListedHeader(w, q, e[q]));
    SameIsBearing(w, e, changes, q, ListedHeader(w, q, e[q]));
  }

  lemma ValidatedIsConcerned(w: World, e: Entries, changes: Overlay, q: Path)
    requires Coherent(w) && Writable(w, changes) && q !in changes
    ensures q in ValidationPaths(w, e, changes) <==> Concerned(w, e, changes, q)
  {
    if q in e && Listed(w, e, changes, q) {
      ListedIsConcerned(w, e, changes, q);
    }
  }

  lemma WrittenIdentitiesAre(w: World, e: Entries, changes: Overlay)
    requires Writable(w, changes)
    ensures WrittenAre(w, e, changes, WrittenIdentities(w, e, changes))
  {
    forall scope, id
      ensures Identity(scope, id) in WrittenIdentities(w, e, changes) <==>
        exists p :: p in changes && w.facts(p).scope == Some(scope) && Stated(w, e, changes, p, id)
    {
      forall p {
        TargetIsStated(w, e, changes, p, id);
      }
      if p :| p in changes && w.facts(p).scope == Some(scope) && Stated(w, e, changes, p, id) {
        assert IdentityOf(w, (p, Some(id)).0, (p, Some(id)).1.value) == Identity(scope, id);
      }
    }
  }

  lemma ChangesAreSelected(w: World, e: Entries, changes: Overlay, d: Dependencies)
    requires Discovered(w, e, changes, d)
    ensures changes.Keys <= d.paths
  {
    assert changes.Keys <= ContextOf(w, e, changes).seeds;
  }

  lemma HeaderStates(w: World, e: Entries, changes: Overlay, p: Path, id: string)
    requires HeaderAt(ContextOf(w, e, changes), p).id == Some(id)
    ensures Stated(w, e, changes, p, id) || (p in e && e[p].headerId == Some(id))
  {
  }

  lemma IdentitiesAreStated(w: World, e: Entries, changes: Overlay, d: Dependencies)
    requires Writable(w, changes) && Discovered(w, e, changes, d)
    ensures forall i :: i in d.identities ==> exists p :: p in d.paths && IdentifiedBy(w, e, changes, p, i)
  {
    var c := ContextOf(w, e, changes);
    WrittenIdentitiesAre(w, e, changes);
    ChangesAreSelected(w, e, changes, d);
    forall i | i in d.identities ensures exists p :: p in d.paths && IdentifiedBy(w, e, changes, p, i) {
      if i in d.writtenIdentities {
        assert i == Identity(i.scope, i.id);
        var p :| p in changes && w.facts(p).scope == Some(i.scope) && Stated(w, e, changes, p, i.id);
      } else {
        assert i in PathIdentities(c, d.paths);
        var p :| p in d.paths && HeaderAt(c, p).id.Some? && i == IdentityOf(w, p, HeaderAt(c, p).id.value);
        HeaderStates(w, e, changes, p, i.id);
      }
    }
  }

  /** Batches in different investigations write no common identity. */
  lemma InvestigationsStayApart(w: World, e: Entries, changes: Overlay, d: Dependencies,
                                f: Entries, more: Overlay, g: Dependencies)
    requires Writable(w, changes) && Writable(w, more)
    requires Discovered(w, e, changes, d) && Discovered(w, f, more, g)
    requires forall p, q :: p in changes && q in more ==> w.facts(p).scope != w.facts(q).scope
    ensures d.writtenIdentities !! g.writtenIdentities
  {
    WrittenIdentitiesAre(w, e, changes);
    WrittenIdentitiesAre(w, f, more);
    forall i | i in d.writtenIdentities ensures i !in g.writtenIdentities {
      var scope, id := i.scope, i.id;
      assert i == Identity(scope, id);
    }
  }

  function CandidateIdentities(w: World, candidates: map<Path, Header>, paths: set<Path>): set<Identity>
  {
    set p | p in paths && p in candidates && candidates[p].id.Some? :: IdentityOf(w, p, candidates[p].id.value)
  }

  lemma ReadIdentities(c: Context, candidates: map<Path, Header>, paths: set<Path>, visited: set<(Path, bool)>)
    requires Following(c, paths, candidates, [], visited)
    ensures CandidateIdentities(c.w, candidates, paths) == PathIdentities(c, paths)
  {
  }
}
