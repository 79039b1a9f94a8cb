/** The cooperative mutation protocol as a step machine over any number of writers.

    A writer guesses a lock plan, takes its locks one at a time, reads the files under them,
    rediscovers and compares, checks the projected batch, writes file by file, and finishes
    or rolls back. Other writers take steps in between, also between two files it reads. */
module Protocol {
  import opened Wrappers
  import opened Records
  import opened Discovery
  import opened Closure
  import opened Locality
  import opened Adequacy

  /** `Writing(k)` and `RollingBack(k)`: the first `k` changes are in the store. */
  datatype Phase = Idle | Locking(taken: nat) | Confirmed | Writing(done: nat) | RollingBack(done: nat) | Done

  /** `read` is what rediscovery has read so far; `clean` is the verdict of the check of the
      captured `files`; `prior` is what the changed paths held then. */
  datatype Writer = Writer(
    changes: Overlay,
    applying: bool,
    order: seq<Path>,
    phase: Phase,
    plan: seq<(LockKey, bool)>,
    read: Overlay,
    d: Dependencies,
    files: Entries,
    clean: bool,
    prior: Overlay)

  datatype System = System(fs: Entries, writers: seq<Writer>)

  // ---- Locks ----

  ghost function Planned(u: Writer): set<(LockKey, bool)>
  {
    set x | x in u.plan
  }

  ghost function Held(u: Writer): set<(LockKey, bool)>
  {
    match u.phase
    case Locking(k) => if k <= |u.plan| then (set x | x in u.plan[..k]) else {}
    case Confirmed | Writing(_) | RollingBack(_) => Planned(u)
    case Idle | Done => {}
  }

  ghost predicate Compatible(a: set<(LockKey, bool)>, b: set<(LockKey, bool)>)
  {
    forall x, y :: x in a && y in b && x.0 == y.0 ==> !x.1 && !y.1
  }

  /** The plan that was locked is the plan that discovery returns. */
  ghost predicate PlanIs(u: Writer, d: Dependencies)
  {
    forall key, exclusive :: (key, exclusive) in u.plan <==>
      (key in Locks(d, u.changes, u.applying) && Locks(d, u.changes, u.applying)[key] == exclusive)
  }

  // ---- Steps ----

  function Put(fs: Entries, p: Path, r: Option<Record>): Entries
  {
    if r.Some? then fs[p := r.value] else fs - {p}
  }

  function With(s: System, i: nat, u: Writer): System
    requires i < |s.writers|
  {
    System(s.fs, s.writers[i := u])
  }

  /** First discovery: its outcome is only a guess, so any plan is allowed. */
  ghost predicate Begin(s: System, t: System, i: nat)
    requires i < |s.writers|
  {
    s.writers[i].phase.Idle? && exists plan ::
      t == With(s, i, s.writers[i].(phase := Locking(0), plan := plan, read := map[]))
  }

  /** Takes the next lock of the plan; blocks while another writer holds it in conflict. */
  ghost predicate Take(s: System, t: System, i: nat)
    requires i < |s.writers|
  {
    var u := s.writers[i];
    && u.phase.Locking? && u.phase.taken < |u.plan|
    && (forall j :: 0 <= j < |s.writers| && j != i ==> Compatible({u.plan[u.phase.taken]}, Held(s.writers[j])))
    && t == With(s, i, u.(phase := Locking(u.phase.taken + 1)))
  }

  /** All locks are held. */
  ghost predicate Locked(u: Writer)
  {
    u.phase == Locking(|u.plan|)
  }

  /** Rediscovery under the locks reads some file. */
  ghost predicate Look(s: System, t: System, i: nat)
    requires i < |s.writers|
  {
    var u := s.writers[i];
    Locked(u) && exists p :: t == With(s, i, u.(read := u.read[p := At(s.fs, p)]))
  }

  /** The store as rediscovery has seen it: files read earlier as they were then. */
  ghost function Seen(fs: Entries, u: Writer): Entries
  {
    Apply(fs, u.read)
  }

  ghost function BatchOf(w: World, f: Entries, u: Writer): Batch
  {
    Batch(w, f, u.changes, u.d)
  }

  ghost function ConfirmedAs(w: World, fs: Entries, u: Writer, d: Dependencies): Writer
  {
    var files := Restrict(fs, d.paths);
    u.(phase := Confirmed, d := d, files := files, clean := LocallyClean(Batch(w, files, u.changes, d)),
       prior := map p | p in u.changes :: At(fs, p))
  }

  /** The last file has been read: what was seen must ask for exactly the locks held. Then
      the files are captured and the batch is checked against them. */
  ghost predicate Confirming(w: World, s: System, t: System, i: nat, d: Dependencies)
    requires i < |s.writers|
  {
    var u := s.writers[i];
    && Locked(u) && Discovered(w, Seen(s.fs, u), u.changes, d) && PlanIs(u, d)
    && t == With(s, i, ConfirmedAs(w, s.fs, u, d))
  }

  ghost predicate Confirm(w: World, s: System, t: System, i: nat)
    requires i < |s.writers|
  {
    exists d :: Confirming(w, s, t, i, d)
  }

  /** The check introduced nothing and the captured files are unchanged. */
  ghost predicate Start(s: System, t: System, i: nat)
    requires i < |s.writers|
  {
    var u := s.writers[i];
    && u.phase.Confirmed? && u.applying && u.clean
    && Restrict(s.fs, u.d.paths) == u.files
    && t == With(s, i, u.(phase := Writing(0)))
  }

  ghost predicate Write(s: System, t: System, i: nat)
    requires i < |s.writers|
  {
    var u := s.writers[i];
    && u.phase.Writing? && u.phase.done < |u.order| && u.order[u.phase.done] in u.changes
    && t == System(Put(s.fs, u.order[u.phase.done], u.changes[u.order[u.phase.done]]),
                   s.writers[i := u.(phase := Writing(u.phase.done + 1))])
  }

  /** A write or the verification after it fails. */
  ghost predicate Fail(s: System, t: System, i: nat)
    requires i < |s.writers|
  {
    var u := s.writers[i];
    u.phase.Writing? && t == With(s, i, u.(phase := RollingBack(u.phase.done)))
  }

  /** Restores the last receipt. */
  ghost predicate Undo(s: System, t: System, i: nat)
    requires i < |s.writers|
  {
    var u := s.writers[i];
    && u.phase.RollingBack? && 0 < u.phase.done <= |u.order| && u.order[u.phase.done - 1] in u.prior
    && t == System(Put(s.fs, u.order[u.phase.done - 1], u.prior[u.order[u.phase.done - 1]]),
                   s.writers[i := u.(phase := RollingBack(u.phase.done - 1))])
  }

  /** Releases the locks after the last write or the last restored receipt. */
  ghost predicate Finish(s: System, t: System, i: nat)
    requires i < |s.writers|
  {
    var u := s.writers[i];
    && (u.phase == Writing(|u.order|) || u.phase == RollingBack(0))
    && t == With(s, i, u.(phase := Done))
  }

  /** Stale, invalid or read-only: releases the locks without writing. */
  ghost predicate Leave(s: System, t: System, i: nat)
    requires i < |s.writers|
  {
    var u := s.writers[i];
    (u.phase.Locking? || u.phase.Confirmed?) && t == With(s, i, u.(phase := Done))
  }

  ghost predicate StepOf(w: World, s: System, t: System, i: nat)
    requires i < |s.writers|
  {
    Begin(s, t, i) || Take(s, t, i) || Look(s, t, i) || Confirm(w, s, t, i) || Start(s, t, i) || Write(s, t, i)
    || Fail(s, t, i) || Undo(s, t, i) || Finish(s, t, i) || Leave(s, t, i)
  }

  /** A writer whose batch is accepted has lost no flag. */
  ghost predicate SpelledStep(w: World, s: System, t: System, i: nat)
    requires i < |s.writers|
  {
    Confirm(w, s, t, i) && |t.writers| == |s.writers| && t.writers[i].applying && t.writers[i].clean ==>
      NoFlagLost(ContextOf(w, Seen(s.fs, s.writers[i]), s.writers[i].changes))
  }

  // ---- The invariant ----

  ghost predicate Active(u: Writer)
  {
    u.phase.Writing? || u.phase.RollingBack?
  }

  ghost predicate Engaged(u: Writer)
  {
    u.applying && ((u.phase.Confirmed? && u.clean) || Active(u))
  }

  ghost predicate Proposal(w: World, u: Writer)
  {
    && Writable(w, u.changes)
    && (forall p :: p in u.changes && u.changes[p].Some? ==>
        WellPlaced(w, p, u.changes[p].value) && Formed(w, p, u.changes[p]))
    && (forall p :: p in u.order <==> p in u.changes)
    && (forall i, j :: 0 <= i < j < |u.order| ==> u.order[i] != u.order[j])
  }

  /** What a writer may have at one of its own paths: the old record or the new one. */
  ghost predicate Version(u: Writer, q: Path, r: Option<Record>)
  {
    q in u.changes && q in u.prior && (r == u.prior[q] || r == u.changes[q])
  }

  /** The locks of an engaged writer cover everything its own versions refer to or hold. */
  ghost predicate VersionCovered(w: World, u: Writer, q: Path, r: Record)
  {
    && WellPlaced(w, q, r) && Apart(w, q, r) && Formed(w, q, Some(r))
    && (r.governed && IsWork(w.facts(q).kind) ==> forall x :: x in WorkRefs(r) ==> Places(w, q, x) <= u.d.paths)
    && (r.governed && r.identity.Some? ==> IdentityOf(w, q, r.identity.value) in u.d.writtenIdentities)
  }

  ghost predicate Covered(w: World, u: Writer)
  {
    && u.applying && Writable(w, u.changes)
    && u.prior.Keys == u.changes.Keys <= u.d.paths
    && u.d.writtenIdentities <= u.d.identities
    && PlanIs(u, u.d)
    && forall q, r: Record :: Version(u, q, Some(r)) ==> VersionCovered(w, u, q, r)
  }

  ghost function Applied(u: Writer): set<Path>
  {
    match u.phase
    case Writing(k) => if k <= |u.order| then (set p | p in u.order[..k]) else {}
    case RollingBack(k) => if k <= |u.order| then (set p | p in u.order[..k]) else {}
    case _ => {}
  }

  /** The store holds the first changes of an engaged writer and the old rest. */
  ghost predicate Placed(fs: Entries, u: Writer)
  {
    && (u.phase.Writing? ==> u.phase.done <= |u.order|)
    && (u.phase.RollingBack? ==> u.phase.done <= |u.order|)
    && forall q :: q in u.changes && q in u.prior ==>
        At(fs, q) == if q in Applied(u) then u.changes[q] else u.prior[q]
  }

  ghost predicate Owns(s: System, j: int, q: Path)
  {
    0 <= j < |s.writers| && Active(s.writers[j]) && q in s.writers[j].changes
  }

  /** `f` may be the store once every active writer but `i` has settled path by path. */
  ghost predicate Possible(s: System, i: nat, f: Entries)
    requires i < |s.writers|
  {
    && (forall q :: q in s.writers[i].changes && q in s.writers[i].prior ==> At(f, q) == s.writers[i].prior[q])
    && (forall j, q :: j != i && Owns(s, j, q) ==> Version(s.writers[j], q, At(f, q)))
    && (forall q :: q !in s.writers[i].changes && (forall j :: j != i ==> !Owns(s, j, q)) ==> At(f, q) == At(s.fs, q))
  }

  ghost predicate StaysAdequate(w: World, s: System, i: nat)
    requires i < |s.writers|
  {
    var u := s.writers[i];
    forall f :: WellFormed(w, f) && Possible(s, i, f) ==> Anchored(Batch(w, f, u.changes, u.d))
  }

  /** `f` is the store in which exactly the active writers of `kept` have committed. */
  ghost predicate View(s: System, kept: set<int>, f: Entries)
  {
    && (forall j, q :: Owns(s, j, q) && q in s.writers[j].prior ==>
        At(f, q) == if j in kept then s.writers[j].changes[q] else s.writers[j].prior[q])
    && (forall q :: (forall j :: !Owns(s, j, q)) ==> At(f, q) == At(s.fs, q))
  }

  ghost predicate Exclusion(s: System)
  {
    forall i, j :: 0 <= i < j < |s.writers| ==> Compatible(Held(s.writers[i]), Held(s.writers[j]))
  }

  /** The check accepted the captured files. */
  ghost predicate Judged(w: World, u: Writer)
  {
    LocallyClean(BatchOf(w, u.files, u)) && Restrict(u.files, u.d.paths) == u.files
  }

  /** Writer `j` has written since it and writer `i` held all their locks. */
  ghost predicate Met(w: World, s: System, i: nat, j: int)
    requires i < |s.writers|
  {
    && 0 <= j < |s.writers| && j != i && (Active(s.writers[j]) || s.writers[j].phase.Done?)
    && Covered(w, s.writers[j]) && Compatible(Planned(s.writers[i]), Planned(s.writers[j]))
  }

  /** No writer repairs a malformed ticket or epic. */
  ghost predicate TargetsFormed(w: World, s: System)
  {
    forall i: nat, q :: i < |s.writers| && q in s.writers[i].changes ==> Formed(w, q, At(s.fs, q))
  }

  /** What was read is still there, or some writer met since has put its version there. */
  ghost predicate ReadOk(w: World, s: System, i: nat, q: Path)
    requires i < |s.writers| && q in s.writers[i].read
  {
    var was := s.writers[i].read[q];
    && (was.Some? ==> WellPlaced(w, q, was.value) && Apart(w, q, was.value))
    && (q in s.writers[i].changes ==> Formed(w, q, was))
    && (was == At(s.fs, q) || exists j :: Met(w, s, i, j) && Version(s.writers[j], q, At(s.fs, q)))
  }

  ghost predicate ReaderOk(w: World, s: System, i: nat)
    requires i < |s.writers|
  {
    var u := s.writers[i];
    u.phase.Locking? ==>
      (Locked(u) || u.read == map[]) && forall q :: q in u.read ==> ReadOk(w, s, i, q)
  }

  ghost predicate WriterOk(w: World, s: System, i: nat)
    requires i < |s.writers|
  {
    var u := s.writers[i];
    && Proposal(w, u)
    && (Active(u) ==> u.applying)
    && (u.phase.Confirmed? ==> PlanIs(u, u.d) && (u.clean ==> Judged(w, u)))
    && (Engaged(u) ==> Covered(w, u) && Placed(s.fs, u) && StaysAdequate(w, s, i))
  }

  ghost predicate Inv(w: World, s: System)
  {
    && Coherent(w) && StoreOk(w, s) && Exclusion(s)
    && (forall i: nat :: i < |s.writers| ==> WriterOk(w, s, i))
    && (forall i: nat :: i < |s.writers| ==> ReaderOk(w, s, i))
    && (forall kept, f :: View(s, kept, f) ==> Good(w, f))
  }

  /** The store is in order and nobody has begun. */
  ghost predicate Init(w: World, s: System)
  {
    && Coherent(w) && WellFormed(w, s.fs) && Good(w, s.fs) && TargetsFormed(w, s)
    && forall i: nat :: i < |s.writers| ==> s.writers[i].phase.Idle? && Proposal(w, s.writers[i])
  }

  /** No writer is between its first and its last file. */
  ghost predicate Quiet(s: System)
  {
    forall i: nat :: i < |s.writers| ==> !Active(s.writers[i])
  }

  lemma SameContents(f: Entries, g: Entries)
    requires forall q :: At(f, q) == At(g, q)
    ensures f == g
  {
    forall q ensures q in f <==> q in g ensures q in f ==> f[q] == g[q] {
      assert At(f, q) == At(g, q);
    }
  }

  lemma InitInv(w: World, s: System)
    requires Init(w, s)
    ensures Inv(w, s)
  {
    GoodIsApart(w, s.fs);
    forall kept, f | View(s, kept, f) ensures Good(w, f) {
      forall q ensures At(f, q) == At(s.fs, q) {
        assert forall j :: !Owns(s, j, q);
      }
      SameContents(f, s.fs);
    }
  }

  /** A quiet store is in order. */
  lemma QuietIsGood(w: World, s: System)
    requires Inv(w, s) && Quiet(s)
    ensures Good(w, s.fs)
  {
    assert forall j, q :: !Owns(s, j, q);
    assert View(s, {}, s.fs);
  }

  // ---- What the locks of one engaged writer rule out for another ----

  lemma CompatibleSwaps(a: set<(LockKey, bool)>, b: set<(LockKey, bool)>)
    requires Compatible(a, b)
    ensures Compatible(b, a)
  {
  }

  /** Locks held at one time are compatible. */
  lemma HeldCompatible(s: System, i: nat, j: nat)
    requires Exclusion(s) && i < |s.writers| && j < |s.writers| && i != j
    ensures Compatible(Held(s.writers[i]), Held(s.writers[j]))
  {
    if j < i {
      CompatibleSwaps(Held(s.writers[j]), Held(s.writers[i]));
    }
  }

  /** Two writers with confirmed dependencies that held all their locks at one time. */
  ghost predicate Pair(w: World, s: System, i: nat, j: int)
  {
    && i < |s.writers| && 0 <= j < |s.writers| && i != j
    && Covered(w, s.writers[i]) && Covered(w, s.writers[j])
    && Compatible(Planned(s.writers[i]), Planned(s.writers[j]))
  }

  lemma EngagedPair(w: World, s: System, i: nat, j: nat)
    requires Exclusion(s) && i < |s.writers| && j < |s.writers| && i != j
    requires Engaged(s.writers[i]) && Covered(w, s.writers[i]) && Engaged(s.writers[j]) && Covered(w, s.writers[j])
    ensures Pair(w, s, i, j)
  {
    HeldCompatible(s, i, j);
  }

  lemma PairSwaps(w: World, s: System, i: nat, j: nat)
    requires Pair(w, s, i, j)
    ensures Pair(w, s, j, i)
  {
    CompatibleSwaps(Planned(s.writers[i]), Planned(s.writers[j]));
  }

  /** A path that one writer has locked for writing is no dependency under a compatible plan. */
  lemma ExclusivePath(w: World, u: Writer, v: Writer, d: Dependencies, p: Path)
    requires Covered(w, u) && p in u.changes && PlanIs(v, d) && Compatible(Planned(u), Planned(v))
    ensures p !in d.paths
  {
    assert (PathKey(p), true) in u.plan && (PathKey(p), true) in Planned(u);
    assert p in d.paths ==> (PathKey(p), v.applying && p in v.changes) in v.plan;
    assert p in d.paths ==> (PathKey(p), v.applying && p in v.changes) in Planned(v);
  }

  /** A written path of one writer is no dependency of another. */
  lemma WrittenPathIsPrivate(w: World, s: System, i: nat, j: int, p: Path)
    requires Pair(w, s, i, j) && p in s.writers[i].changes
    ensures p !in s.writers[j].d.paths
  {
    ExclusivePath(w, s.writers[i], s.writers[j], s.writers[j].d, p);
  }

  /** A written identity of one writer is no written identity of another. */
  lemma WrittenIdentityIsPrivate(w: World, s: System, i: nat, j: int, k: Identity)
    requires Pair(w, s, i, j) && k in s.writers[i].d.writtenIdentities
    ensures k !in s.writers[j].d.writtenIdentities
  {
    var u, v := s.writers[i], s.writers[j];
    assert (IdentityKey(k), true) in u.plan && (IdentityKey(k), true) in Planned(u);
    assert k in v.d.writtenIdentities ==> (IdentityKey(k), true) in v.plan;
    assert k in v.d.writtenIdentities ==> (IdentityKey(k), true) in Planned(v);
  }

  // ---- Adequacy is not disturbed by other writers ----

  /** Away from the versions of writers met the two stores agree. */
  ghost predicate Disturbed(w: World, s: System, i: nat, g: Entries, f: Entries)
    requires i < |s.writers|
  {
    && Coherent(w) && WellFormed(w, g) && WellFormed(w, f)
    && (forall q :: At(f, q) == At(g, q) || exists j :: Pair(w, s, i, j) && Version(s.writers[j], q, At(f, q)))
    && (forall q :: q in s.writers[i].changes && q in s.writers[i].prior ==> At(f, q) == s.writers[i].prior[q])
  }

  lemma DependenciesUndisturbed(w: World, s: System, i: nat, g: Entries, f: Entries, p: Path)
    requires i < |s.writers| && Disturbed(w, s, i, g, f) && p in s.writers[i].d.paths
    ensures At(f, p) == At(g, p)
  {
    if At(f, p) != At(g, p) {
      var j :| Pair(w, s, i, j) && Version(s.writers[j], p, At(f, p));
      PairSwaps(w, s, i, j);
      WrittenPathIsPrivate(w, s, j, i, p);
    }
  }

  lemma SidesUndisturbed(w: World, s: System, i: nat, g: Entries, f: Entries, p: Path, after: bool)
    requires i < |s.writers| && Disturbed(w, s, i, g, f) && p in s.writers[i].d.paths
    ensures At(Side(BatchOf(w, f, s.writers[i]), after), p) == At(Side(BatchOf(w, g, s.writers[i]), after), p)
  {
    DependenciesUndisturbed(w, s, i, g, f, p);
  }

  /** No writer's files are decisions. */
  lemma DecisionIsUndisturbed(w: World, s: System, i: nat, g: Entries, f: Entries, t: Path)
    requires i < |s.writers| && Disturbed(w, s, i, g, f) && w.facts(t).kind == Some(Decision)
    ensures At(f, t) == At(g, t)
  {
    forall j | Pair(w, s, i, j) ensures t !in s.writers[j].changes {
    }
  }

  /** Another writer's record that refers to a written path would hold a lock on it. */
  lemma ReferrerIsUndisturbed(w: World, s: System, i: nat, g: Entries, f: Entries, q: Path, r: string, z: Path)
    requires i < |s.writers| && Disturbed(w, s, i, g, f)
    requires WorkItem(w, f, q) && r in WorkRefs(f[q]) && z in s.writers[i].changes && z in Places(w, q, r)
    ensures At(f, q) == At(g, q)
  {
    if At(f, q) != At(g, q) {
      var j :| Pair(w, s, i, j) && Version(s.writers[j], q, At(f, q));
      assert VersionCovered(w, s.writers[j], q, f[q]);
      WrittenPathIsPrivate(w, s, i, j, z);
    }
  }

  /** Another writer's record with a written identity would hold its exclusive lock. */
  lemma NamesakeIsUndisturbed(w: World, s: System, i: nat, g: Entries, f: Entries, t: Path, k: Identity)
    requires i < |s.writers| && Disturbed(w, s, i, g, f)
    requires t in f && f[t].governed && f[t].identity.Some? && k == IdentityOf(w, t, f[t].identity.value)
    requires k in s.writers[i].d.writtenIdentities
    ensures At(f, t) == At(g, t)
  {
    if At(f, t) != At(g, t) {
      var j :| Pair(w, s, i, j) && Version(s.writers[j], t, At(f, t));
      assert VersionCovered(w, s.writers[j], t, f[t]);
      WrittenIdentityIsPrivate(w, s, i, j, k);
    }
  }

  lemma ReferrersUndisturbed(w: World, s: System, i: nat, g: Entries, f: Entries, q: Path, after: bool)
    requires i < |s.writers| && Covered(w, s.writers[i]) && Disturbed(w, s, i, g, f)
    requires ReferrerChecked(BatchOf(w, g, s.writers[i]), Side(BatchOf(w, g, s.writers[i]), after), q)
    requires Sound(BatchOf(w, f, s.writers[i]))
    ensures ReferrerChecked(BatchOf(w, f, s.writers[i]), Side(BatchOf(w, f, s.writers[i]), after), q)
  {
    var u := s.writers[i];
    var x, y := Side(BatchOf(w, f, u), after), Side(BatchOf(w, g, u), after);
    if WorkItem(w, f, q) && q !in u.changes && InScope(BatchOf(w, f, u), q) {
      forall r, z | z in u.changes && r in WorkRefs(f[q]) && Eligible(w, x, q, r, AsWork, z)
        ensures q in u.d.validationPaths
      {
        assert At(x, q) == Some(f[q]);
        EligibleIsPlaced(w, x, q, r, z);
        ReferrerIsUndisturbed(w, s, i, g, f, q, r, z);
        SidesUndisturbed(w, s, i, g, f, z, after);
        assert At(f, q) == At(g, q) && At(x, z) == At(y, z);
        assert WorkItem(w, g, q) && r in WorkRefs(g[q]) && Eligible(w, y, q, r, AsWork, z);
      }
    }
  }

  lemma NamesakesUndisturbed(w: World, s: System, i: nat, g: Entries, f: Entries, t: Path, z: Path, after: bool)
    requires i < |s.writers| && Covered(w, s.writers[i]) && Disturbed(w, s, i, g, f)
    requires Namesakes(BatchOf(w, f, s.writers[i]), Side(BatchOf(w, f, s.writers[i]), after), t, z)
    ensures Namesakes(BatchOf(w, g, s.writers[i]), Side(BatchOf(w, g, s.writers[i]), after), t, z)
    ensures At(f, t) == At(g, t)
  {
    var u := s.writers[i];
    var x := Side(BatchOf(w, f, u), after);
    SidesUndisturbed(w, s, i, g, f, z, after);
    assert Version(u, z, Some(x[z]));
    assert VersionCovered(w, u, z, x[z]);
    var k := IdentityOf(w, t, f[t].identity.value);
    assert k == IdentityOf(w, z, x[z].identity.value);
    NamesakeIsUndisturbed(w, s, i, g, f, t, k);
    assert At(f, t) == At(g, t);
  }

  lemma ExpandedUndisturbed(w: World, s: System, i: nat, g: Entries, f: Entries)
    requires i < |s.writers| && Disturbed(w, s, i, g, f)
    ensures Expanded(BatchOf(w, f, s.writers[i])) == Expanded(BatchOf(w, g, s.writers[i]))
  {
    var b, c := BatchOf(w, f, s.writers[i]), BatchOf(w, g, s.writers[i]);
    forall p ensures p in Inert(b) <==> p in Inert(c) {
      if p in s.writers[i].d.paths {
        DependenciesUndisturbed(w, s, i, g, f, p);
      }
    }
  }

  lemma TargetsUndisturbed(w: World, s: System, i: nat, g: Entries, f: Entries, p: Path, after: bool)
    requires i < |s.writers| && Disturbed(w, s, i, g, f) && p in s.writers[i].d.paths
    requires Expanded(BatchOf(w, f, s.writers[i])) == Expanded(BatchOf(w, g, s.writers[i]))
    ensures var b, c := BatchOf(w, f, s.writers[i]), BatchOf(w, g, s.writers[i]);
      && (PlacesChecked(c, Side(c, after), p) ==> PlacesChecked(b, Side(b, after), p))
      && (PlacesExpanded(c, Side(c, after), p) ==> PlacesExpanded(b, Side(b, after), p))
  {
    SidesUndisturbed(w, s, i, g, f, p, after);
  }

  lemma DecisionsUndisturbed(w: World, s: System, i: nat, g: Entries, f: Entries, p: Path, after: bool)
    requires i < |s.writers| && Disturbed(w, s, i, g, f) && p in s.writers[i].d.paths
    requires Writable(w, s.writers[i].changes)
    requires DecisionsChecked(BatchOf(w, g, s.writers[i]), Side(BatchOf(w, g, s.writers[i]), after), p)
    ensures DecisionsChecked(BatchOf(w, f, s.writers[i]), Side(BatchOf(w, f, s.writers[i]), after), p)
  {
    var u := s.writers[i];
    var x, y := Side(BatchOf(w, f, u), after), Side(BatchOf(w, g, u), after);
    SidesUndisturbed(w, s, i, g, f, p, after);
    if WorkItem(w, x, p) {
      forall r, t | r in x[p].decisionRefs && Eligible(w, x, p, r, AsDecision, t) ensures t in u.d.paths {
        DecisionIsUndisturbed(w, s, i, g, f, t);
        assert t !in u.changes && At(x, t) == At(y, t);
        assert WorkItem(w, y, p) && y[p] == x[p] && Eligible(w, y, p, r, AsDecision, t);
      }
    }
  }

  /** Adequate dependencies stay adequate whatever the writers met do to their paths. */
  lemma AdequacyUndisturbed(w: World, s: System, i: nat, g: Entries, f: Entries)
    requires i < |s.writers| && Covered(w, s.writers[i]) && Disturbed(w, s, i, g, f)
    requires Sound(BatchOf(w, f, s.writers[i])) && Anchored(BatchOf(w, g, s.writers[i]))
    ensures Anchored(BatchOf(w, f, s.writers[i]))
  {
    var u := s.writers[i];
    var b, c := BatchOf(w, f, u), BatchOf(w, g, u);
    ExpandedUndisturbed(w, s, i, g, f);
    forall after, p | p in u.d.validationPaths
      ensures PlacesChecked(b, Side(b, after), p) && DecisionsChecked(b, Side(b, after), p)
    {
      TargetsUndisturbed(w, s, i, g, f, p, after);
      DecisionsUndisturbed(w, s, i, g, f, p, after);
    }
    forall after, p | p in Expanded(b) ensures PlacesExpanded(b, Side(b, after), p) {
      TargetsUndisturbed(w, s, i, g, f, p, after);
    }
    ReferrersStayChecked(w, s, i, g, f);
    NamesakesStayChecked(w, s, i, g, f);
  }

  lemma ReferrersStayChecked(w: World, s: System, i: nat, g: Entries, f: Entries)
    requires i < |s.writers| && Covered(w, s.writers[i]) && Disturbed(w, s, i, g, f)
    requires Sound(BatchOf(w, f, s.writers[i]))
    requires forall after, q ::
      ReferrerChecked(BatchOf(w, g, s.writers[i]), Side(BatchOf(w, g, s.writers[i]), after), q)
    ensures forall after, q :: ReferrerChecked(BatchOf(w, f, s.writers[i]), Side(BatchOf(w, f, s.writers[i]), after), q)
  {
    forall after, q ensures ReferrerChecked(BatchOf(w, f, s.writers[i]), Side(BatchOf(w, f, s.writers[i]), after), q) {
      ReferrersUndisturbed(w, s, i, g, f, q, after);
    }
  }

  lemma NamesakesStayChecked(w: World, s: System, i: nat, g: Entries, f: Entries)
    requires i < |s.writers| && Covered(w, s.writers[i]) && Disturbed(w, s, i, g, f)
    requires Anchored(BatchOf(w, g, s.writers[i]))
    ensures var b := BatchOf(w, f, s.writers[i]);
      forall after, t, z :: Namesakes(b, Side(b, after), t, z) && Speaks(f, t) ==> t in s.writers[i].d.validationPaths
  {
    var b := BatchOf(w, f, s.writers[i]);
    forall after, t, z | Namesakes(b, Side(b, after), t, z) && Speaks(f, t)
      ensures t in s.writers[i].d.validationPaths
    {
      NamesakesUndisturbed(w, s, i, g, f, t, z, after);
    }
  }

  // ---- Steps that leave the active writers as they are ----

  /** Writer `i` steps: only its own files move, from one of its versions to another. */
  ghost predicate Mild(s: System, t: System, i: nat)
  {
    && i < |s.writers| == |t.writers| && !s.writers[i].phase.Done?
    && (forall j :: 0 <= j < |s.writers| && j != i ==> t.writers[j] == s.writers[j])
    && t.writers[i].changes == s.writers[i].changes
    && (Active(s.writers[i]) ==>
        && t.writers[i] == s.writers[i].(phase := t.writers[i].phase)
        && (Active(t.writers[i]) || t.writers[i].phase.Done?))
    && (forall q :: At(t.fs, q) == At(s.fs, q) || (Active(s.writers[i]) && Version(s.writers[i], q, At(t.fs, q))))
  }

  /** And no one starts or stops writing. */
  ghost predicate Calm(s: System, t: System, i: nat)
  {
    Mild(s, t, i) && (Active(s.writers[i]) <==> Active(t.writers[i]))
  }

  /** A version of a writer in order is a record in order. */
  lemma VersionIsSane(w: World, s: System, i: nat, q: Path, r: Option<Record>)
    requires Inv(w, s) && i < |s.writers| && Active(s.writers[i]) && Version(s.writers[i], q, r)
    ensures r.Some? ==> WellPlaced(w, q, r.value) && Apart(w, q, r.value)
    ensures Formed(w, q, r)
  {
    assert WriterOk(w, s, i);
    if r.Some? {
      assert VersionCovered(w, s.writers[i], q, r.value);
    }
  }

  ghost predicate StoreOk(w: World, s: System)
  {
    WellFormed(w, s.fs) && AllApart(w, s.fs) && TargetsFormed(w, s)
  }

  lemma MildKeepsStore(w: World, s: System, t: System, i: nat)
    requires Inv(w, s) && Mild(s, t, i)
    ensures StoreOk(w, t)
  {
    forall q
      ensures q in t.fs ==> WellPlaced(w, q, t.fs[q]) && Apart(w, q, t.fs[q])
      ensures At(t.fs, q) == At(s.fs, q) || Formed(w, q, At(t.fs, q))
    {
      if At(t.fs, q) != At(s.fs, q) {
        VersionIsSane(w, s, i, q, At(t.fs, q));
      }
    }
    forall k: nat, q | k < |t.writers| && q in t.writers[k].changes ensures Formed(w, q, At(t.fs, q)) {
      assert q in s.writers[k].changes;
    }
  }

  // -- what a reader has read --

  lemma MetStays(w: World, s: System, t: System, i: nat, k: nat, j: int)
    requires Mild(s, t, i) && k < |s.writers| && k != i && Met(w, s, k, j)
    ensures Met(w, t, k, j) && t.writers[j].changes == s.writers[j].changes && t.writers[j].prior == s.writers[j].prior
  {
    if j == i {
      CoveredAnyPhase(w, s.writers[i], t.writers[i].phase);
    }
  }

  lemma WriterIsMet(w: World, s: System, i: nat, k: nat)
    requires Inv(w, s) && i < |s.writers| && k < |s.writers| && k != i
    requires Locked(s.writers[k]) && Active(s.writers[i])
    ensures Met(w, s, k, i)
  {
    assert WriterOk(w, s, i);
    HeldCompatible(s, k, i);
    assert s.writers[k].plan[..|s.writers[k].plan|] == s.writers[k].plan;
  }

  lemma ReadStaysOk(w: World, s: System, t: System, i: nat, k: nat, q: Path)
    requires Inv(w, s) && Mild(s, t, i) && k < |s.writers| && k != i
    requires Locked(s.writers[k]) && q in s.writers[k].read && ReadOk(w, s, k, q)
    ensures ReadOk(w, t, k, q)
  {
    if At(t.fs, q) != At(s.fs, q) {
      WriterIsMet(w, s, i, k);
      MetStays(w, s, t, i, k, i);
      assert Version(t.writers[i], q, At(t.fs, q));
    } else if s.writers[k].read[q] != At(s.fs, q) {
      var j :| Met(w, s, k, j) && Version(s.writers[j], q, At(s.fs, q));
      MetStays(w, s, t, i, k, j);
      assert Version(t.writers[j], q, At(t.fs, q));
    }
  }

  lemma ReadersStayOk(w: World, s: System, t: System, i: nat, k: nat)
    requires Inv(w, s) && Mild(s, t, i) && k < |s.writers| && k != i
    ensures ReaderOk(w, t, k)
  {
    assert ReaderOk(w, s, k);
    if Locked(s.writers[k]) {
      forall q | q in t.writers[k].read ensures ReadOk(w, t, k, q) {
        ReadStaysOk(w, s, t, i, k, q);
      }
    }
  }

  /** What every step keeps, when the stepping writer has read correctly. */
  lemma MildKeepsRest(w: World, s: System, t: System, i: nat)
    requires Inv(w, s) && Mild(s, t, i) && ReaderOk(w, t, i)
    ensures StoreOk(w, t) && forall k: nat :: k < |t.writers| ==> ReaderOk(w, t, k)
  {
    MildKeepsStore(w, s, t, i);
    forall k: nat | k < |t.writers| ensures ReaderOk(w, t, k) {
      if k != i {
        ReadersStayOk(w, s, t, i, k);
      }
    }
  }

  lemma CalmOwners(s: System, t: System, i: nat)
    requires Calm(s, t, i)
    ensures forall j, q :: Owns(t, j, q) <==> Owns(s, j, q)
    ensures forall j, q ::
      Owns(s, j, q) ==> t.writers[j].changes == s.writers[j].changes && t.writers[j].prior == s.writers[j].prior
  {
  }

  lemma CalmPossible(s: System, t: System, i: nat, k: nat, f: Entries)
    requires Calm(s, t, i) && k < |s.writers| && t.writers[k].prior == s.writers[k].prior
    requires Possible(t, k, f)
    ensures Possible(s, k, f)
  {
    CalmOwners(s, t, i);
    forall j, q | j != k && Owns(s, j, q) ensures Version(s.writers[j], q, At(f, q)) {
      assert Owns(t, j, q);
    }
    forall q | q !in s.writers[k].changes && forall j :: j != k ==> !Owns(s, j, q)
      ensures At(f, q) == At(s.fs, q)
    {
      assert forall j :: j != k ==> !Owns(t, j, q);
      if i != k {
        assert !Owns(s, i, q);
      }
    }
  }

  lemma CalmView(s: System, t: System, i: nat, kept: set<int>, f: Entries)
    requires Calm(s, t, i) && View(t, kept, f)
    ensures View(s, kept, f)
  {
    CalmOwners(s, t, i);
    forall q | forall j :: !Owns(s, j, q) ensures At(f, q) == At(s.fs, q) {
      assert !Owns(s, i, q);
      assert forall j :: !Owns(t, j, q);
    }
  }

  lemma CalmKeepsViews(w: World, s: System, t: System, i: nat)
    requires Calm(s, t, i) && forall kept, f :: View(s, kept, f) ==> Good(w, f)
    ensures forall kept, f :: View(t, kept, f) ==> Good(w, f)
  {
    forall kept, f | View(t, kept, f) ensures Good(w, f) {
      CalmView(s, t, i, kept, f);
    }
  }

  lemma CalmKeepsAdequate(w: World, s: System, t: System, i: nat, k: nat)
    requires Calm(s, t, i) && k < |s.writers| && StaysAdequate(w, s, k)
    requires t.writers[k].prior == s.writers[k].prior && t.writers[k].d == s.writers[k].d
    ensures StaysAdequate(w, t, k)
  {
    assert t.writers[k].changes == s.writers[k].changes;
    forall f | WellFormed(w, f) && Possible(t, k, f)
      ensures Anchored(Batch(w, f, t.writers[k].changes, t.writers[k].d))
    {
      CalmPossible(s, t, i, k, f);
    }
  }

  /** The stepping writer's files are none of the others'. */
  lemma OthersStayPlaced(w: World, s: System, t: System, i: nat, j: nat)
    requires Inv(w, s) && Calm(s, t, i) && j < |s.writers| && j != i && Engaged(s.writers[j])
    ensures Placed(t.fs, t.writers[j])
  {
    assert WriterOk(w, s, i) && WriterOk(w, s, j);
    var v := s.writers[j];
    forall q | q in v.changes && q in v.prior ensures At(t.fs, q) == At(s.fs, q) {
      if Active(s.writers[i]) && q in s.writers[i].changes {
        EngagedPair(w, s, i, j);
        WrittenPathIsPrivate(w, s, i, j, q);
      }
    }
  }

  lemma OthersStayOk(w: World, s: System, t: System, i: nat, j: nat)
    requires Inv(w, s) && Calm(s, t, i) && j < |s.writers| && j != i
    ensures WriterOk(w, t, j)
  {
    assert WriterOk(w, s, j);
    if Engaged(s.writers[j]) {
      OthersStayPlaced(w, s, t, i, j);
      CalmKeepsAdequate(w, s, t, i, j);
    }
  }

  lemma HeldShrinks(s: System, t: System, i: nat)
    requires Exclusion(s) && i < |s.writers| == |t.writers|
    requires forall j :: 0 <= j < |s.writers| && j != i ==> t.writers[j] == s.writers[j]
    requires Held(t.writers[i]) <= Held(s.writers[i])
    ensures Exclusion(t)
  {
    forall a, b | 0 <= a < b < |t.writers| ensures Compatible(Held(t.writers[a]), Held(t.writers[b])) {
      assert Compatible(Held(s.writers[a]), Held(s.writers[b]));
    }
  }

  /** A calm step keeps the invariant when the stepping writer itself is in order. */
  lemma CalmKeepsInv(w: World, s: System, t: System, i: nat)
    requires Inv(w, s) && Calm(s, t, i) && Exclusion(t) && WriterOk(w, t, i) && ReaderOk(w, t, i)
    ensures Inv(w, t)
  {
    MildKeepsRest(w, s, t, i);
    forall j: nat | j < |t.writers| ensures WriterOk(w, t, j) {
      if j != i {
        OthersStayOk(w, s, t, i, j);
      }
    }
    CalmKeepsViews(w, s, t, i);
  }

  lemma BeginKeeps(w: World, s: System, t: System, i: nat)
    requires Inv(w, s) && i < |s.writers| && Begin(s, t, i)
    ensures Inv(w, t)
  {
    assert WriterOk(w, s, i);
    HeldShrinks(s, t, i);
    CalmKeepsInv(w, s, t, i);
  }

  lemma LeaveKeeps(w: World, s: System, t: System, i: nat)
    requires Inv(w, s) && i < |s.writers| && Leave(s, t, i)
    ensures Inv(w, t)
  {
    assert WriterOk(w, s, i);
    HeldShrinks(s, t, i);
    CalmKeepsInv(w, s, t, i);
  }

  lemma TakeKeepsExclusion(s: System, t: System, i: nat)
    requires Exclusion(s) && i < |s.writers| && Take(s, t, i)
    ensures Exclusion(t)
  {
    var u := s.writers[i];
    var k := u.phase.taken;
    assert u.plan[..k + 1] == u.plan[..k] + [u.plan[k]];
    assert Held(t.writers[i]) == Held(u) + {u.plan[k]};
    forall a, b | 0 <= a < b < |t.writers| ensures Compatible(Held(t.writers[a]), Held(t.writers[b])) {
      assert Compatible(Held(s.writers[a]), Held(s.writers[b]));
      assert a != i ==> Compatible({u.plan[k]}, Held(s.writers[a]));
      assert b != i ==> Compatible({u.plan[k]}, Held(s.writers[b]));
    }
  }

  lemma TakeKeeps(w: World, s: System, t: System, i: nat)
    requires Inv(w, s) && i < |s.writers| && Take(s, t, i)
    ensures Inv(w, t)
  {
    assert WriterOk(w, s, i) && ReaderOk(w, s, i);
    TakeKeepsExclusion(s, t, i);
    CalmKeepsInv(w, s, t, i);
  }

  lemma LookReads(w: World, s: System, t: System, i: nat)
    requires Inv(w, s) && i < |s.writers| && Look(s, t, i)
    ensures ReaderOk(w, t, i)
  {
    assert ReaderOk(w, s, i);
    forall q | q in t.writers[i].read ensures ReadOk(w, t, i, q) {
      if q in s.writers[i].read && t.writers[i].read[q] == s.writers[i].read[q] {
        assert ReadOk(w, s, i, q);
        if s.writers[i].read[q] != At(s.fs, q) {
          var j :| Met(w, s, i, j) && Version(s.writers[j], q, At(s.fs, q));
          assert Met(w, t, i, j);
        }
      }
    }
  }

  lemma LookKeeps(w: World, s: System, t: System, i: nat)
    requires Inv(w, s) && i < |s.writers| && Look(s, t, i)
    ensures Inv(w, t)
  {
    assert WriterOk(w, s, i);
    LookReads(w, s, t, i);
    assert Held(t.writers[i]) == Held(s.writers[i]);
    HeldShrinks(s, t, i);
    CalmKeepsInv(w, s, t, i);
  }

  // ---- Steps of an active writer ----

  ghost predicate OnlyPhase(s: System, t: System, i: nat)
  {
    && i < |s.writers| == |t.writers| && Active(s.writers[i]) && Active(t.writers[i])
    && t.writers == s.writers[i := s.writers[i].(phase := t.writers[i].phase)]
    && forall q :: At(t.fs, q) == At(s.fs, q) || Version(s.writers[i], q, At(t.fs, q))
  }

  lemma CoveredAnyPhase(w: World, u: Writer, phase: Phase)
    requires Covered(w, u)
    ensures Covered(w, u.(phase := phase))
  {
    var v := u.(phase := phase);
    forall q, r: Record | Version(v, q, Some(r)) ensures VersionCovered(w, v, q, r) {
      assert Version(u, q, Some(r));
      assert VersionCovered(w, u, q, r);
    }
  }

  lemma ActiveStepKeeps(w: World, s: System, t: System, i: nat)
    requires Inv(w, s) && OnlyPhase(s, t, i) && Placed(t.fs, t.writers[i])
    ensures Inv(w, t)
  {
    assert WriterOk(w, s, i);
    CoveredAnyPhase(w, s.writers[i], t.writers[i].phase);
    assert Held(t.writers[i]) == Held(s.writers[i]);
    HeldShrinks(s, t, i);
    CalmKeepsAdequate(w, s, t, i, i);
    CalmKeepsInv(w, s, t, i);
  }

  lemma FailKeeps(w: World, s: System, t: System, i: nat)
    requires Inv(w, s) && i < |s.writers| && Fail(s, t, i)
    ensures Inv(w, t)
  {
    assert WriterOk(w, s, i);
    ActiveStepKeeps(w, s, t, i);
  }

  lemma PutAt(fs: Entries, p: Path, r: Option<Record>)
    ensures forall q :: At(Put(fs, p, r), q) == if q == p then r else At(fs, q)
  {
  }

  /** After one more write the first `k + 1` changes are in place. */
  lemma WritePlaces(fs: Entries, u: Writer, k: nat)
    requires u.phase == Writing(k) && k < |u.order| && Placed(fs, u)
    requires forall i, j :: 0 <= i < j < |u.order| ==> u.order[i] != u.order[j]
    requires u.order[k] in u.changes
    ensures Placed(Put(fs, u.order[k], u.changes[u.order[k]]), u.(phase := Writing(k + 1)))
  {
    var p := u.order[k];
    var next := Put(fs, p, u.changes[p]);
    assert u.order[..k + 1] == u.order[..k] + [p];
    forall q ensures At(next, q) == if q == p then u.changes[p] else At(fs, q) {
    }
  }

  /** After one more restored receipt only the first `k` changes are in place. */
  lemma UndoPlaces(fs: Entries, u: Writer, k: nat)
    requires u.phase == RollingBack(k + 1) && k < |u.order| && Placed(fs, u)
    requires forall i, j :: 0 <= i < j < |u.order| ==> u.order[i] != u.order[j]
    requires u.order[k] in u.prior
    ensures Placed(Put(fs, u.order[k], u.prior[u.order[k]]), u.(phase := RollingBack(k)))
  {
    var p := u.order[k];
    var next := Put(fs, p, u.prior[p]);
    assert u.order[..k + 1] == u.order[..k] + [p];
    assert p !in u.order[..k];
    forall q ensures At(next, q) == if q == p then u.prior[p] else At(fs, q) {
    }
  }

  lemma WriteStays(s: System, t: System, i: nat)
    requires i < |s.writers| && Write(s, t, i) && Placed(s.fs, s.writers[i])
    requires s.writers[i].prior.Keys == s.writers[i].changes.Keys
    requires forall j, k :: 0 <= j < k < |s.writers[i].order| ==> s.writers[i].order[j] != s.writers[i].order[k]
    ensures OnlyPhase(s, t, i) && Placed(t.fs, t.writers[i])
  {
    var u := s.writers[i];
    WritePlaces(s.fs, u, u.phase.done);
    PutAt(s.fs, u.order[u.phase.done], u.changes[u.order[u.phase.done]]);
  }

  lemma WriteKeeps(w: World, s: System, t: System, i: nat)
    requires Inv(w, s) && i < |s.writers| && Write(s, t, i)
    ensures Inv(w, t)
  {
    assert WriterOk(w, s, i);
    WriteStays(s, t, i);
    ActiveStepKeeps(w, s, t, i);
  }

  lemma PriorWellPlaced(w: World, u: Writer, p: Path)
    requires Covered(w, u) && p in u.prior
    ensures u.prior[p].Some? ==> WellPlaced(w, p, u.prior[p].value)
  {
    if u.prior[p].Some? {
      assert Version(u, p, Some(u.prior[p].value));
      assert VersionCovered(w, u, p, u.prior[p].value);
    }
  }

  lemma UndoStays(s: System, t: System, i: nat)
    requires i < |s.writers| && Undo(s, t, i) && Placed(s.fs, s.writers[i])
    requires s.writers[i].prior.Keys == s.writers[i].changes.Keys
    requires forall j, k :: 0 <= j < k < |s.writers[i].order| ==> s.writers[i].order[j] != s.writers[i].order[k]
    ensures OnlyPhase(s, t, i) && Placed(t.fs, t.writers[i])
  {
    var u := s.writers[i];
    var k := u.phase.done - 1;
    UndoPlaces(s.fs, u, k);
    PutAt(s.fs, u.order[k], u.prior[u.order[k]]);
  }

  lemma UndoKeeps(w: World, s: System, t: System, i: nat)
    requires Inv(w, s) && i < |s.writers| && Undo(s, t, i)
    ensures Inv(w, t)
  {
    assert WriterOk(w, s, i);
    UndoStays(s, t, i);
    ActiveStepKeeps(w, s, t, i);
  }

  /** No one else owns, or depends on, a path an engaged writer changes. */
  ghost predicate Private(s: System, i: nat)
    requires i < |s.writers|
  {
    && (forall j, q :: j != i && q in s.writers[i].changes ==> !Owns(s, j, q))
    && (forall j, q :: 0 <= j < |s.writers| && j != i && Engaged(s.writers[j]) && q in s.writers[i].changes ==>
        q !in s.writers[j].changes && q !in s.writers[j].d.paths)
  }

  lemma EngagedIsPrivate(w: World, s: System, i: nat)
    requires Inv(w, s) && i < |s.writers| && Engaged(s.writers[i])
    ensures Private(s, i)
  {
    assert WriterOk(w, s, i);
    forall j, q | 0 <= j < |s.writers| && j != i && Engaged(s.writers[j]) && q in s.writers[i].changes
      ensures q !in s.writers[j].changes && q !in s.writers[j].d.paths
    {
      assert WriterOk(w, s, j);
      EngagedPair(w, s, i, j);
      WrittenPathIsPrivate(w, s, i, j, q);
    }
    forall j, q | j != i && q in s.writers[i].changes ensures !Owns(s, j, q) {
      if 0 <= j < |s.writers| {
        assert WriterOk(w, s, j);
      }
    }
  }

  lemma FinishOwners(s: System, t: System, i: nat)
    requires i < |s.writers| && Finish(s, t, i)
    ensures forall j, q :: Owns(t, j, q) <==> Owns(s, j, q) && j != i
  {
  }

  /** Once writer `i` has finished, its files are as one of its versions left them. */
  lemma FinishPossible(s: System, t: System, i: nat, k: nat, f: Entries)
    requires i < |s.writers| && Finish(s, t, i) && k < |s.writers| && k != i && Possible(t, k, f)
    requires Placed(s.fs, s.writers[i]) && s.writers[i].prior.Keys == s.writers[i].changes.Keys
    requires Private(s, i) && Engaged(s.writers[k])
    ensures Possible(s, k, f)
  {
    FinishOwners(s, t, i);
    forall j, q | j != k && Owns(s, j, q) ensures Version(s.writers[j], q, At(f, q)) {
      if j == i {
        assert forall m :: m != k ==> !Owns(t, m, q);
      } else {
        assert Owns(t, j, q);
      }
    }
    forall q | q !in s.writers[k].changes && forall j :: j != k ==> !Owns(s, j, q)
      ensures At(f, q) == At(s.fs, q)
    {
      assert forall j :: j != k ==> !Owns(t, j, q);
    }
  }

  /** The views after `i` has finished are views in which it committed, or in which it did not. */
  lemma FinishView(s: System, t: System, i: nat, kept: set<int>, f: Entries)
    requires i < |s.writers| && Finish(s, t, i) && View(t, kept, f)
    requires Placed(s.fs, s.writers[i]) && s.writers[i].prior.Keys == s.writers[i].changes.Keys
    requires Private(s, i) && forall q :: q in s.writers[i].order <==> q in s.writers[i].changes
    ensures View(s, if s.writers[i].phase.Writing? then kept + {i} else kept - {i}, f)
  {
    var u := s.writers[i];
    var chosen := if u.phase.Writing? then kept + {i} else kept - {i};
    FinishOwners(s, t, i);
    assert u.order[..|u.order|] == u.order;
    forall j, q | Owns(s, j, q) && q in s.writers[j].prior
      ensures At(f, q) == if j in chosen then s.writers[j].changes[q] else s.writers[j].prior[q]
    {
      if j == i {
        assert forall m :: !Owns(t, m, q);
        assert At(f, q) == At(s.fs, q);
      } else {
        assert Owns(t, j, q);
      }
    }
    forall q | forall j :: !Owns(s, j, q) ensures At(f, q) == At(s.fs, q) {
      assert forall j :: !Owns(t, j, q);
    }
  }

  lemma FinishKeepsOthers(w: World, s: System, t: System, i: nat, k: nat)
    requires Inv(w, s) && i < |s.writers| && Finish(s, t, i) && k < |s.writers| && k != i
    requires Engaged(s.writers[i])
    ensures WriterOk(w, t, k)
  {
    assert WriterOk(w, s, i) && WriterOk(w, s, k);
    EngagedIsPrivate(w, s, i);
    if Engaged(s.writers[k]) {
      forall f | WellFormed(w, f) && Possible(t, k, f)
        ensures Anchored(Batch(w, f, t.writers[k].changes, t.writers[k].d))
      {
        FinishPossible(s, t, i, k, f);
      }
    }
  }

  lemma FinishKeepsViews(w: World, s: System, t: System, i: nat)
    requires Inv(w, s) && i < |s.writers| && Finish(s, t, i) && Engaged(s.writers[i])
    ensures forall kept, f :: View(t, kept, f) ==> Good(w, f)
  {
    assert WriterOk(w, s, i);
    EngagedIsPrivate(w, s, i);
    forall kept, f | View(t, kept, f) ensures Good(w, f) {
      FinishView(s, t, i, kept, f);
    }
  }

  lemma FinisherIsOk(w: World, s: System, t: System, i: nat)
    requires Inv(w, s) && i < |s.writers| && Finish(s, t, i)
    ensures Engaged(s.writers[i]) && i < |t.writers| && WriterOk(w, t, i) && Held(t.writers[i]) == {}
    ensures Mild(s, t, i) && ReaderOk(w, t, i)
  {
    assert WriterOk(w, s, i);
    PassiveIsOk(w, t, i, s.writers[i]);
  }

  /** A writer that is not engaged owes nothing but its proposal. */
  lemma PassiveIsOk(w: World, t: System, i: nat, u: Writer)
    requires i < |t.writers| && Proposal(w, u) && t.writers[i].changes == u.changes && t.writers[i].order == u.order
    requires t.writers[i].phase.Done?
    ensures WriterOk(w, t, i) && ReaderOk(w, t, i)
  {
  }

  lemma FinishKeeps(w: World, s: System, t: System, i: nat)
    requires Inv(w, s) && i < |s.writers| && Finish(s, t, i)
    ensures Inv(w, t)
  {
    FinisherIsOk(w, s, t, i);
    HeldShrinks(s, t, i);
    MildKeepsRest(w, s, t, i);
    forall k: nat | k < |t.writers| ensures WriterOk(w, t, k) {
      if k != i {
        FinishKeepsOthers(w, s, t, i, k);
      }
    }
    FinishKeepsViews(w, s, t, i);
  }

  // ---- Confirmation ----

  /** The files that discovery asks for were locked, so that they were read as they are. */
  lemma SeenAgrees(w: World, s: System, i: nat, d: Dependencies, p: Path)
    requires Inv(w, s) && i < |s.writers| && Locked(s.writers[i]) && PlanIs(s.writers[i], d) && p in d.paths
    ensures At(Seen(s.fs, s.writers[i]), p) == At(s.fs, p)
  {
    var u := s.writers[i];
    assert ReaderOk(w, s, i);
    if p in u.read && u.read[p] != At(s.fs, p) {
      assert ReadOk(w, s, i, p);
      var j :| Met(w, s, i, j) && Version(s.writers[j], p, At(s.fs, p));
      CompatibleSwaps(Planned(u), Planned(s.writers[j]));
      ExclusivePath(w, s.writers[j], u, d, p);
    }
  }

  lemma SeenIsSane(w: World, s: System, i: nat)
    requires Inv(w, s) && i < |s.writers| && Locked(s.writers[i])
    ensures WellFormed(w, Seen(s.fs, s.writers[i])) && AllApart(w, Seen(s.fs, s.writers[i]))
    ensures forall q :: q in s.writers[i].changes ==> Formed(w, q, At(Seen(s.fs, s.writers[i]), q))
  {
    var m := Seen(s.fs, s.writers[i]);
    assert ReaderOk(w, s, i);
    forall q | q in m
      ensures WellPlaced(w, q, m[q]) && Apart(w, q, m[q])
      ensures q in s.writers[i].changes ==> Formed(w, q, Some(m[q]))
    {
      if q in s.writers[i].read {
        assert ReadOk(w, s, i, q);
      } else {
        assert At(s.fs, q) == Some(m[q]);
      }
    }
  }

  /** Accepted dependencies are adequate for the store as it was seen. */
  lemma ConfirmIsAdequate(w: World, m: Entries, u: Writer)
    requires Coherent(w) && WellFormed(w, m) && AllApart(w, m) && Proposal(w, u)
    requires forall q :: q in u.changes ==> Formed(w, q, At(m, q))
    requires Discovered(w, m, u.changes, u.d) && NoFlagLost(ContextOf(w, m, u.changes))
    requires LocallyClean(BatchOf(w, m, u))
    ensures Anchored(BatchOf(w, m, u)) && IdentitiesLocked(BatchOf(w, m, u))
    ensures forall q :: q in u.changes && u.changes[q].Some? ==> Apart(w, q, u.changes[q].value)
  {
    var b := BatchOf(w, m, u);
    BatchSound(w, m, u);
    ValidatedIsExpanded(b);
    CleanIsSeparate(b);
    DiscoveredIsAnchored(b);
    DiscoveredLocksIdentities(b);
    forall q | q in u.changes && u.changes[q].Some? ensures Apart(w, q, u.changes[q].value) {
      CleanProposalIsApart(b, q);
    }
  }

  lemma VersionFrom(b: Batch, u: Writer, after: bool, q: Path, r: Record)
    requires u.changes == b.changes && u.d == b.d && At(Side(b, after), q) == Some(r)
    requires WellPlaced(b.w, q, r) && Apart(b.w, q, r) && Formed(b.w, q, Some(r))
    requires PlacesChecked(b, Side(b, after), q) && IdentityLocked(b, Side(b, after), q)
    ensures VersionCovered(b.w, u, q, r)
  {
  }

  /** Both versions of a changed path were checked. */
  ghost predicate Secured(w: World, m: Entries, u: Writer)
  {
    forall after, q :: q in u.changes ==>
      && PlacesChecked(BatchOf(w, m, u), Side(BatchOf(w, m, u), after), q)
      && IdentityLocked(BatchOf(w, m, u), Side(BatchOf(w, m, u), after), q)
  }

  lemma AnchoredIsSecured(w: World, m: Entries, u: Writer)
    requires Anchored(BatchOf(w, m, u)) && IdentitiesLocked(BatchOf(w, m, u))
    ensures Secured(w, m, u) && u.changes.Keys <= u.d.paths && u.d.writtenIdentities <= u.d.identities
  {
    var b := BatchOf(w, m, u);
    forall after, q | q in u.changes
      ensures PlacesChecked(b, Side(b, after), q) && IdentityLocked(b, Side(b, after), q)
    {
      assert q in b.d.validationPaths;
    }
  }

  /** The record is one that the writer may leave at the path. */
  ghost predicate Fit(w: World, q: Path, r: Option<Record>)
  {
    Formed(w, q, r) && (r.Some? ==> WellPlaced(w, q, r.value) && Apart(w, q, r.value))
  }

  lemma ConfirmedVersion(w: World, m: Entries, u: Writer, q: Path, r: Record)
    requires Secured(w, m, u) && q in u.changes && Fit(w, q, At(m, q)) && Fit(w, q, u.changes[q])
    requires Some(r) == At(m, q) || Some(r) == u.changes[q]
    ensures VersionCovered(w, u, q, r)
  {
    var b := BatchOf(w, m, u);
    var after := Some(r) == u.changes[q];
    assert At(Side(b, after), q) == Some(r);
    VersionFrom(b, u, after, q, r);
  }

  lemma ConfirmedIsCovered(w: World, m: Entries, u: Writer)
    requires Secured(w, m, u) && u.applying && Writable(w, u.changes) && PlanIs(u, u.d)
    requires u.changes.Keys <= u.d.paths && u.d.writtenIdentities <= u.d.identities
    requires forall q :: q in u.changes ==> Fit(w, q, At(m, q)) && Fit(w, q, u.changes[q])
    requires u.prior.Keys == u.changes.Keys && forall q :: q in u.changes ==> u.prior[q] == At(m, q)
    ensures Covered(w, u)
  {
    forall q, r: Record | Version(u, q, Some(r)) ensures VersionCovered(w, u, q, r) {
      ConfirmedVersion(w, m, u, q, r);
    }
  }

  lemma ActiveIsPair(w: World, t: System, i: nat, j: nat)
    requires Exclusion(t) && i < |t.writers| && j < |t.writers| && i != j && Engaged(t.writers[i])
    requires Covered(w, t.writers[i])
    requires Active(t.writers[j]) && WriterOk(w, t, j)
    ensures Pair(w, t, i, j)
  {
    EngagedPair(w, t, i, j);
  }

  ghost predicate OthersOk(w: World, t: System, i: nat)
  {
    forall j: nat :: j < |t.writers| && j != i && Active(t.writers[j]) ==> WriterOk(w, t, j)
  }

  /** From what was seen, other writers only move their own versions. */
  lemma PossibleIsDisturbed(w: World, t: System, i: nat, m: Entries, f: Entries)
    requires Exclusion(t) && i < |t.writers| && OthersOk(w, t, i)
    requires Engaged(t.writers[i]) && Covered(w, t.writers[i]) && Disturbed(w, t, i, m, t.fs)
    requires WellFormed(w, f) && Possible(t, i, f)
    ensures Disturbed(w, t, i, m, f)
  {
    var u := t.writers[i];
    forall q ensures At(f, q) == At(m, q) || exists j :: Pair(w, t, i, j) && Version(t.writers[j], q, At(f, q)) {
      if j :| j != i && Owns(t, j, q) {
        ActiveIsPair(w, t, i, j);
      } else {
        assert q in u.changes ==> At(t.fs, q) == u.prior[q];
        assert At(f, q) == At(t.fs, q);
      }
    }
  }

  lemma ConfirmedStaysAdequate(w: World, t: System, i: nat, m: Entries)
    requires Exclusion(t) && i < |t.writers| && OthersOk(w, t, i)
    requires Engaged(t.writers[i]) && Covered(w, t.writers[i]) && Disturbed(w, t, i, m, t.fs)
    requires Proposal(w, t.writers[i]) && Anchored(BatchOf(w, m, t.writers[i]))
    ensures StaysAdequate(w, t, i)
  {
    var u := t.writers[i];
    forall f | WellFormed(w, f) && Possible(t, i, f) ensures Anchored(Batch(w, f, u.changes, u.d)) {
      PossibleIsDisturbed(w, t, i, m, f);
      BatchSound(w, f, u);
      AdequacyUndisturbed(w, t, i, m, f);
    }
  }

  lemma BatchSound(w: World, f: Entries, u: Writer)
    requires Coherent(w) && WellFormed(w, f) && Proposal(w, u)
    ensures Sound(BatchOf(w, f, u))
  {
  }

  /** The store after a confirmation differs from what was seen in versions of writers met. */
  lemma SeenIsDisturbed(w: World, s: System, t: System, i: nat)
    requires Inv(w, s) && Calm(s, t, i) && t.fs == s.fs && Locked(s.writers[i]) && Covered(w, t.writers[i])
    requires t.writers[i].plan == s.writers[i].plan
    requires t.writers[i].prior == map p | p in t.writers[i].changes :: At(s.fs, p)
    ensures Disturbed(w, t, i, Seen(s.fs, s.writers[i]), t.fs)
  {
    var u := s.writers[i];
    SeenIsSane(w, s, i);
    assert ReaderOk(w, s, i);
    forall q | At(t.fs, q) != At(Seen(s.fs, u), q)
      ensures exists j :: Pair(w, t, i, j) && Version(t.writers[j], q, At(t.fs, q))
    {
      assert ReadOk(w, s, i, q);
      var j :| Met(w, s, i, j) && Version(s.writers[j], q, At(s.fs, q));
      assert Pair(w, t, i, j);
    }
  }

  lemma ConfirmIsCalm(s: System, t: System, i: nat, v: Writer)
    requires Exclusion(s) && i < |s.writers| && Locked(s.writers[i]) && t == With(s, i, v)
    requires v.phase.Confirmed? && v.plan == s.writers[i].plan && v.changes == s.writers[i].changes
    ensures Calm(s, t, i) && Exclusion(t)
  {
    assert s.writers[i].plan[..|s.writers[i].plan|] == s.writers[i].plan;
    assert Held(t.writers[i]) == Held(s.writers[i]);
    HeldShrinks(s, t, i);
  }

  lemma SeenCaptured(w: World, s: System, i: nat, d: Dependencies)
    requires Inv(w, s) && i < |s.writers| && Locked(s.writers[i]) && PlanIs(s.writers[i], d)
    ensures Restrict(Seen(s.fs, s.writers[i]), d.paths) == Restrict(s.fs, d.paths)
  {
    var m := Seen(s.fs, s.writers[i]);
    forall p ensures At(Restrict(m, d.paths), p) == At(Restrict(s.fs, d.paths), p) {
      if p in d.paths {
        SeenAgrees(w, s, i, d, p);
      }
    }
    SameContents(Restrict(m, d.paths), Restrict(s.fs, d.paths));
  }

  lemma ConfirmedJudges(w: World, fs: Entries, u: Writer, d: Dependencies)
    requires PlanIs(u, d)
    ensures var v := ConfirmedAs(w, fs, u, d); PlanIs(v, v.d) && (v.clean ==> Judged(w, v))
  {
    assert Restrict(Restrict(fs, d.paths), d.paths) == Restrict(fs, d.paths);
  }

  lemma AcceptedIsFit(w: World, s: System, i: nat, d: Dependencies, v: Writer, q: Path)
    requires Inv(w, s) && i < |s.writers| && Locked(s.writers[i]) && PlanIs(s.writers[i], d)
    requires v == ConfirmedAs(w, s.fs, s.writers[i], d) && q in v.changes && q in d.paths
    requires v.changes[q].Some? ==> Apart(w, q, v.changes[q].value)
    ensures v.prior[q] == At(Seen(s.fs, s.writers[i]), q)
    ensures Fit(w, q, v.prior[q]) && Fit(w, q, v.changes[q])
  {
    assert WriterOk(w, s, i);
    SeenIsSane(w, s, i);
    SeenAgrees(w, s, i, d, q);
  }

  /** An accepted confirmation covers what the writer wrote down and what it will write. */
  lemma AcceptedIsCovered(w: World, s: System, i: nat, d: Dependencies, v: Writer)
    requires Inv(w, s) && i < |s.writers| && Locked(s.writers[i]) && PlanIs(s.writers[i], d)
    requires v == ConfirmedAs(w, s.fs, s.writers[i], d) && v.applying && Writable(w, v.changes)
    requires var m := Seen(s.fs, s.writers[i]);
      && Anchored(BatchOf(w, m, v)) && IdentitiesLocked(BatchOf(w, m, v))
      && forall q :: q in v.changes && v.changes[q].Some? ==> Apart(w, q, v.changes[q].value)
    ensures Covered(w, v)
  {
    var m := Seen(s.fs, s.writers[i]);
    AnchoredIsSecured(w, m, v);
    forall q | q in v.changes
      ensures v.prior[q] == At(m, q) && Fit(w, q, At(m, q)) && Fit(w, q, v.changes[q])
    {
      AcceptedIsFit(w, s, i, d, v, q);
    }
    PlanKept(w, s.fs, s.writers[i], d);
    ConfirmedIsCovered(w, m, v);
  }

  lemma PlanKept(w: World, fs: Entries, u: Writer, d: Dependencies)
    requires PlanIs(u, d)
    ensures var v := ConfirmedAs(w, fs, u, d); PlanIs(v, v.d) && v.prior.Keys == v.changes.Keys
  {
  }

  lemma AcceptedIsAdequate(w: World, s: System, i: nat, d: Dependencies, v: Writer)
    requires Inv(w, s) && i < |s.writers| && Locked(s.writers[i]) && PlanIs(s.writers[i], d)
    requires v == ConfirmedAs(w, s.fs, s.writers[i], d) && v.clean
    requires var m := Seen(s.fs, s.writers[i]);
      Discovered(w, m, v.changes, d) && NoFlagLost(ContextOf(w, m, v.changes))
    ensures var m := Seen(s.fs, s.writers[i]);
      && Anchored(BatchOf(w, m, v)) && IdentitiesLocked(BatchOf(w, m, v))
      && forall q :: q in v.changes && v.changes[q].Some? ==> Apart(w, q, v.changes[q].value)
  {
    assert WriterOk(w, s, i);
    var m := Seen(s.fs, s.writers[i]);
    SeenIsSane(w, s, i);
    SeenCaptured(w, s, i, d);
    ConfirmedJudges(w, s.fs, s.writers[i], d);
    DiscoveredContains(w, m, v);
    CleanElsewhere(w, v.files, m, v);
    ConfirmIsAdequate(w, m, v);
  }

  lemma DiscoveredContains(w: World, m: Entries, u: Writer)
    requires Coherent(w) && WellFormed(w, m) && Proposal(w, u) && Discovered(w, m, u.changes, u.d)
    ensures u.changes.Keys <= u.d.paths
  {
    BatchSound(w, m, u);
    ValidatedIsExpanded(BatchOf(w, m, u));
  }

  lemma AcceptedIsOk(w: World, s: System, t: System, i: nat, d: Dependencies)
    requires Inv(w, s) && i < |s.writers| && Confirming(w, s, t, i, d) && Calm(s, t, i) && Exclusion(t)
    requires Engaged(t.writers[i]) && NoFlagLost(ContextOf(w, Seen(s.fs, s.writers[i]), s.writers[i].changes))
    ensures WriterOk(w, t, i)
  {
    assert WriterOk(w, s, i);
    var v := t.writers[i];
    AcceptedIsAdequate(w, s, i, d, v);
    AcceptedIsCovered(w, s, i, d, v);
    SeenIsDisturbed(w, s, t, i);
    ConfirmedJudges(w, s.fs, s.writers[i], d);
    forall j: nat | j < |t.writers| && j != i && Active(t.writers[j]) ensures WriterOk(w, t, j) {
      OthersStayOk(w, s, t, i, j);
    }
    ConfirmedStaysAdequate(w, t, i, Seen(s.fs, s.writers[i]));
  }

  lemma ConfirmerIsOk(w: World, s: System, t: System, i: nat, d: Dependencies)
    requires Inv(w, s) && i < |s.writers| && Confirming(w, s, t, i, d) && Calm(s, t, i) && Exclusion(t)
    requires Engaged(t.writers[i]) ==> NoFlagLost(ContextOf(w, Seen(s.fs, s.writers[i]), s.writers[i].changes))
    ensures WriterOk(w, t, i) && ReaderOk(w, t, i)
  {
    assert WriterOk(w, s, i);
    if Engaged(t.writers[i]) {
      AcceptedIsOk(w, s, t, i, d);
    } else {
      ConfirmedJudges(w, s.fs, s.writers[i], d);
    }
  }

  lemma ConfirmKeeps(w: World, s: System, t: System, i: nat)
    requires Inv(w, s) && i < |s.writers| && Confirm(w, s, t, i) && SpelledStep(w, s, t, i)
    ensures Inv(w, t)
  {
    var d :| Confirming(w, s, t, i, d);
    ConfirmIsCalm(s, t, i, t.writers[i]);
    ConfirmerIsOk(w, s, t, i, d);
    CalmKeepsInv(w, s, t, i);
  }

  // ---- The start of writing ----

  lemma StartOwners(s: System, t: System, i: nat)
    requires i < |s.writers| && Start(s, t, i)
    ensures forall j, q :: Owns(t, j, q) <==> Owns(s, j, q) || (j == i && q in s.writers[i].changes)
  {
  }

  lemma PriorStoreWellFormed(w: World, u: Writer, f: Entries)
    requires Covered(w, u) && WellFormed(w, f)
    ensures WellFormed(w, Apply(f, u.prior))
    ensures forall q :: At(Apply(f, u.prior), q) == if q in u.changes then u.prior[q] else At(f, q)
  {
    forall q | q in u.prior ensures u.prior[q].Some? ==> WellPlaced(w, q, u.prior[q].value) {
      PriorWellPlaced(w, u, q);
    }
  }

  /** With the starting writer's files put back, the store was possible before. */
  lemma StartPossible(w: World, s: System, t: System, i: nat, k: nat, f: Entries)
    requires Inv(w, s) && i < |s.writers| && Start(s, t, i) && k < |s.writers| && k != i && Possible(t, k, f)
    requires Engaged(s.writers[i]) && Engaged(s.writers[k]) && Private(s, i)
    requires Covered(w, s.writers[i]) && Placed(s.fs, s.writers[i])
    requires forall q ::
      At(Apply(f, s.writers[i].prior), q) == if q in s.writers[i].changes then s.writers[i].prior[q] else At(f, q)
    ensures Possible(s, k, Apply(f, s.writers[i].prior))
  {
    StartOwners(s, t, i);
    var u := s.writers[i];
    var g := Apply(f, u.prior);
    forall j, q | j != k && Owns(s, j, q) ensures Version(s.writers[j], q, At(g, q)) {
      assert Owns(t, j, q);
    }
    forall q | q !in s.writers[k].changes && forall j :: j != k ==> !Owns(s, j, q)
      ensures At(g, q) == At(s.fs, q)
    {
      if q !in u.changes {
        assert forall j :: j != k ==> !Owns(t, j, q);
      }
    }
  }

  /** A store possible after the start is a store possible before, with the new versions. */
  lemma StartIsDisturbed(w: World, s: System, t: System, i: nat, k: nat, f: Entries) returns (g: Entries)
    requires Inv(w, s) && i < |s.writers| && Start(s, t, i) && k < |s.writers| && k != i && Possible(t, k, f)
    requires WellFormed(w, f) && Engaged(s.writers[i]) && Engaged(s.writers[k]) && Private(s, i) && Pair(w, s, k, i)
    requires Placed(s.fs, s.writers[i])
    ensures Possible(s, k, g) && Disturbed(w, s, k, g, f)
  {
    var u := s.writers[i];
    g := Apply(f, u.prior);
    PriorStoreWellFormed(w, u, f);
    StartPossible(w, s, t, i, k, f);
    StartOwners(s, t, i);
    forall q ensures At(f, q) == At(g, q) || (Pair(w, s, k, i) && Version(u, q, At(f, q))) {
      if q in u.changes {
        assert Owns(t, i, q);
      }
    }
  }

  lemma StartKeepsAdequate(w: World, s: System, t: System, i: nat, k: nat)
    requires Inv(w, s) && i < |s.writers| && Start(s, t, i) && k < |s.writers| && k != i && Engaged(s.writers[k])
    ensures StaysAdequate(w, t, k)
  {
    assert WriterOk(w, s, i) && WriterOk(w, s, k);
    EngagedIsPrivate(w, s, i);
    var v := s.writers[k];
    EngagedPair(w, s, k, i);
    forall f | WellFormed(w, f) && Possible(t, k, f) ensures Anchored(Batch(w, f, v.changes, v.d)) {
      var g := StartIsDisturbed(w, s, t, i, k, f);
      BatchSound(w, f, v);
      AdequacyUndisturbed(w, s, k, g, f);
    }
  }

  lemma StartKeepsOwn(w: World, s: System, t: System, i: nat)
    requires Inv(w, s) && i < |s.writers| && Start(s, t, i)
    ensures WriterOk(w, t, i)
  {
    assert WriterOk(w, s, i);
    StartOwners(s, t, i);
    var u := s.writers[i];
    CoveredAnyPhase(w, u, Writing(0));
    forall f | WellFormed(w, f) && Possible(t, i, f) ensures Anchored(Batch(w, f, u.changes, u.d)) {
      assert Possible(s, i, f) by {
        forall j, q | j != i && Owns(s, j, q) ensures Version(s.writers[j], q, At(f, q)) {
          assert Owns(t, j, q);
        }
        forall q | q !in u.changes && forall j :: j != i ==> !Owns(s, j, q) ensures At(f, q) == At(s.fs, q) {
          assert forall j :: j != i ==> !Owns(t, j, q);
        }
      }
    }
  }

  lemma ViewWellFormed(w: World, s: System, kept: set<int>, f: Entries)
    requires Inv(w, s) && View(s, kept, f)
    ensures WellFormed(w, f)
  {
    forall q | q in f ensures WellPlaced(w, q, f[q]) {
      if j :| Owns(s, j, q) {
        var u := s.writers[j];
        assert WriterOk(w, s, j);
        assert Version(u, q, Some(f[q]));
        assert VersionCovered(w, u, q, f[q]);
      } else {
        assert At(f, q) == At(s.fs, q);
      }
    }
  }

  /** A view in which the starting writer has not committed was a view before. */
  lemma StartViewWithout(w: World, s: System, t: System, i: nat, kept: set<int>, f: Entries)
    requires Inv(w, s) && i < |s.writers| && Start(s, t, i) && View(t, kept, f) && i !in kept
    ensures View(s, kept, f)
  {
    assert WriterOk(w, s, i);
    StartOwners(s, t, i);
    forall j, q | Owns(s, j, q) && q in s.writers[j].prior
      ensures At(f, q) == if j in kept then s.writers[j].changes[q] else s.writers[j].prior[q]
    {
      assert Owns(t, j, q);
    }
    forall q | forall j :: !Owns(s, j, q) ensures At(f, q) == At(s.fs, q) {
      if q in s.writers[i].changes {
        assert Owns(t, i, q);
      } else {
        assert forall j :: !Owns(t, j, q);
      }
    }
  }

  /** A view in which it has committed is the batch applied to a view before. */
  lemma StartViewWith(w: World, s: System, t: System, i: nat, kept: set<int>, f: Entries) returns (g: Entries)
    requires Inv(w, s) && i < |s.writers| && Start(s, t, i) && View(t, kept, f) && i in kept
    ensures View(s, kept, g) && f == Apply(g, s.writers[i].changes)
  {
    StarterIsPlaced(w, s, t, i);
    var u := s.writers[i];
    g := Apply(f, u.prior);
    AppliedAt(f, u.prior);
    StartViewApplied(s, t, i, kept, f, g);
    StartViewBefore(s, t, i, kept, f, g);
  }

  lemma StarterIsPlaced(w: World, s: System, t: System, i: nat)
    requires Inv(w, s) && i < |s.writers| && Start(s, t, i)
    ensures Private(s, i) && Placed(s.fs, s.writers[i]) && s.writers[i].prior.Keys == s.writers[i].changes.Keys
  {
    assert WriterOk(w, s, i);
    EngagedIsPrivate(w, s, i);
  }

  lemma AppliedAt(f: Entries, changes: Overlay)
    ensures forall q :: At(Apply(f, changes), q) == if q in changes then changes[q] else At(f, q)
  {
  }

  lemma StartViewApplied(s: System, t: System, i: nat, kept: set<int>, f: Entries, g: Entries)
    requires i < |s.writers| && Start(s, t, i) && View(t, kept, f) && i in kept
    requires s.writers[i].prior.Keys == s.writers[i].changes.Keys
    requires forall q :: At(g, q) == if q in s.writers[i].changes then s.writers[i].prior[q] else At(f, q)
    ensures f == Apply(g, s.writers[i].changes)
  {
    var u := s.writers[i];
    StartOwners(s, t, i);
    forall q ensures At(Apply(g, u.changes), q) == At(f, q) {
      if q in u.changes {
        assert Owns(t, i, q);
      }
    }
    SameContents(Apply(g, u.changes), f);
  }

  lemma StartViewBefore(s: System, t: System, i: nat, kept: set<int>, f: Entries, g: Entries)
    requires i < |s.writers| && Start(s, t, i) && View(t, kept, f) && Private(s, i) && Placed(s.fs, s.writers[i])
    requires s.writers[i].prior.Keys == s.writers[i].changes.Keys
    requires forall q :: At(g, q) == if q in s.writers[i].changes then s.writers[i].prior[q] else At(f, q)
    ensures View(s, kept, g)
  {
    var u := s.writers[i];
    StartOwners(s, t, i);
    forall j, q | Owns(s, j, q) && q in s.writers[j].prior
      ensures At(g, q) == if j in kept then s.writers[j].changes[q] else s.writers[j].prior[q]
    {
      assert Owns(t, j, q) && q !in u.changes;
    }
    forall q | forall j :: !Owns(s, j, q) ensures At(g, q) == At(s.fs, q) {
      if q !in u.changes {
        assert forall j :: !Owns(t, j, q);
      }
    }
  }

  lemma ViewIsPossible(w: World, s: System, i: nat, kept: set<int>, g: Entries)
    requires Inv(w, s) && i < |s.writers| && Engaged(s.writers[i]) && !Active(s.writers[i]) && View(s, kept, g)
    ensures Possible(s, i, g)
  {
    assert WriterOk(w, s, i);
    EngagedIsPrivate(w, s, i);
    forall q | q in s.writers[i].changes ensures At(g, q) == s.writers[i].prior[q] {
      assert forall j :: !Owns(s, j, q);
    }
    forall j, q | j != i && Owns(s, j, q) ensures Version(s.writers[j], q, At(g, q)) {
      assert WriterOk(w, s, j);
    }
    forall q | q !in s.writers[i].changes && forall j :: j != i ==> !Owns(s, j, q) ensures At(g, q) == At(s.fs, q) {
      assert !Owns(s, i, q);
    }
  }

  /** The captured files are the same in every view. */
  lemma ViewKeepsDependencies(w: World, s: System, i: nat, kept: set<int>, g: Entries)
    requires Inv(w, s) && i < |s.writers| && Engaged(s.writers[i]) && !Active(s.writers[i]) && View(s, kept, g)
    ensures Restrict(g, s.writers[i].d.paths) == Restrict(s.fs, s.writers[i].d.paths)
  {
    assert WriterOk(w, s, i);
    var u := s.writers[i];
    forall p | p in u.d.paths ensures At(g, p) == At(s.fs, p) {
      forall j ensures !Owns(s, j, p) {
        if Owns(s, j, p) {
          assert WriterOk(w, s, j);
          EngagedIsPrivate(w, s, j);
        }
      }
    }
    forall p ensures At(Restrict(g, u.d.paths), p) == At(Restrict(s.fs, u.d.paths), p) {
      assert p in u.d.paths ==> At(g, p) == At(s.fs, p);
    }
    SameContents(Restrict(g, u.d.paths), Restrict(s.fs, u.d.paths));
  }

  /** The projected check reads only the captured files. */
  lemma CleanElsewhere(w: World, f: Entries, g: Entries, u: Writer)
    requires u.changes.Keys <= u.d.paths && Restrict(f, u.d.paths) == Restrict(g, u.d.paths)
    requires LocallyClean(BatchOf(w, f, u))
    ensures LocallyClean(BatchOf(w, g, u))
  {
    forall after ensures LocalSide(BatchOf(w, f, u), after) == LocalSide(BatchOf(w, g, u), after) {
      forall p ensures At(LocalSide(BatchOf(w, f, u), after), p) == At(LocalSide(BatchOf(w, g, u), after), p) {
        assert At(Restrict(f, u.d.paths), p) == At(Restrict(g, u.d.paths), p);
      }
      SameContents(LocalSide(BatchOf(w, f, u), after), LocalSide(BatchOf(w, g, u), after));
    }
    forall d ensures LocalMultiplicity(BatchOf(w, g, u), true, d) <= LocalMultiplicity(BatchOf(w, g, u), false, d) {
      assert LocalMultiplicity(BatchOf(w, f, u), true, d) <= LocalMultiplicity(BatchOf(w, f, u), false, d);
    }
  }

  /** The batch that starts is safe on every view. */
  lemma StartedViewIsGood(w: World, s: System, t: System, i: nat, kept: set<int>, f: Entries)
    requires Inv(w, s) && i < |s.writers| && Start(s, t, i) && View(t, kept, f) && i in kept
    ensures Good(w, f)
  {
    assert WriterOk(w, s, i);
    var u := s.writers[i];
    var g := StartViewWith(w, s, t, i, kept, f);
    ViewWellFormed(w, s, kept, g);
    ViewIsPossible(w, s, i, kept, g);
    ViewKeepsDependencies(w, s, i, kept, g);
    CleanElsewhere(w, u.files, g, u);
    BatchSound(w, g, u);
    AnchoredIsAdequate(BatchOf(w, g, u));
    CleanBatchIsSafe(BatchOf(w, g, u));
  }

  lemma StartKeepsExclusion(s: System, t: System, i: nat)
    requires Exclusion(s) && i < |s.writers| && Start(s, t, i)
    ensures Exclusion(t)
  {
    assert Held(t.writers[i]) == Held(s.writers[i]);
    HeldShrinks(s, t, i);
  }

  lemma StartKeeps(w: World, s: System, t: System, i: nat)
    requires Inv(w, s) && i < |s.writers| && Start(s, t, i)
    ensures Inv(w, t)
  {
    StartKeepsExclusion(s, t, i);
    MildKeepsRest(w, s, t, i);
    forall k: nat | k < |t.writers| ensures WriterOk(w, t, k) {
      assert WriterOk(w, s, k);
      if k == i {
        StartKeepsOwn(w, s, t, i);
      } else if Engaged(s.writers[k]) {
        StartKeepsAdequate(w, s, t, i, k);
      }
    }
    forall kept, f | View(t, kept, f) ensures Good(w, f) {
      if i in kept {
        StartedViewIsGood(w, s, t, i, kept, f);
      } else {
        StartViewWithout(w, s, t, i, kept, f);
      }
    }
  }

  // ---- Runs ----

  lemma StepKeeps(w: World, s: System, t: System, i: nat)
    requires Inv(w, s) && i < |s.writers| && StepOf(w, s, t, i) && SpelledStep(w, s, t, i)
    ensures Inv(w, t)
  {
    if Begin(s, t, i) {
      BeginKeeps(w, s, t, i);
    } else if Take(s, t, i) {
      TakeKeeps(w, s, t, i);
    } else if Look(s, t, i) {
      LookKeeps(w, s, t, i);
    } else if Confirm(w, s, t, i) {
      ConfirmKeeps(w, s, t, i);
    } else if Start(s, t, i) {
      StartKeeps(w, s, t, i);
    } else if Write(s, t, i) {
      WriteKeeps(w, s, t, i);
    } else if Fail(s, t, i) {
      FailKeeps(w, s, t, i);
    } else if Undo(s, t, i) {
      UndoKeeps(w, s, t, i);
    } else if Finish(s, t, i) {
      FinishKeeps(w, s, t, i);
    } else {
      LeaveKeeps(w, s, t, i);
    }
  }

  /** Writer `i` steps; when `careful`, an accepted batch has lost no flag. */
  ghost predicate StepBy(w: World, s: System, t: System, i: int, careful: bool)
  {
    0 <= i < |s.writers| && StepOf(w, s, t, i) && (careful ==> SpelledStep(w, s, t, i))
  }

  ghost predicate Next(w: World, s: System, t: System, careful: bool)
  {
    exists i :: StepBy(w, s, t, i, careful)
  }

  ghost predicate NextAt(w: World, run: seq<System>, k: int, careful: bool)
  {
    0 < k < |run| && Next(w, run[k - 1], run[k], careful)
  }

  /** Each step is one writer's. */
  ghost predicate Interleaving(w: World, run: seq<System>, careful: bool)
  {
    run != [] && forall k :: 0 < k < |run| ==> NextAt(w, run, k, careful)
  }

  lemma Relaxed(w: World, run: seq<System>, careful: bool)
    requires Interleaving(w, run, careful)
    ensures Interleaving(w, run, false)
  {
    forall k | 0 < k < |run| ensures NextAt(w, run, k, false) {
      assert NextAt(w, run, k, careful);
      var i :| StepBy(w, run[k - 1], run[k], i, careful);
      assert StepBy(w, run[k - 1], run[k], i, false);
    }
  }

  ghost predicate Run(w: World, run: seq<System>)
  {
    Interleaving(w, run, true) && Init(w, run[0])
  }

  lemma NextKeeps(w: World, s: System, t: System)
    requires Inv(w, s) && Next(w, s, t, true)
    ensures Inv(w, t)
  {
    var i :| StepBy(w, s, t, i, true);
    StepKeeps(w, s, t, i);
  }

  lemma RunKeepsNext(w: World, run: seq<System>, k: nat)
    requires Interleaving(w, run, true) && 0 < k < |run| && Inv(w, run[k - 1])
    ensures Inv(w, run[k])
  {
    assert NextAt(w, run, k, true);
    NextKeeps(w, run[k - 1], run[k]);
  }

  lemma {:induction false} RunKeeps(w: World, run: seq<System>, k: nat)
    requires Run(w, run) && k < |run|
    ensures Inv(w, run[k])
  {
    if k == 0 {
      InitInv(w, run[0]);
    } else {
      RunKeeps(w, run, k - 1);
      RunKeepsNext(w, run, k);
    }
  }

  /** Safety: whatever the number of writers and however their steps interleave, a store
      in which no writer is half way has no supersession cycle, no identity that two
      headers of a scope state, and no broken reference inside a scope. */
  lemma QuietStoresStayGood(w: World, run: seq<System>, k: nat)
    requires Run(w, run) && k < |run| && Quiet(run[k])
    ensures Good(w, run[k].fs)
  {
    RunKeeps(w, run, k);
    QuietIsGood(w, run[k]);
  }
}
