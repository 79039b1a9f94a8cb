/** What a writer can rely on, whatever the store holds and whatever the others do: its
    captured files stay as they are, and its batch is made as a whole or not at all. On its
    own it gets through. */
module Commit {
  import opened Records
  import opened Discovery
  import opened Closure
  import opened Locality
  import opened Protocol

  // ---- What the locks keep ----

  ghost predicate Ordered(u: Writer)
  {
    && (forall p :: p in u.order <==> p in u.changes)
    && (forall i, j :: 0 <= i < j < |u.order| ==> u.order[i] != u.order[j])
  }

  /** The locks are those its dependencies ask for, and its files are as it left them. */
  ghost predicate Guarded(fs: Entries, u: Writer)
  {
    && PlanIs(u, u.d) && u.prior.Keys == u.changes.Keys <= u.d.paths && Placed(fs, u)
    && (u.phase.Confirmed? ==> Restrict(fs, u.d.paths) == u.files)
    && (Active(u) ==> u.applying)
  }

  ghost predicate Relying(u: Writer)
  {
    u.phase.Confirmed? || Active(u)
  }

  ghost predicate LockInv(s: System)
  {
    && Exclusion(s)
    && (forall i: nat :: i < |s.writers| ==> Ordered(s.writers[i]))
    && (forall i: nat :: i < |s.writers| && Relying(s.writers[i]) ==> Guarded(s.fs, s.writers[i]))
  }

  /** Nobody has begun. The store may hold anything. */
  ghost predicate Opening(s: System)
  {
    forall i: nat :: i < |s.writers| ==> s.writers[i].phase.Idle? && Ordered(s.writers[i])
  }

  lemma PathIsLocked(u: Writer, p: Path)
    requires PlanIs(u, u.d) && p in u.d.paths && Relying(u)
    ensures (PathKey(p), u.applying && p in u.changes) in Held(u)
  {
    assert (PathKey(p), u.applying && p in u.changes) in u.plan;
  }

  /** What all steps have in common: writer `i` keeps its plan once it holds it, and touches
      no file but its own. */
  ghost predicate Shape(s: System, t: System, i: nat)
  {
    && i < |s.writers| == |t.writers|
    && (forall j :: 0 <= j < |s.writers| && j != i ==> t.writers[j] == s.writers[j])
    && t.writers[i].changes == s.writers[i].changes && t.writers[i].order == s.writers[i].order
    && (t.fs == s.fs || (Active(s.writers[i]) && forall q :: q !in s.writers[i].changes ==> At(t.fs, q) == At(s.fs, q)))
  }

  lemma WithShape(s: System, t: System, i: nat, v: Writer)
    requires i < |s.writers| && t == With(s, i, v) && v.changes == s.writers[i].changes && v.order == s.writers[i].order
    ensures Shape(s, t, i) && t.writers[i] == v
  {
  }

  lemma ConfirmShape(w: World, s: System, t: System, i: nat) returns (d: Dependencies)
    requires i < |s.writers| && Confirm(w, s, t, i)
    ensures Confirming(w, s, t, i, d) && Shape(s, t, i) && t.writers[i] == ConfirmedAs(w, s.fs, s.writers[i], d)
  {
    d :| Confirming(w, s, t, i, d);
    WithShape(s, t, i, ConfirmedAs(w, s.fs, s.writers[i], d));
  }

  lemma StepShape(w: World, s: System, t: System, i: nat)
    requires i < |s.writers| && StepOf(w, s, t, i) && Ordered(s.writers[i])
    ensures Shape(s, t, i)
  {
    if Confirm(w, s, t, i) {
      var d := ConfirmShape(w, s, t, i);
    } else if Write(s, t, i) || Undo(s, t, i) {
    } else {
      OtherShape(s, t, i);
    }
  }

  lemma OtherShape(s: System, t: System, i: nat)
    requires i < |s.writers|
    requires Protocol.Begin(s, t, i) || Take(s, t, i) || Look(s, t, i) || Start(s, t, i) || Fail(s, t, i)
      || Finish(s, t, i) || Leave(s, t, i)
    ensures Shape(s, t, i)
  {
  }

  /** A step of another writer does not touch what a writer relies on. */
  lemma OthersLeaveFiles(s: System, t: System, i: nat, j: nat, p: Path)
    requires LockInv(s) && i < |s.writers| && j < |s.writers| && i != j && Shape(s, t, j)
    requires Relying(s.writers[i]) && p in s.writers[i].d.paths
    ensures At(t.fs, p) == At(s.fs, p)
  {
    if Active(s.writers[j]) && p in s.writers[j].changes {
      PathIsLocked(s.writers[i], p);
      PathIsLocked(s.writers[j], p);
      HeldCompatible(s, i, j);
    }
  }

  lemma FilesKept(s: System, t: System, i: nat, j: nat)
    requires LockInv(s) && i < |s.writers| && j < |s.writers| && i != j && Shape(s, t, j) && Relying(s.writers[i])
    ensures Restrict(t.fs, s.writers[i].d.paths) == Restrict(s.fs, s.writers[i].d.paths)
  {
    var paths := s.writers[i].d.paths;
    forall p ensures At(Restrict(t.fs, paths), p) == At(Restrict(s.fs, paths), p) {
      if p in paths {
        OthersLeaveFiles(s, t, i, j, p);
      }
    }
    SameContents(Restrict(t.fs, paths), Restrict(s.fs, paths));
  }

  lemma OthersStayGuarded(s: System, t: System, i: nat, j: nat)
    requires LockInv(s) && i < |s.writers| && j < |s.writers| && i != j && Shape(s, t, j)
    requires Relying(s.writers[i])
    ensures Guarded(t.fs, s.writers[i])
  {
    FilesKept(s, t, i, j);
    forall p | p in s.writers[i].changes ensures At(t.fs, p) == At(s.fs, p) {
      OthersLeaveFiles(s, t, i, j, p);
    }
  }

  lemma ConfirmedIsGuarded(w: World, s: System, t: System, i: nat, d: Dependencies)
    requires i < |s.writers| && Confirming(w, s, t, i, d)
    ensures Guarded(t.fs, t.writers[i])
  {
    var u := s.writers[i];
    assert u.changes.Keys <= d.validationPaths <= d.paths by {
      assert d.validationPaths <= ContextOf(w, Seen(s.fs, u), u.changes).seeds;
    }
    PlanKept(w, s.fs, u, d);
  }

  /** An active writer goes on, or the check has let a confirmed one start. */
  ghost predicate Proceeds(s: System, t: System, i: nat)
    requires i < |s.writers|
  {
    Start(s, t, i) || Write(s, t, i) || Fail(s, t, i) || Undo(s, t, i)
  }

  lemma PhaseGuarded(fs: Entries, next: Entries, u: Writer, v: Writer)
    requires Guarded(fs, u) && Active(v) && v == u.(phase := v.phase) && v.applying && Placed(next, v)
    ensures Guarded(next, v)
  {
  }

  lemma ProceedsGuarded(s: System, t: System, i: nat)
    requires i < |s.writers| && Proceeds(s, t, i) && Guarded(s.fs, s.writers[i]) && Ordered(s.writers[i])
    ensures i < |t.writers| && Guarded(t.fs, t.writers[i]) && Held(t.writers[i]) == Held(s.writers[i])
  {
    if Write(s, t, i) {
      WriteStays(s, t, i);
    } else if Undo(s, t, i) {
      UndoStays(s, t, i);
    } else {
      StillPlaced(s, t, i);
    }
    PhaseGuarded(s.fs, t.fs, s.writers[i], t.writers[i]);
  }

  lemma StillPlaced(s: System, t: System, i: nat)
    requires i < |s.writers| && (Start(s, t, i) || Fail(s, t, i)) && Placed(s.fs, s.writers[i])
    ensures i < |t.writers| && Placed(t.fs, t.writers[i]) && Active(t.writers[i])
    ensures t.writers[i] == s.writers[i].(phase := t.writers[i].phase)
  {
  }

  /** A step that ends or begins elsewhere leaves nobody relying on new files. */
  lemma OtherStepHeld(s: System, t: System, i: nat)
    requires i < |s.writers| && (Protocol.Begin(s, t, i) || Look(s, t, i) || Finish(s, t, i) || Leave(s, t, i))
    ensures i < |t.writers| && !Relying(t.writers[i]) && Held(t.writers[i]) <= Held(s.writers[i])
  {
  }

  lemma StepperIsGuarded(w: World, s: System, t: System, i: nat)
    requires LockInv(s) && i < |s.writers| && StepOf(w, s, t, i) && Shape(s, t, i)
    ensures Exclusion(t) && (Relying(t.writers[i]) ==> Guarded(t.fs, t.writers[i]))
  {
    if Confirm(w, s, t, i) {
      var d := ConfirmShape(w, s, t, i);
      ConfirmedIsGuarded(w, s, t, i, d);
      ConfirmIsCalm(s, t, i, t.writers[i]);
    } else if Take(s, t, i) {
      TakeKeepsExclusion(s, t, i);
    } else if Proceeds(s, t, i) {
      ProceedsGuarded(s, t, i);
      HeldShrinks(s, t, i);
    } else {
      OtherStepHeld(s, t, i);
      HeldShrinks(s, t, i);
    }
  }

  lemma StepKeepsLocks(w: World, s: System, t: System, j: nat)
    requires LockInv(s) && j < |s.writers| && StepOf(w, s, t, j)
    ensures LockInv(t)
  {
    StepShape(w, s, t, j);
    StepperIsGuarded(w, s, t, j);
    forall i: nat | i < |t.writers| && Relying(t.writers[i]) ensures Guarded(t.fs, t.writers[i]) {
      if i != j {
        OthersStayGuarded(s, t, i, j);
      }
    }
  }

  lemma {:induction false} RunKeepsLocks(w: World, run: seq<System>, careful: bool, k: nat)
    requires Interleaving(w, run, careful) && Opening(run[0]) && k < |run|
    ensures LockInv(run[k])
  {
    if k > 0 {
      RunKeepsLocks(w, run, careful, k - 1);
      assert NextAt(w, run, k, careful);
      var j :| StepBy(w, run[k - 1], run[k], j, careful);
      StepKeepsLocks(w, run[k - 1], run[k], j);
    }
  }

  /** Among cooperating writers the captured files never go stale: the comparison before the
      first write can fail only because of other programs. */
  lemma CapturedFilesStay(w: World, run: seq<System>, careful: bool, k: nat, i: nat)
    requires Interleaving(w, run, careful) && Opening(run[0]) && k < |run|
    requires i < |run[k].writers| && run[k].writers[i].phase.Confirmed?
    ensures Restrict(run[k].fs, run[k].writers[i].d.paths) == run[k].writers[i].files
  {
    RunKeepsLocks(w, run, careful, k);
  }

  // ---- All or nothing ----

  /** Whatever the others do meanwhile, a writer that finishes leaves all its changes in
      place, or what it found at each of its paths. */
  lemma AllOrNothing(w: World, run: seq<System>, careful: bool, k: nat, i: nat, q: Path)
    requires Interleaving(w, run, careful) && Opening(run[0]) && 0 < k < |run|
    requires i < |run[k - 1].writers| && Finish(run[k - 1], run[k], i) && q in run[k - 1].writers[i].changes
    ensures var u := run[k - 1].writers[i];
      q in u.prior && At(run[k].fs, q) == if u.phase.Writing? then u.changes[q] else u.prior[q]
  {
    RunKeepsLocks(w, run, careful, k - 1);
    FinishedIsWhole(run[k - 1].fs, run[k - 1].writers[i], q);
  }

  lemma FinishedIsWhole(fs: Entries, u: Writer, q: Path)
    requires (u.phase == Writing(|u.order|) || u.phase == RollingBack(0)) && Placed(fs, u)
    requires u.prior.Keys == u.changes.Keys && (forall p :: p in u.order <==> p in u.changes) && q in u.changes
    ensures At(fs, q) == if u.phase.Writing? then u.changes[q] else u.prior[q]
  {
    assert u.order[..|u.order|] == u.order;
  }

  // ---- A lone writer gets through ----

  /** Some sequence of steps leads from `s` to `t`. */
  ghost predicate Leads(w: World, s: System, t: System, careful: bool)
  {
    exists steps :: Interleaving(w, steps, careful) && steps[0] == s && steps[|steps| - 1] == t
  }

  lemma LeadsOn(w: World, s: System, t: System, u: System, i: int, careful: bool)
    requires Leads(w, s, t, careful) && StepBy(w, t, u, i, careful)
    ensures Leads(w, s, u, careful)
  {
    var steps :| Interleaving(w, steps, careful) && steps[0] == s && steps[|steps| - 1] == t;
    var more := steps + [u];
    assert Next(w, t, u, careful);
    forall k | 0 < k < |more| ensures NextAt(w, more, k, careful) {
      if k < |steps| {
        assert NextAt(w, steps, k, careful);
        assert more[k - 1] == steps[k - 1] && more[k] == steps[k];
      }
    }
    assert Interleaving(w, more, careful) && more[0] == s && more[|more| - 1] == u;
  }

  /** One run after another. */
  ghost function Joined(first: seq<System>, second: seq<System>): seq<System>
    requires first != [] && second != []
  {
    first + second[1..]
  }

  lemma JoinedIsRun(w: World, first: seq<System>, second: seq<System>, careful: bool)
    requires Interleaving(w, first, careful) && Interleaving(w, second, careful) && first[|first| - 1] == second[0]
    ensures var run := Joined(first, second);
      Interleaving(w, run, careful) && run[0] == first[0] && run[|run| - 1] == second[|second| - 1]
  {
    var run, n := Joined(first, second), |first| - 1;
    forall k | 0 < k < |run| ensures NextAt(w, run, k, careful) {
      if k <= n {
        assert NextAt(w, first, k, careful);
      } else {
        assert NextAt(w, second, k - n, careful);
        assert run[k] == second[k - n] && run[k - 1] == second[k - n - 1];
      }
    }
  }

  lemma LeadsFarther(w: World, s: System, t: System, u: System, careful: bool)
    requires Leads(w, s, t, careful) && Leads(w, t, u, careful)
    ensures Leads(w, s, u, careful)
  {
    var first :| Interleaving(w, first, careful) && first[0] == s && first[|first| - 1] == t;
    var second :| Interleaving(w, second, careful) && second[0] == t && second[|second| - 1] == u;
    JoinedIsRun(w, first, second, careful);
  }

  lemma {:induction false} PlanFor(locks: map<LockKey, bool>) returns (plan: seq<(LockKey, bool)>)
    ensures forall key, exclusive :: (key, exclusive) in plan <==> key in locks && locks[key] == exclusive
    decreases |locks|
  {
    if |locks| == 0 {
      plan := [];
    } else {
      var key :| key in locks;
      var rest := PlanFor(locks - {key});
      plan := rest + [(key, locks[key])];
    }
  }

  ghost function Lone(fs: Entries, u: Writer): System
  {
    System(fs, [u])
  }

  lemma {:induction false} TakesAll(w: World, s: System, fs: Entries, u: Writer, k: nat, careful: bool)
    requires k <= |u.plan| && Leads(w, s, Lone(fs, u.(phase := Locking(0))), careful)
    ensures Leads(w, s, Lone(fs, u.(phase := Locking(k))), careful)
  {
    if k > 0 {
      TakesAll(w, s, fs, u, k - 1, careful);
      var from, to := Lone(fs, u.(phase := Locking(k - 1))), Lone(fs, u.(phase := Locking(k)));
      assert Take(from, to, 0);
      LeadsOn(w, s, from, to, 0, careful);
    }
  }

  /** The store after the first `k` changes. */
  ghost function Filled(fs: Entries, u: Writer, k: nat): Entries
    requires k <= |u.order| && forall p :: p in u.order ==> p in u.changes
  {
    if k == 0 then fs else Put(Filled(fs, u, k - 1), u.order[k - 1], u.changes[u.order[k - 1]])
  }

  lemma {:induction false} FilledAt(fs: Entries, u: Writer, k: nat, q: Path)
    requires k <= |u.order| && forall p :: p in u.order ==> p in u.changes
    ensures At(Filled(fs, u, k), q) == if q in u.order[..k] then u.changes[q] else At(fs, q)
  {
    if k > 0 {
      FilledAt(fs, u, k - 1, q);
      assert u.order[..k] == u.order[..k - 1] + [u.order[k - 1]];
    }
  }

  lemma FilledIsApplied(fs: Entries, u: Writer)
    requires Ordered(u)
    ensures Filled(fs, u, |u.order|) == Apply(fs, u.changes)
  {
    assert u.order[..|u.order|] == u.order;
    forall q ensures At(Filled(fs, u, |u.order|), q) == At(Apply(fs, u.changes), q) {
      FilledAt(fs, u, |u.order|, q);
    }
    SameContents(Filled(fs, u, |u.order|), Apply(fs, u.changes));
  }

  lemma {:induction false} WritesAll(w: World, s: System, fs: Entries, u: Writer, k: nat, careful: bool)
    requires k <= |u.order| && (forall p :: p in u.order ==> p in u.changes)
    requires Leads(w, s, Lone(fs, u.(phase := Writing(0))), careful)
    ensures Leads(w, s, Lone(Filled(fs, u, k), u.(phase := Writing(k))), careful)
  {
    if k > 0 {
      WritesAll(w, s, fs, u, k - 1, careful);
      var from, to :=
        Lone(Filled(fs, u, k - 1), u.(phase := Writing(k - 1))), Lone(Filled(fs, u, k), u.(phase := Writing(k)));
      assert Write(from, to, 0);
      LeadsOn(w, s, from, to, 0, careful);
    }
  }

  /** The writer with all its locks, about to confirm. */
  ghost function Holding(u: Writer, plan: seq<(LockKey, bool)>): Writer
  {
    u.(phase := Locking(|plan|), plan := plan, read := map[])
  }

  /** Begin and take every lock. */
  lemma LoneLocks(w: World, fs: Entries, u: Writer, plan: seq<(LockKey, bool)>, careful: bool)
    requires u.phase.Idle?
    ensures Leads(w, Lone(fs, u), Lone(fs, Holding(u, plan)), careful)
  {
    var s := Lone(fs, u);
    var v := u.(phase := Locking(0), plan := plan, read := map[]);
    assert Interleaving(w, [s], careful) && [s][0] == s;
    assert Protocol.Begin(s, Lone(fs, v), 0) by {
      assert Lone(fs, v) == With(s, 0, u.(phase := Locking(0), plan := plan, read := map[]));
    }
    LeadsOn(w, s, s, Lone(fs, v), 0, careful);
    TakesAll(w, s, fs, v, |plan|, careful);
  }

  lemma LoneConfirms(w: World, fs: Entries, held: Writer, d: Dependencies, careful: bool)
    requires Locked(held) && held.read == map[] && PlanIs(held, d) && Discovered(w, fs, held.changes, d)
    requires careful ==> NoFlagLost(ContextOf(w, fs, held.changes))
    ensures StepBy(w, Lone(fs, held), Lone(fs, ConfirmedAs(w, fs, held, d)), 0, careful)
  {
    NothingRead(fs, held);
    assert Lone(fs, ConfirmedAs(w, fs, held, d)) == With(Lone(fs, held), 0, ConfirmedAs(w, fs, held, d));
    ConfirmStep(w, Lone(fs, held), Lone(fs, ConfirmedAs(w, fs, held, d)), d, careful);
  }

  lemma NothingRead(fs: Entries, u: Writer)
    requires u.read == map[]
    ensures Seen(fs, u) == fs
  {
  }

  lemma ConfirmStep(w: World, s: System, t: System, d: Dependencies, careful: bool)
    requires |s.writers| == 1 && t == System(s.fs, [ConfirmedAs(w, s.fs, s.writers[0], d)]) && Confirming(w, s, t, 0, d)
    requires careful ==> NoFlagLost(ContextOf(w, Seen(s.fs, s.writers[0]), s.writers[0].changes))
    ensures StepBy(w, s, t, 0, careful)
  {
    assert Confirm(w, s, t, 0);
  }

  lemma LoneStarts(w: World, fs: Entries, held: Writer, d: Dependencies, careful: bool)
    requires held.applying && held.changes.Keys <= d.paths && LocallyClean(Batch(w, fs, held.changes, d))
    ensures var c := ConfirmedAs(w, fs, held, d); StepBy(w, Lone(fs, c), Lone(fs, c.(phase := Writing(0))), 0, careful)
  {
    var c := ConfirmedAs(w, fs, held, d);
    assert Restrict(Restrict(fs, d.paths), d.paths) == Restrict(fs, d.paths);
    CleanElsewhere(w, fs, Restrict(fs, d.paths), c);
    assert Start(Lone(fs, c), Lone(fs, c.(phase := Writing(0))), 0);
  }

  lemma LoneFinishes(w: World, s: System, fs: Entries, c: Writer, careful: bool)
    requires Leads(w, s, Lone(fs, c.(phase := Writing(|c.order|))), careful)
    ensures Leads(w, s, Lone(fs, c.(phase := Done)), careful)
  {
    var full, done := Lone(fs, c.(phase := Writing(|c.order|))), Lone(fs, c.(phase := Done));
    assert Finish(full, done, 0);
    LeadsOn(w, s, full, done, 0, careful);
  }

  /** The writer about to write its first file. */
  ghost function Beginning(w: World, fs: Entries, u: Writer, plan: seq<(LockKey, bool)>, d: Dependencies): Writer
  {
    ConfirmedAs(w, fs, Holding(u, plan), d).(phase := Writing(0))
  }

  /** A clean batch of a writer that meets nobody is carried out in full; when it has lost no
      flag, by steps as the safety theorem asks for. */
  lemma LoneWriterCommits(w: World, fs: Entries, u: Writer, d: Dependencies) returns (run: seq<System>)
    requires Ordered(u) && u.phase.Idle? && u.applying
    requires Discovered(w, fs, u.changes, d) && LocallyClean(Batch(w, fs, u.changes, d))
    ensures Interleaving(w, run, NoFlagLost(ContextOf(w, fs, u.changes))) && run[0] == System(fs, [u])
    ensures var last := run[|run| - 1];
      last.fs == Apply(fs, u.changes) && |last.writers| == 1 && last.writers[0].phase.Done?
  {
    var careful := NoFlagLost(ContextOf(w, fs, u.changes));
    var s := Lone(fs, u);
    var c := LoneOpens(w, fs, u, d, careful);
    LoneWrites(w, s, fs, c, careful);
    var done := Lone(Apply(fs, u.changes), c.(phase := Done));
    run :| Interleaving(w, run, careful) && run[0] == s && run[|run| - 1] == done;
  }

  lemma LoneBegins(w: World, fs: Entries, u: Writer, d: Dependencies, careful: bool)
    returns (plan: seq<(LockKey, bool)>)
    requires u.phase.Idle? && u.applying && Discovered(w, fs, u.changes, d) && LocallyClean(Batch(w, fs, u.changes, d))
    requires careful ==> NoFlagLost(ContextOf(w, fs, u.changes))
    ensures Leads(w, Lone(fs, u), Lone(fs, Beginning(w, fs, u, plan, d)), careful)
  {
    plan := PlanFor(Locks(d, u.changes, u.applying));
    var s, held := Lone(fs, u), Holding(u, plan);
    var c := ConfirmedAs(w, fs, held, d);
    LoneLocks(w, fs, u, plan, careful);
    LoneConfirms(w, fs, held, d, careful);
    LeadsOn(w, s, Lone(fs, held), Lone(fs, c), 0, careful);
    ChangesAreSelected(w, fs, u.changes, d);
    LoneStarts(w, fs, held, d, careful);
    LeadsOn(w, s, Lone(fs, c), Lone(fs, c.(phase := Writing(0))), 0, careful);
  }

  /** What the writer remembers of its paths is what the store held. */
  ghost predicate Recalls(fs: Entries, u: Writer)
  {
    u.prior.Keys == u.changes.Keys && forall p :: p in u.prior ==> u.prior[p] == At(fs, p)
  }

  lemma BeginningIs(w: World, fs: Entries, u: Writer, plan: seq<(LockKey, bool)>, d: Dependencies)
    ensures var c := Beginning(w, fs, u, plan, d);
      c.changes == u.changes && c.order == u.order && Recalls(fs, c) && c.phase == Writing(0)
  {
  }

  lemma LoneOpens(w: World, fs: Entries, u: Writer, d: Dependencies, careful: bool) returns (c: Writer)
    requires u.phase.Idle? && u.applying && Discovered(w, fs, u.changes, d) && LocallyClean(Batch(w, fs, u.changes, d))
    requires careful ==> NoFlagLost(ContextOf(w, fs, u.changes))
    ensures c.changes == u.changes && c.order == u.order && Recalls(fs, c) && c.phase == Writing(0)
    ensures Leads(w, Lone(fs, u), Lone(fs, c), careful)
  {
    var plan := LoneBegins(w, fs, u, d, careful);
    BeginningIs(w, fs, u, plan, d);
    c := Beginning(w, fs, u, plan, d);
  }

  // ---- and back ----

  lemma UndoesLast(fs: Entries, u: Writer, k: nat)
    requires Ordered(u) && Recalls(fs, u) && 0 < k <= |u.order|
    ensures Put(Filled(fs, u, k), u.order[k - 1], u.prior[u.order[k - 1]]) == Filled(fs, u, k - 1)
  {
    var p := u.order[k - 1];
    assert u.order[..k] == u.order[..k - 1] + [p];
    forall q ensures At(Put(Filled(fs, u, k), p, u.prior[p]), q) == At(Filled(fs, u, k - 1), q) {
      FilledAt(fs, u, k, q);
      FilledAt(fs, u, k - 1, q);
    }
    SameContents(Put(Filled(fs, u, k), p, u.prior[p]), Filled(fs, u, k - 1));
  }

  /** The writer with its first `k` changes in the store, on its way back. */
  ghost function Returning(fs: Entries, u: Writer, k: nat): System
    requires Ordered(u) && k <= |u.order|
  {
    Lone(Filled(fs, u, k), u.(phase := RollingBack(k)))
  }

  lemma UndoesOne(w: World, s: System, fs: Entries, u: Writer, k: nat, careful: bool)
    requires Ordered(u) && Recalls(fs, u) && 0 < k <= |u.order| && Leads(w, s, Returning(fs, u, k), careful)
    ensures Leads(w, s, Returning(fs, u, k - 1), careful)
  {
    UndoesLast(fs, u, k);
    assert u.order[k - 1] in u.prior;
    assert Undo(Returning(fs, u, k), Returning(fs, u, k - 1), 0);
    LeadsOn(w, s, Returning(fs, u, k), Returning(fs, u, k - 1), 0, careful);
  }

  lemma {:induction false} UndoesAll(w: World, s: System, fs: Entries, u: Writer, k: nat, careful: bool)
    requires Ordered(u) && Recalls(fs, u) && k <= |u.order| && Leads(w, s, Returning(fs, u, k), careful)
    ensures Leads(w, s, Returning(fs, u, 0), careful)
  {
    if k > 0 {
      UndoesOne(w, s, fs, u, k, careful);
      UndoesAll(w, s, fs, u, k - 1, careful);
    }
  }

  lemma LoneFails(w: World, s: System, fs: Entries, c: Writer, k: nat, careful: bool)
    requires Ordered(c) && k <= |c.order|
    requires Leads(w, s, Lone(Filled(fs, c, k), c.(phase := Writing(k))), careful)
    ensures Leads(w, s, Returning(fs, c, k), careful)
  {
    assert Fail(Lone(Filled(fs, c, k), c.(phase := Writing(k))), Returning(fs, c, k), 0);
    LeadsOn(w, s, Lone(Filled(fs, c, k), c.(phase := Writing(k))), Returning(fs, c, k), 0, careful);
  }

  lemma LoneReturns(w: World, s: System, fs: Entries, c: Writer, careful: bool)
    requires Ordered(c) && Leads(w, s, Returning(fs, c, 0), careful)
    ensures Leads(w, s, Lone(fs, c.(phase := Done)), careful)
  {
    assert Finish(Returning(fs, c, 0), Lone(fs, c.(phase := Done)), 0);
    LeadsOn(w, s, Returning(fs, c, 0), Lone(fs, c.(phase := Done)), 0, careful);
  }

  /** A writer that fails after any number of its files puts every one back: one run goes to
      the failure and from there to the store as it was. */
  lemma LoneWriterReturns(w: World, fs: Entries, u: Writer, d: Dependencies, k: nat)
    returns (first: seq<System>, second: seq<System>)
    requires Ordered(u) && u.phase.Idle? && u.applying && k <= |u.order|
    requires Discovered(w, fs, u.changes, d) && LocallyClean(Batch(w, fs, u.changes, d))
    ensures first != [] && second != [] && first[|first| - 1] == second[0]
    ensures Interleaving(w, Joined(first, second), NoFlagLost(ContextOf(w, fs, u.changes)))
    ensures first[0] == System(fs, [u]) && second[0].fs == Filled(fs, u, k)
    ensures |second[0].writers| == 1 && second[0].writers[0].phase == Writing(k)
    ensures var last := second[|second| - 1]; last.fs == fs && |last.writers| == 1 && last.writers[0].phase.Done?
  {
    var careful := NoFlagLost(ContextOf(w, fs, u.changes));
    var held;
    first, held := RunsHalfway(w, fs, u, d, k, careful);
    second := RunsBack(w, fs, held, k, careful);
    SameFilled(fs, u, held, k);
    JoinedIsRun(w, first, second, careful);
  }

  lemma RunsHalfway(w: World, fs: Entries, u: Writer, d: Dependencies, k: nat, careful: bool)
    returns (run: seq<System>, c: Writer)
    requires Ordered(u) && u.phase.Idle? && u.applying && k <= |u.order|
    requires Discovered(w, fs, u.changes, d) && LocallyClean(Batch(w, fs, u.changes, d))
    requires careful ==> NoFlagLost(ContextOf(w, fs, u.changes))
    ensures c.changes == u.changes && c.order == u.order && Recalls(fs, c)
    ensures Interleaving(w, run, careful) && run[0] == Lone(fs, u)
    ensures run[|run| - 1] == Lone(Filled(fs, c, k), c.(phase := Writing(k)))
  {
    c := LoneOpens(w, fs, u, d, careful);
    WritesAll(w, Lone(fs, u), fs, c, k, careful);
    run :| Interleaving(w, run, careful) && run[0] == Lone(fs, u)
      && run[|run| - 1] == Lone(Filled(fs, c, k), c.(phase := Writing(k)));
  }

  lemma {:induction false} SameFilled(fs: Entries, u: Writer, c: Writer, k: nat)
    requires k <= |u.order| && (forall p :: p in u.order ==> p in u.changes)
    requires c.order == u.order && c.changes == u.changes
    ensures Filled(fs, c, k) == Filled(fs, u, k)
  {
    if k > 0 {
      SameFilled(fs, u, c, k - 1);
    }
  }

  lemma RunsBack(w: World, fs: Entries, c: Writer, k: nat, careful: bool) returns (run: seq<System>)
    requires Ordered(c) && Recalls(fs, c) && k <= |c.order|
    ensures Interleaving(w, run, careful) && run[0] == Lone(Filled(fs, c, k), c.(phase := Writing(k)))
    ensures run[|run| - 1] == Lone(fs, c.(phase := Done))
  {
    var s := Lone(Filled(fs, c, k), c.(phase := Writing(k)));
    assert Interleaving(w, [s], careful) && [s][0] == s;
    LoneFails(w, s, fs, c, k, careful);
    UndoesAll(w, s, fs, c, k, careful);
    LoneReturns(w, s, fs, c, careful);
    run :| Interleaving(w, run, careful) && run[0] == s && run[|run| - 1] == Lone(fs, c.(phase := Done));
  }

  /** A run of some writers takes the store `from` to the quiet store `to`. */
  ghost predicate CarriedOut(w: World, from: Entries, to: Entries, run: seq<System>)
  {
    && Interleaving(w, run, false) && Opening(run[0]) && run[0].fs == from
    && Quiet(run[|run| - 1]) && run[|run| - 1].fs == to
  }

  /** An accepted change of one file is carried out, whatever flags it has lost. */
  lemma AcceptedCommits(b: Batch, p: Path) returns (run: seq<System>)
    requires Discovered(b.w, b.e, b.changes, b.d) && LocallyClean(b) && b.changes.Keys == {p}
    ensures CarriedOut(b.w, b.e, After(b), run)
  {
    var u := Writer(b.changes, true, [p], Idle, [], map[], b.d, b.e, true, map[]);
    run := LoneWriterCommits(b.w, b.e, u, b.d);
    OutIsQuiet(b.w, b.e, u, run, NoFlagLost(ContextOf(b.w, b.e, b.changes)));
  }

  lemma OutIsQuiet(w: World, fs: Entries, u: Writer, run: seq<System>, careful: bool)
    requires Interleaving(w, run, careful) && run[0] == System(fs, [u]) && u.phase.Idle? && Ordered(u)
    requires |run[|run| - 1].writers| == 1 && run[|run| - 1].writers[0].phase.Done?
    ensures CarriedOut(w, fs, run[|run| - 1].fs, run)
  {
    Relaxed(w, run, careful);
  }

  lemma LoneWrites(w: World, s: System, fs: Entries, c: Writer, careful: bool)
    requires Ordered(c) && Leads(w, s, Lone(fs, c.(phase := Writing(0))), careful)
    ensures Leads(w, s, Lone(Apply(fs, c.changes), c.(phase := Done)), careful)
  {
    WritesAll(w, s, fs, c, |c.order|, careful);
    FilledIsApplied(fs, c);
    LoneFinishes(w, s, Apply(fs, c.changes), c, careful);
  }
}
