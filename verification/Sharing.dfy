/** Writers that only depend on the same records do not wait for each other: the locks of two
    plans exclude each other exactly when one is to write what the other depends on. */
module Sharing {
  import opened Records
  import opened Discovery
  import opened Protocol
  import opened Commit

  /** A writer that is going to apply its batch writes nothing that the other one asks for. */
  ghost predicate Spares(u: Writer, d: Dependencies, g: Dependencies)
  {
    u.applying ==> u.changes.Keys !! g.paths && d.writtenIdentities !! g.identities
  }

  /** Discovery asks for everything that is going to be written. */
  ghost predicate AsksForWritten(u: Writer, d: Dependencies)
  {
    PlanIs(u, d) && u.changes.Keys <= d.paths && d.writtenIdentities <= d.identities
  }

  lemma ExclusiveKeys(u: Writer, d: Dependencies, key: LockKey)
    requires AsksForWritten(u, d)
    ensures (key, true) in Planned(u) <==>
      u.applying && if key.PathKey? then key.path in u.changes else key.identity in d.writtenIdentities
    ensures (key, true) in Planned(u) || (key, false) in Planned(u) <==>
      if key.PathKey? then key.path in d.paths else key.identity in d.identities
  {
    OnlyWritesAreExclusive(d, u.changes, u.applying);
    forall exclusive: bool ensures (key, exclusive) in Planned(u) <==> (key, exclusive) in u.plan {
    }
  }

  /** Two plans can be held at once if and only if neither writer is to write a path or an
      identity that the other one asks for. */
  lemma HeldTogetherIff(u: Writer, d: Dependencies, v: Writer, g: Dependencies)
    requires AsksForWritten(u, d) && AsksForWritten(v, g)
    ensures Compatible(Planned(u), Planned(v)) <==> Spares(u, d, g) && Spares(v, g, d)
  {
    if Compatible(Planned(u), Planned(v)) {
      NothingWritten(u, d, v, g);
      CompatibleSwaps(Planned(u), Planned(v));
      NothingWritten(v, g, u, d);
    } else {
      var x, y :| x in Planned(u) && y in Planned(v) && x.0 == y.0 && (x.1 || y.1);
      assert x == (x.0, x.1) && y == (x.0, y.1);
      if x.1 {
        Opposed(u, d, v, g, x.0, y.1);
      } else {
        Opposed(v, g, u, d, x.0, x.1);
      }
    }
  }

  lemma Opposed(u: Writer, d: Dependencies, v: Writer, g: Dependencies, key: LockKey, exclusive: bool)
    requires AsksForWritten(u, d) && AsksForWritten(v, g)
    requires (key, true) in Planned(u) && (key, exclusive) in Planned(v)
    ensures !Spares(u, d, g)
  {
    ExclusiveKeys(u, d, key);
    ExclusiveKeys(v, g, key);
    if key.PathKey? {
      assert key.path in u.changes.Keys && key.path in g.paths;
    } else {
      assert key.identity in d.writtenIdentities && key.identity in g.identities;
    }
  }

  lemma NothingWritten(u: Writer, d: Dependencies, v: Writer, g: Dependencies)
    requires AsksForWritten(u, d) && AsksForWritten(v, g) && Compatible(Planned(u), Planned(v))
    ensures Spares(u, d, g)
  {
    if u.applying {
      forall p | p in u.changes ensures p !in g.paths {
        ExclusiveKeys(u, d, PathKey(p));
        ExclusiveKeys(v, g, PathKey(p));
      }
      forall i | i in d.writtenIdentities ensures i !in g.identities {
        ExclusiveKeys(u, d, IdentityKey(i));
        ExclusiveKeys(v, g, IdentityKey(i));
      }
    }
  }

  // ---- Any number of them ----

  ghost predicate Waiting(w: World, fs: Entries, us: seq<Writer>, ds: seq<Dependencies>)
  {
    && |us| == |ds|
    && (forall i :: 0 <= i < |us| ==> us[i].phase.Idle? && Discovered(w, fs, us[i].changes, ds[i]))
    && forall i, j :: 0 <= i < |us| && 0 <= j < |us| && i != j ==> Spares(us[i], ds[i], ds[j])
  }

  /** The writer with any plan that its dependencies ask for. */
  ghost predicate Asking(u: Writer, d: Dependencies, v: Writer)
  {
    v.changes == u.changes && v.applying == u.applying && PlanIs(v, d)
  }

  /** The first `n` writers are confirmed, and the store is as it was. */
  ghost predicate ConfirmedUpTo(w: World, fs: Entries, us: seq<Writer>, ds: seq<Dependencies>, n: nat, s: System)
    requires |us| == |ds|
  {
    && s.fs == fs && |s.writers| == |us|
    && (forall i :: 0 <= i < |us| && i < n ==>
        s.writers[i].phase.Confirmed? && s.writers[i].d == ds[i] && Asking(us[i], ds[i], s.writers[i]))
    && (forall i :: n <= i < |us| ==> s.writers[i] == us[i])
  }

  /** Nobody's locks are in the way of the plan. */
  ghost predicate Free(s: System, i: nat, plan: seq<(LockKey, bool)>)
  {
    forall j :: 0 <= j < |s.writers| && j != i ==> Compatible((set x | x in plan), Held(s.writers[j]))
  }

  /** Writer `i` with the first `k` locks of the plan, the others as they are. */
  ghost function Taking(t: System, i: nat, plan: seq<(LockKey, bool)>, k: nat): System
    requires i < |t.writers|
  {
    With(t, i, t.writers[i].(phase := Locking(k), plan := plan, read := map[]))
  }

  lemma NextIsGranted(t: System, i: nat, plan: seq<(LockKey, bool)>, k: nat)
    requires i < |t.writers| && k < |plan| && Free(t, i, plan)
    ensures Take(Taking(t, i, plan, k), Taking(t, i, plan, k + 1), i)
  {
    var from, to := Taking(t, i, plan, k), Taking(t, i, plan, k + 1);
    assert plan[k] in plan;
    forall j | 0 <= j < |from.writers| && j != i ensures Compatible({plan[k]}, Held(from.writers[j])) {
      assert from.writers[j] == t.writers[j];
    }
    assert to == With(from, i, from.writers[i].(phase := Locking(k + 1)));
  }

  lemma TakesAll(w: World, t: System, i: nat, plan: seq<(LockKey, bool)>)
    requires i < |t.writers| && Free(t, i, plan)
    ensures Leads(w, Taking(t, i, plan, 0), Taking(t, i, plan, |plan|), false)
  {
    var steps := seq(|plan| + 1, k requires 0 <= k <= |plan| => Taking(t, i, plan, k));
    forall k | 0 < k < |steps| ensures NextAt(w, steps, k, false) {
      NextIsGranted(t, i, plan, k - 1);
      assert StepBy(w, steps[k - 1], steps[k], i, false);
    }
    assert Interleaving(w, steps, false);
  }

  lemma Begins(w: World, s: System, t: System, i: nat, plan: seq<(LockKey, bool)>)
    requires i < |t.writers| && t.writers[i].phase.Idle? && Leads(w, s, t, false)
    ensures Leads(w, s, Taking(t, i, plan, 0), false)
  {
    assert Protocol.Begin(t, Taking(t, i, plan, 0), i);
    LeadsOn(w, s, t, Taking(t, i, plan, 0), i, false);
  }

  lemma Confirms(w: World, s: System, t: System, i: nat, plan: seq<(LockKey, bool)>, d: Dependencies)
    requires i < |t.writers| && Leads(w, s, Taking(t, i, plan, |plan|), false)
    requires Discovered(w, t.fs, t.writers[i].changes, d) && PlanIs(Holding(t.writers[i], plan), d)
    ensures Leads(w, s, With(t, i, ConfirmedAs(w, t.fs, Holding(t.writers[i], plan), d)), false)
  {
    var held := Holding(t.writers[i], plan);
    var from, to := Taking(t, i, plan, |plan|), With(t, i, ConfirmedAs(w, t.fs, held, d));
    NothingRead(t.fs, held);
    assert to == With(from, i, ConfirmedAs(w, t.fs, held, d));
    assert Confirming(w, from, to, i, d);
    assert Confirm(w, from, to, i);
    LeadsOn(w, s, from, to, i, false);
  }

  /** No locks that another writer holds are in the way of writer `i`. */
  ghost predicate Unhindered(t: System, i: nat, d: Dependencies)
    requires i < |t.writers|
  {
    forall v, j :: Asking(t.writers[i], d, v) && 0 <= j < |t.writers| && j != i ==>
      Compatible(Planned(v), Held(t.writers[j]))
  }

  lemma UnhinderedIsFree(t: System, i: nat, d: Dependencies, plan: seq<(LockKey, bool)>)
    requires i < |t.writers| && Unhindered(t, i, d) && PlanIs(Holding(t.writers[i], plan), d)
    ensures Free(t, i, plan)
  {
    var held := Holding(t.writers[i], plan);
    assert Asking(t.writers[i], d, held) && Planned(held) == set x | x in plan;
  }

  lemma PlanOf(u: Writer, d: Dependencies) returns (plan: seq<(LockKey, bool)>)
    ensures PlanIs(Holding(u, plan), d)
  {
    plan := PlanFor(Locks(d, u.changes, u.applying));
  }

  lemma LocksBeside(w: World, s: System, t: System, i: nat, d: Dependencies, plan: seq<(LockKey, bool)>)
    requires i < |t.writers| && t.writers[i].phase.Idle? && Leads(w, s, t, false)
    requires Unhindered(t, i, d) && PlanIs(Holding(t.writers[i], plan), d)
    ensures Leads(w, s, Taking(t, i, plan, |plan|), false)
  {
    UnhinderedIsFree(t, i, d, plan);
    Begins(w, s, t, i, plan);
    TakesAll(w, t, i, plan);
    LeadsFarther(w, s, Taking(t, i, plan, 0), Taking(t, i, plan, |plan|), false);
  }

  /** One writer takes its locks and confirms, whatever else is going on. */
  lemma ConfirmsBeside(w: World, s: System, t: System, i: nat, d: Dependencies) returns (c: Writer)
    requires i < |t.writers| && t.writers[i].phase.Idle? && Leads(w, s, t, false)
    requires Discovered(w, t.fs, t.writers[i].changes, d) && Unhindered(t, i, d)
    ensures c.phase.Confirmed? && c.d == d && Asking(t.writers[i], d, c)
    ensures Leads(w, s, With(t, i, c), false)
  {
    var plan := PlanOf(t.writers[i], d);
    LocksBeside(w, s, t, i, d, plan);
    Confirms(w, s, t, i, plan, d);
    c := ConfirmedAs(w, t.fs, Holding(t.writers[i], plan), d);
  }

  lemma {:induction false} ConfirmedTogetherUpTo(w: World, fs: Entries, us: seq<Writer>, ds: seq<Dependencies>, n: nat)
    returns (t: System)
    requires Waiting(w, fs, us, ds) && n <= |us|
    ensures ConfirmedUpTo(w, fs, us, ds, n, t) && Leads(w, System(fs, us), t, false)
  {
    if n == 0 {
      t := System(fs, us);
      assert Interleaving(w, [t], false) && [t][0] == t;
    } else {
      var i := n - 1;
      var s := ConfirmedTogetherUpTo(w, fs, us, ds, i);
      forall v, j | Asking(us[i], ds[i], v) && 0 <= j < |us| && j != i
        ensures Compatible(Planned(v), Held(s.writers[j]))
      {
        BesideAnother(w, fs, us, ds, i, j, s, v);
      }
      var c := ConfirmsBeside(w, System(fs, us), s, i, ds[i]);
      t := With(s, i, c);
    }
  }

  lemma BesideAnother(w: World, fs: Entries, us: seq<Writer>, ds: seq<Dependencies>, i: nat, j: nat, s: System,
                      u: Writer)
    requires Waiting(w, fs, us, ds) && i < |us| && j < |us| && j != i && ConfirmedUpTo(w, fs, us, ds, i, s)
    requires Asking(us[i], ds[i], u)
    ensures Compatible(Planned(u), Held(s.writers[j]))
  {
    if j < i {
      var v := s.writers[j];
      ChangesAreSelected(w, fs, us[i].changes, ds[i]);
      ChangesAreSelected(w, fs, us[j].changes, ds[j]);
      assert Spares(us[i], ds[i], ds[j]) && Spares(us[j], ds[j], ds[i]);
      HeldTogetherIff(u, ds[i], v, ds[j]);
    }
  }

  /** Writers of whom none is to write what another one depends on can all be confirmed at
      once, however many records they all refer to. */
  lemma ConfirmedTogether(w: World, fs: Entries, us: seq<Writer>, ds: seq<Dependencies>) returns (run: seq<System>)
    requires Waiting(w, fs, us, ds)
    ensures Interleaving(w, run, false) && run[0] == System(fs, us)
    ensures ConfirmedUpTo(w, fs, us, ds, |us|, run[|run| - 1])
  {
    var t := ConfirmedTogetherUpTo(w, fs, us, ds, |us|);
    run :| Interleaving(w, run, false) && run[0] == System(fs, us) && run[|run| - 1] == t;
  }
}
