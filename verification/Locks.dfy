/** Lock acquisition: canonical keys, one lock per key in ascending order, and what that
    order buys when any number of clients acquire at once. */
module Locks {
  import opened Wrappers
  import opened Ordering

  // ---- acquire ----

  datatype LockError = AliasedTargets

  type Plan = seq<(string, bool)>

  const PATH_PREFIX := "path:"

  /** Paths are locked under the name the file system gives them; identities as they are. */
  function CanonicalKey(canonical: string -> string, key: string): string
  {
    if PATH_PREFIX <= key then PATH_PREFIX + canonical(key[|PATH_PREFIX|..]) else key
  }

  /** Two different exclusive keys that name one file. */
  ghost predicate Aliased(canonical: string -> string, keys: map<string, bool>)
  {
    exists a, b :: a in keys && b in keys && a != b && keys[a] && keys[b]
      && CanonicalKey(canonical, a) == CanonicalKey(canonical, b)
  }

  /** The canonical keys of `seen`, each exclusive exactly when one of its keys is. */
  ghost predicate Merged(canonical: string -> string, keys: map<string, bool>, seen: set<string>,
                         merged: map<string, bool>)
  {
    && (forall c :: c in merged <==> exists k :: k in seen && k in keys && CanonicalKey(canonical, k) == c)
    && (forall c :: c in merged ==>
        (merged[c] <==> exists k :: k in seen && k in keys && keys[k] && CanonicalKey(canonical, k) == c))
  }

  /** No two exclusive keys of `seen` share a canonical name. */
  ghost predicate Unaliased(canonical: string -> string, keys: map<string, bool>, seen: set<string>)
  {
    forall a, b :: a in seen && b in seen && Both(canonical, keys, a, b) ==> a == b
  }

  ghost predicate Both(canonical: string -> string, keys: map<string, bool>, a: string, b: string)
  {
    a in keys && b in keys && keys[a] && keys[b] && CanonicalKey(canonical, a) == CanonicalKey(canonical, b)
  }

  /** Enters one key: refused when it is the second exclusive one under its canonical name. */
  method MergeOne(canonical: string -> string, keys: map<string, bool>, ghost seen: set<string>,
                  merged: map<string, bool>, key: string)
    returns (aliased: bool, merged': map<string, bool>)
    requires Merged(canonical, keys, seen, merged) && Unaliased(canonical, keys, seen) && key in keys && key !in seen
    ensures aliased <==> exists b :: b in seen && Both(canonical, keys, key, b)
    ensures !aliased ==> Merged(canonical, keys, seen + {key}, merged') && Unaliased(canonical, keys, seen + {key})
  {
    var c := CanonicalKey(canonical, key);
    aliased := keys[key] && c in merged && merged[c];
    merged' := merged[c := (c in merged && merged[c]) || keys[key]];
  }

  lemma AliasFound(canonical: string -> string, keys: map<string, bool>, seen: set<string>, key: string)
    requires exists b :: b in seen && Both(canonical, keys, key, b)
    requires key !in seen && key in keys
    ensures Aliased(canonical, keys)
  {
  }

  lemma NoAlias(canonical: string -> string, keys: map<string, bool>)
    requires Unaliased(canonical, keys, keys.Keys)
    ensures !Aliased(canonical, keys)
  {
    forall a, b | a in keys && b in keys && a != b && keys[a] && keys[b]
      ensures CanonicalKey(canonical, a) != CanonicalKey(canonical, b)
    {
      assert !Both(canonical, keys, a, b);
    }
  }

  /** What is known after the first `i` keys. */
  ghost predicate MergedUpTo(canonical: string -> string, keys: map<string, bool>, order: seq<string>, i: nat,
                             merged: map<string, bool>)
    requires i <= |order|
  {
    Merged(canonical, keys, Elements(order[..i]), merged) && Unaliased(canonical, keys, Elements(order[..i]))
  }

  method MergeNext(canonical: string -> string, keys: map<string, bool>, order: seq<string>, i: nat,
                   merged: map<string, bool>)
    returns (aliased: bool, merged': map<string, bool>)
    requires Sorted(order) && (forall k :: k in order <==> k in keys) && i < |order|
    requires MergedUpTo(canonical, keys, order, i, merged)
    ensures aliased ==> Aliased(canonical, keys)
    ensures !aliased ==> MergedUpTo(canonical, keys, order, i + 1, merged')
  {
    NextElement(order, i);
    aliased, merged' := MergeOne(canonical, keys, Elements(order[..i]), merged, order[i]);
    if aliased {
      AliasFound(canonical, keys, Elements(order[..i]), order[i]);
    }
  }

  method Merge(canonical: string -> string, keys: map<string, bool>) returns (r: Result<map<string, bool>, LockError>)
    ensures r.Err? <==> Aliased(canonical, keys)
    ensures r.Ok? ==> Merged(canonical, keys, keys.Keys, r.value)
  {
    var order := SortedElements(keys.Keys);
    var merged: map<string, bool> := map[];
    for i := 0 to |order|
      invariant MergedUpTo(canonical, keys, order, i, merged)
    {
      var aliased;
      aliased, merged := MergeNext(canonical, keys, order, i, merged);
      if aliased {
        return Err(AliasedTargets);
      }
    }
    assert order[..|order|] == order && Elements(order) == keys.Keys;
    NoAlias(canonical, keys);
    r := Ok(merged);
  }

  /** Keys in strictly ascending order. */
  ghost predicate Ascending(plan: Plan)
  {
    forall i, j :: 0 <= i < j < |plan| ==> Lt(plan[i].0, plan[j].0)
  }

  // ---- Paths and other keys ----

  /** The mode asked for a path, if it is asked for. */
  ghost function Asked(keys: map<string, bool>, path: string): Option<bool>
  {
    if "path:" + path in keys then Some(keys["path:" + path]) else None
  }

  /** Two paths that are written name one file. */
  ghost predicate OneFileTwice(canonical: string -> string, keys: map<string, bool>)
  {
    exists a, b :: Asked(keys, a) == Asked(keys, b) == Some(true) && a != b && canonical(a) == canonical(b)
  }

  /** Each path is locked once, under the name of its file, alone when some spelling of it asks
      for that; every other key is locked as it is. */
  ghost predicate LocksFiles(canonical: string -> string, keys: map<string, bool>, plan: Plan)
  {
    && (forall file, exclusive :: ("path:" + file, exclusive) in plan <==>
        && (exists a :: Asked(keys, a).Some? && canonical(a) == file)
        && (exclusive <==> exists a :: Asked(keys, a) == Some(true) && canonical(a) == file))
    && (forall k, exclusive :: !("path:" <= k) ==> ((k, exclusive) in plan <==> k in keys && keys[k] == exclusive))
  }

  lemma PathKeys(canonical: string -> string, keys: map<string, bool>, k: string, file: string)
    ensures CanonicalKey(canonical, k) == "path:" + file <==>
      "path:" <= k && k == "path:" + k[5..] && canonical(k[5..]) == file
    ensures !("path:" <= k) ==> CanonicalKey(canonical, k) == k
    ensures "path:" <= k && k in keys ==> Asked(keys, k[5..]) == Some(keys[k])
  {
    if "path:" <= k {
      assert k == "path:" + k[5..];
      var c := CanonicalKey(canonical, k);
      assert c == "path:" + canonical(k[5..]) && c[5..] == canonical(k[5..]);
      assert ("path:" + file)[5..] == file;
    } else {
      assert "path:" <= "path:" + file;
    }
  }

  lemma AliasIsOneFile(canonical: string -> string, keys: map<string, bool>)
    ensures Aliased(canonical, keys) <==> OneFileTwice(canonical, keys)
  {
    if Aliased(canonical, keys) {
      var a, b :| a in keys && b in keys && a != b && keys[a] && keys[b]
        && CanonicalKey(canonical, a) == CanonicalKey(canonical, b);
      AliasedArePaths(canonical, keys, a, b);
    }
    if OneFileTwice(canonical, keys) {
      var a, b :| Asked(keys, a) == Asked(keys, b) == Some(true) && a != b && canonical(a) == canonical(b);
      var x, y := "path:" + a, "path:" + b;
      assert x[5..] == a && y[5..] == b;
      PathKeys(canonical, keys, x, canonical(a));
      PathKeys(canonical, keys, y, canonical(b));
    }
  }

  lemma AliasedArePaths(canonical: string -> string, keys: map<string, bool>, a: string, b: string)
    requires a in keys && b in keys && a != b && keys[a] && keys[b]
    requires CanonicalKey(canonical, a) == CanonicalKey(canonical, b)
    ensures OneFileTwice(canonical, keys)
  {
    PathKeys(canonical, keys, a, if "path:" <= b then canonical(b[5..]) else "");
    PathKeys(canonical, keys, b, if "path:" <= a then canonical(a[5..]) else "");
    assert "path:" <= a && "path:" <= b;
    assert Asked(keys, a[5..]) == Asked(keys, b[5..]) == Some(true);
  }

  /** `plan` holds the canonical keys with their joined modes. */
  ghost predicate Planned(canonical: string -> string, keys: map<string, bool>, plan: Plan)
  {
    forall c, exclusive :: (c, exclusive) in plan <==>
      && (exists k :: k in keys && CanonicalKey(canonical, k) == c)
      && (exclusive <==> exists k :: k in keys && keys[k] && CanonicalKey(canonical, k) == c)
  }

  lemma PlannedLocksFiles(canonical: string -> string, keys: map<string, bool>, plan: Plan)
    requires Planned(canonical, keys, plan)
    ensures LocksFiles(canonical, keys, plan)
  {
    forall file, exclusive
      ensures ("path:" + file, exclusive) in plan <==>
        && (exists a :: Asked(keys, a).Some? && canonical(a) == file)
        && (exclusive <==> exists a :: Asked(keys, a) == Some(true) && canonical(a) == file)
    {
      FileIsAsked(canonical, keys, file);
    }
    forall k, exclusive | !("path:" <= k)
      ensures (k, exclusive) in plan <==> k in keys && keys[k] == exclusive
    {
      forall j ensures CanonicalKey(canonical, j) == k <==> j == k {
        PathKeys(canonical, keys, j, if "path:" <= j then canonical(j[5..]) else "");
        PathKeys(canonical, keys, k, "");
      }
    }
  }

  lemma FileIsAsked(canonical: string -> string, keys: map<string, bool>, file: string)
    ensures (exists k :: k in keys && CanonicalKey(canonical, k) == "path:" + file) <==>
      exists a :: Asked(keys, a).Some? && canonical(a) == file
    ensures (exists k :: k in keys && keys[k] && CanonicalKey(canonical, k) == "path:" + file) <==>
      exists a :: Asked(keys, a) == Some(true) && canonical(a) == file
  {
    forall k | k in keys && CanonicalKey(canonical, k) == "path:" + file
      ensures "path:" <= k && Asked(keys, k[5..]) == Some(keys[k]) && canonical(k[5..]) == file
    {
      PathKeys(canonical, keys, k, file);
    }
    forall a | Asked(keys, a).Some? && canonical(a) == file
      ensures CanonicalKey(canonical, "path:" + a) == "path:" + file
    {
      assert ("path:" + a)[5..] == a;
      PathKeys(canonical, keys, "path:" + a, file);
    }
  }

  /** The order in which the locks are taken. */
  method Acquire(canonical: string -> string, keys: map<string, bool>) returns (r: Result<Plan, LockError>)
    ensures r.Err? <==> OneFileTwice(canonical, keys)
    ensures r.Ok? ==> Ascending(r.value) && LocksFiles(canonical, keys, r.value)
  {
    AliasIsOneFile(canonical, keys);
    var merged := Merge(canonical, keys);
    if merged.Err? {
      return Err(merged.error);
    }
    var order := SortedElements(merged.value.Keys);
    var plan := [];
    for i := 0 to |order|
      invariant |plan| == i
      invariant forall k :: 0 <= k < i ==> plan[k] == (order[k], merged.value[order[k]])
    {
      assert order[i] in order;
      plan := plan + [(order[i], merged.value[order[i]])];
    }
    forall c, exclusive ensures (c, exclusive) in plan <==> c in merged.value && merged.value[c] == exclusive {
      if c in merged.value && merged.value[c] == exclusive {
        var k :| 0 <= k < |order| && order[k] == c;
        assert plan[k] == (c, exclusive);
      }
    }
    PlannedLocksFiles(canonical, keys, plan);
    r := Ok(plan);
  }

  // ---- Clients ----

  /** A client that acquires once holds the first `taken` locks of its plan, then none. */
  datatype Client = Client(plan: Plan, taken: nat, released: bool)

  type Clients = seq<Client>

  ghost function Holding(c: Client): set<(string, bool)>
  {
    if c.released || c.taken > |c.plan| then {} else set x | x in c.plan[..c.taken]
  }

  ghost predicate Conflict(a: (string, bool), b: (string, bool))
  {
    a.0 == b.0 && (a.1 || b.1)
  }

  ghost predicate Grantable(cs: Clients, i: nat, lock: (string, bool))
  {
    forall j, held :: 0 <= j < |cs| && j != i && held in Holding(cs[j]) ==> !Conflict(lock, held)
  }

  ghost predicate TakeStep(cs: Clients, next: Clients, i: int)
  {
    && 0 <= i < |cs| && !cs[i].released && cs[i].taken < |cs[i].plan|
    && Grantable(cs, i, cs[i].plan[cs[i].taken])
    && next == cs[i := cs[i].(taken := cs[i].taken + 1)]
  }

  ghost predicate ReleaseStep(cs: Clients, next: Clients, i: int)
  {
    && 0 <= i < |cs| && !cs[i].released && cs[i].taken == |cs[i].plan|
    && next == cs[i := cs[i].(released := true)]
  }

  ghost predicate ClientStep(cs: Clients, next: Clients)
  {
    exists i :: TakeStep(cs, next, i) || ReleaseStep(cs, next, i)
  }

  ghost predicate Exclusive(cs: Clients)
  {
    forall i, j, a, b ::
      0 <= i < |cs| && 0 <= j < |cs| && i != j && a in Holding(cs[i]) && b in Holding(cs[j]) ==> !Conflict(a, b)
  }

  ghost predicate Ordered(cs: Clients)
  {
    forall i :: 0 <= i < |cs| ==> Ascending(cs[i].plan) && cs[i].taken <= |cs[i].plan|
  }

  ghost predicate ClientRun(run: seq<Clients>)
  {
    && run != [] && Ordered(run[0]) && (forall i :: 0 <= i < |run[0]| ==> run[0][i].taken == 0)
    && forall k :: 0 < k < |run| ==> ClientStep(run[k - 1], run[k])
  }

  lemma StepKeepsOrder(cs: Clients, next: Clients)
    requires Ordered(cs) && Exclusive(cs) && ClientStep(cs, next)
    ensures Ordered(next) && Exclusive(next)
  {
    var i :| TakeStep(cs, next, i) || ReleaseStep(cs, next, i);
    if TakeStep(cs, next, i) {
      var c := cs[i];
      assert c.plan[..c.taken + 1] == c.plan[..c.taken] + [c.plan[c.taken]];
      assert Holding(next[i]) == Holding(c) + {c.plan[c.taken]};
      var lock := c.plan[c.taken];
      forall j, k, a, b | 0 <= j < |next| && 0 <= k < |next| && j != k && a in Holding(next[j]) && b in Holding(next[k])
        ensures !Conflict(a, b)
      {
        if j == i && a == lock {
          assert b in Holding(cs[k]);
        } else if k == i && b == lock {
          assert a in Holding(cs[j]);
          assert !Conflict(lock, a);
        } else {
          assert a in Holding(cs[j]) && b in Holding(cs[k]);
        }
      }
    }
  }

  lemma {:induction false} RunStaysExclusive(run: seq<Clients>, k: nat)
    requires ClientRun(run) && k < |run|
    ensures Ordered(run[k]) && Exclusive(run[k])
  {
    if k > 0 {
      RunStaysExclusive(run, k - 1);
      StepKeepsOrder(run[k - 1], run[k]);
    }
  }

  /** The client has taken the lock of the key in that mode, and has not released it. */
  ghost predicate Has(c: Client, key: string, exclusive: bool)
  {
    !c.released && exists m :: 0 <= m < c.taken && m < |c.plan| && c.plan[m] == (key, exclusive)
  }

  /** No exclusive holder ever coexists with another holder of the same key. */
  lemma RunIsExclusive(run: seq<Clients>, k: nat, i: nat, j: nat, key: string, a: bool, b: bool)
    requires ClientRun(run) && k < |run| && i < |run[k]| && j < |run[k]| && i != j
    requires Has(run[k][i], key, a) && Has(run[k][j], key, b)
    ensures !a && !b
  {
    RunStaysExclusive(run, k);
    assert (key, a) in Holding(run[k][i]) && (key, b) in Holding(run[k][j]);
    assert !Conflict((key, a), (key, b));
  }

  ghost predicate Waiting(cs: Clients, i: int)
  {
    0 <= i < |cs| && !cs[i].released && cs[i].taken < |cs[i].plan|
  }

  ghost function Wanted(cs: Clients, i: int): string
    requires Waiting(cs, i)
  {
    cs[i].plan[cs[i].taken].0
  }

  /** The next lock is granted exactly when no other client has its key, alone or, for a client
      that wants it alone, at all. */
  lemma GrantedIff(cs: Clients, i: nat)
    requires Ordered(cs) && Waiting(cs, i)
    ensures (exists next :: TakeStep(cs, next, i)) <==>
      forall j: nat :: j < |cs| && j != i ==>
        !Has(cs[j], Wanted(cs, i), true) && (cs[i].plan[cs[i].taken].1 ==> !Has(cs[j], Wanted(cs, i), false))
  {
    var lock := cs[i].plan[cs[i].taken];
    forall j: nat, exclusive: bool | j < |cs|
      ensures Has(cs[j], lock.0, exclusive) <==> (lock.0, exclusive) in Holding(cs[j])
    {
    }
    if Grantable(cs, i, lock) {
      var next := cs[i := cs[i].(taken := cs[i].taken + 1)];
      assert TakeStep(cs, next, i);
      forall j: nat | j < |cs| && j != i
        ensures !Has(cs[j], lock.0, true) && (lock.1 ==> !Has(cs[j], lock.0, false))
      {
        assert Conflict(lock, (lock.0, true)) && (lock.1 ==> Conflict(lock, (lock.0, false)));
      }
    } else {
      var j, held :| 0 <= j < |cs| && j != i && held in Holding(cs[j]) && Conflict(lock, held);
      assert held == (lock.0, held.1) && Has(cs[j], lock.0, held.1);
    }
  }

  /** Among waiting clients, one wants a key that no other waiting client exceeds. */
  lemma {:induction false} HighestWaiting(cs: Clients, n: nat) returns (h: int)
    requires n <= |cs| && exists i :: 0 <= i < n && Waiting(cs, i)
    ensures 0 <= h < n && Waiting(cs, h)
    ensures forall i :: 0 <= i < n && Waiting(cs, i) ==> !Lt(Wanted(cs, h), Wanted(cs, i))
  {
    if exists i :: 0 <= i < n - 1 && Waiting(cs, i) {
      h := HighestWaiting(cs, n - 1);
      if Waiting(cs, n - 1) && Lt(Wanted(cs, h), Wanted(cs, n - 1)) {
        forall i | 0 <= i < n && Waiting(cs, i) ensures !Lt(Wanted(cs, n - 1), Wanted(cs, i)) {
          if i == n - 1 {
            LtIrreflexive(Wanted(cs, i));
          } else if Lt(Wanted(cs, n - 1), Wanted(cs, i)) {
            LtTransitive(Wanted(cs, h), Wanted(cs, n - 1), Wanted(cs, i));
          }
        }
        h := n - 1;
      }
    } else {
      h := n - 1;
      LtIrreflexive(Wanted(cs, h));
    }
  }

  /** Deadlock freedom: while some client has not released, some client can step. */
  lemma SomeClientCanStep(cs: Clients)
    requires Ordered(cs) && exists i :: 0 <= i < |cs| && !cs[i].released
    ensures exists next :: ClientStep(cs, next)
  {
    var u :| 0 <= u < |cs| && !cs[u].released;
    if j :| 0 <= j < |cs| && !cs[j].released && cs[j].taken == |cs[j].plan| {
      var next := cs[j := cs[j].(released := true)];
      assert ReleaseStep(cs, next, j);
      assert ClientStep(cs, next);
    } else {
      assert Waiting(cs, u);
      var h := HighestWaiting(cs, |cs|);
      var lock := cs[h].plan[cs[h].taken];
      forall j, held | 0 <= j < |cs| && j != h && held in Holding(cs[j]) ensures !Conflict(lock, held) {
        assert Waiting(cs, j);
        var m :| 0 <= m < cs[j].taken && cs[j].plan[m] == held;
        assert Lt(held.0, Wanted(cs, j));
      }
      var next := cs[h := cs[h].(taken := cs[h].taken + 1)];
      assert TakeStep(cs, next, h);
      assert ClientStep(cs, next);
    }
  }

  /** Steps still to come. */
  ghost function Remaining(cs: Clients): int
  {
    if cs == [] then 0
    else (if cs[0].released then 0 else |cs[0].plan| - cs[0].taken + 1) + Remaining(cs[1..])
  }

  lemma {:induction false} RemainingAt(cs: Clients, i: nat, c: Client)
    requires i < |cs|
    ensures Remaining(cs[i := c]) - Remaining(cs) ==
      (if c.released then 0 else |c.plan| - c.taken + 1) - (if cs[i].released then 0
        else |cs[i].plan| - cs[i].taken + 1)
  {
    if i > 0 {
      RemainingAt(cs[1..], i - 1, c);
      assert cs[i := c][1..] == cs[1..][i - 1 := c];
    } else {
      assert cs[i := c][1..] == cs[1..];
    }
  }

  lemma {:induction false} RemainingIsPositive(cs: Clients, i: nat)
    requires Ordered(cs) && i < |cs|
    ensures Remaining(cs) >= if cs[i].released then 0 else 1
    decreases |cs|
  {
    if |cs| > 1 {
      var j := if i > 0 then i - 1 else 0;
      assert Ordered(cs[1..]);
      RemainingIsPositive(cs[1..], j);
    }
  }

  /** Every step uses up one of finitely many, so every client gets its turn. */
  lemma StepsRunOut(cs: Clients, next: Clients)
    requires Ordered(cs) && ClientStep(cs, next)
    ensures 0 <= Remaining(next) == Remaining(cs) - 1
  {
    var i :| TakeStep(cs, next, i) || ReleaseStep(cs, next, i);
    RemainingAt(cs, i, next[i]);
    assert next == cs[i := next[i]];
    assert Ordered(next);
    RemainingIsPositive(next, i);
  }

  lemma {:induction false} RunLength(run: seq<Clients>, k: nat)
    requires ClientRun(run) && k < |run|
    ensures Remaining(run[k]) == Remaining(run[0]) - k
  {
    if k > 0 {
      RunLength(run, k - 1);
      RunStaysExclusive(run, k - 1);
      StepsRunOut(run[k - 1], run[k]);
    }
  }

  ghost predicate Halted(cs: Clients)
  {
    forall next :: !ClientStep(cs, next)
  }

  ghost predicate AllReleased(cs: Clients)
  {
    forall i :: 0 <= i < |cs| ==> cs[i].released
  }

  /** A run that cannot be continued has served every client. */
  lemma MaximalRunServesAll(run: seq<Clients>)
    requires ClientRun(run) && Halted(run[|run| - 1])
    ensures AllReleased(run[|run| - 1])
  {
    var last := run[|run| - 1];
    RunStaysExclusive(run, |run| - 1);
    if !AllReleased(last) {
      SomeClientCanStep(last);
    }
  }

  // ---- A nested acquisition can get stuck ----

  /** A client that acquires again while it holds its first locks: the second plan starts
      below the keys it holds. */
  function NestedPlan(): Plan
  {
    [("path:boards/delivery.toml", false), ("identity:HMD-1", false)]
  }

  function WriterPlan(): Plan
  {
    [("identity:HMD-1", true), ("path:boards/delivery.toml", true)]
  }

  lemma NestedAcquisitionGetsStuck(start: Clients, middle: Clients, stuck: Clients)
    requires start == [Client(NestedPlan(), 0, false), Client(WriterPlan(), 0, false)]
    requires middle == [Client(NestedPlan(), 1, false), Client(WriterPlan(), 0, false)]
    requires stuck == [Client(NestedPlan(), 1, false), Client(WriterPlan(), 1, false)]
    ensures ClientStep(start, middle) && ClientStep(middle, stuck)
    ensures Halted(stuck) && !AllReleased(stuck)
    ensures !Ascending(NestedPlan()) && Ascending(WriterPlan())
  {
    assert TakeStep(start, middle, 0);
    assert TakeStep(middle, stuck, 1) by {
      assert NestedPlan()[..1] == [NestedPlan()[0]];
    }
    assert NestedPlan()[0] in Holding(stuck[0]) && WriterPlan()[0] in Holding(stuck[1]);
    assert Conflict(NestedPlan()[1], WriterPlan()[0]) && Conflict(WriterPlan()[1], NestedPlan()[0]);
  }
}
