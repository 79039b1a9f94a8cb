/** The ownership claims of a strategy transition: writers may not claim overlapping paths,
    and one pass over the claims in component order finds every overlap. */
module Ownership {
  import opened Wrappers
  import opened Paths

  datatype Ownership = Ownership(owner: string, paths: seq<string>)
  datatype Claim = Claim(owner: string, path: string)
  datatype Refusal = MalformedOwnership | OverlappingOwnership

  /** Relative, in forward slashes, without drive, empty or dot components. */
  predicate SafePath(blank: string -> bool, s: string)
  {
    && !blank(s) && s != "" && s[0] != '/' && '\\' !in s && !(|s| > 1 && s[1] == ':' && Letter(s[0]))
    && forall i :: 0 <= i < |Split(s)| ==> Split(s)[i] != "" && Split(s)[i] != "." && Split(s)[i] != ".."
  }

  ghost predicate Contains(s: string, x: string)
  {
    exists a, b :: s == a + x + b
  }

  lemma JoinAround(before: Parts, c: string, after: Parts)
    requires |before| > 0 && |after| > 0
    ensures Join(before + ([c] + after)) == Join(before) + ("/" + c + "/") + Join(after)
  {
    JoinOfSum(before, [c] + after);
    JoinOfSum([c], after);
    assert Join([c]) == c;
    Regrouped(Join(before), "/", c, Join(after));
  }

  lemma Regrouped(a: string, slash: string, c: string, b: string)
    ensures a + slash + (c + slash + b) == a + (slash + c + slash) + b
  {
  }

  lemma ComponentIsContained(s: string, i: nat)
    requires i < |Split(s)|
    ensures Contains("/" + s + "/", "/" + Split(s)[i] + "/")
  {
    var parts, c := [""] + Split(s) + [""], Split(s)[i];
    var before, after := parts[..i + 1], parts[i + 2..];
    assert parts == before + ([c] + after);
    WholeParts(s);
    JoinAround(before, c, after);
    JoinSplit("/" + s + "/");
  }

  lemma ContainedIsComponent(s: string, c: string, a: string, b: string)
    requires '/' !in c && "/" + s + "/" == a + ("/" + c + "/") + b
    ensures c in Split(s)
  {
    Regrouped(a, "/", c, b);
    WholeParts(s);
    SplitAtSlash(a, c + "/" + b);
    SplitAtSlash(c, b);
    SplitWithoutSlash(c);
    MiddleComponent(Split(s), Split(a), c, Split(b));
  }

  lemma MiddleComponent(parts: Parts, before: Parts, c: string, after: Parts)
    requires [""] + parts + [""] == before + ([c] + after) && |before| > 0 && |after| > 0
    ensures c in parts
  {
    assert (before + ([c] + after))[|before|] == c;
    assert parts[|before| - 1] == c;
  }

  /** Whether a path has a component shows in its text. */
  lemma ComponentShows(s: string, c: string)
    requires '/' !in c
    ensures c in Split(s) <==> Contains("/" + s + "/", "/" + c + "/")
  {
    if c in Split(s) {
      var i :| 0 <= i < |Split(s)| && Split(s)[i] == c;
      ComponentIsContained(s, i);
    }
    if a, b :| "/" + s + "/" == a + ("/" + c + "/") + b {
      ContainedIsComponent(s, c, a, b);
    }
  }

  lemma WholeParts(s: string)
    ensures Split("/" + s + "/") == [""] + Split(s) + [""]
  {
    assert "/" + s + "/" == "" + "/" + (s + "/" + "");
    SplitAtSlash("", s + "/" + "");
    SplitAtSlash(s, "");
  }

  /** Said of the text: not blank, no backslash, no drive, and between slashes, those before and
      after it included, neither nothing nor one dot nor two. */
  lemma SafePathIff(blank: string -> bool, s: string)
    ensures SafePath(blank, s) <==>
      && !blank(s) && '\\' !in s
      && !(|s| > 1 && s[1] == ':' && ('a' <= s[0] <= 'z' || 'A' <= s[0] <= 'Z'))
      && !Contains("/" + s + "/", "//") && !Contains("/" + s + "/", "/./") && !Contains("/" + s + "/", "/../")
  {
    ComponentShows(s, "");
    ComponentShows(s, ".");
    ComponentShows(s, "..");
    assert "/" + "" + "/" == "//" && "/" + "." + "/" == "/./" && "/" + ".." + "/" == "/../";
    assert s == "" || s[0] == '/' ==> Split(s)[0] == "" && "" in Split(s);
  }

  /** As the Store tests it, on the strings. */
  predicate PathsOverlap(a: string, b: string)
  {
    a == b || HasPrefix(a, b) || HasPrefix(b, a)
  }

  /** One path is the other, or a directory above it. */
  predicate Nested(a: string, b: string)
  {
    Above(a, b) || Above(b, a)
  }

  lemma OverlapIsNesting(a: string, b: string)
    ensures PathsOverlap(a, b) <==> Nested(a, b)
  {
    AboveIsPrefix(a, b);
    AboveIsPrefix(b, a);
  }

  /** Two writers claim the same file, or one claims a directory above the other's. */
  ghost predicate Clash(a: Claim, b: Claim)
  {
    a.owner != b.owner && Nested(a.path, b.path)
  }

  ghost predicate Clashing(claims: seq<Claim>)
  {
    exists i, j :: 0 <= i < |claims| && 0 <= j < |claims| && Clash(claims[i], claims[j])
  }

  lemma PermutationClashes(a: seq<Claim>, b: seq<Claim>)
    requires multiset(a) == multiset(b)
    ensures Clashing(a) <==> Clashing(b)
  {
    SameMembers(a, b);
    forall x, y | x in a && y in a && Clash(x, y) ensures Clashing(a) && Clashing(b) {
      assert Clashing(a) && Clashing(b) by {
        var i :| 0 <= i < |a| && a[i] == x;
        var j :| 0 <= j < |a| && a[j] == y;
        assert Clash(a[i], a[j]);
        var k :| 0 <= k < |b| && b[k] == x;
        var l :| 0 <= l < |b| && b[l] == y;
        assert Clash(b[k], b[l]);
      }
    }
    if Clashing(a) {
      var i, j :| 0 <= i < |a| && 0 <= j < |a| && Clash(a[i], a[j]);
      assert a[i] in a && a[j] in a;
    }
    if Clashing(b) {
      var i, j :| 0 <= i < |b| && 0 <= j < |b| && Clash(b[i], b[j]);
      assert b[i] in b && b[j] in b;
    }
  }

  lemma SameMembers(a: seq<Claim>, b: seq<Claim>)
    requires multiset(a) == multiset(b)
    ensures forall x :: x in a <==> x in b
  {
    forall x ensures x in a <==> x in b {
      assert x in a <==> x in multiset(a);
      assert x in b <==> x in multiset(b);
    }
  }

  // ---- Component order ----

  ghost predicate InOrder(claims: seq<Claim>)
  {
    forall i, j :: 0 <= i < j < |claims| ==> NotAfter(Split(claims[i].path), Split(claims[j].path))
  }

  method Insert(claims: seq<Claim>, c: Claim) returns (r: seq<Claim>)
    requires InOrder(claims)
    ensures InOrder(r) && multiset(r) == multiset(claims) + multiset{c}
  {
    var i := 0;
    while i < |claims| && Before(Split(claims[i].path), Split(c.path))
      invariant 0 <= i <= |claims|
      invariant forall k :: 0 <= k < i ==> Before(Split(claims[k].path), Split(c.path))
    {
      i := i + 1;
    }
    r := claims[..i] + [c] + claims[i..];
    assert claims == claims[..i] + claims[i..];
    RestNotBefore(claims, c, i);
    InsertedInOrder(claims, c, i);
  }

  lemma RestNotBefore(claims: seq<Claim>, c: Claim, i: nat)
    requires InOrder(claims) && i <= |claims| && (i < |claims| ==> !Before(Split(claims[i].path), Split(c.path)))
    ensures forall k :: i <= k < |claims| ==> NotAfter(Split(c.path), Split(claims[k].path))
  {
    forall k | i <= k < |claims| ensures NotAfter(Split(c.path), Split(claims[k].path)) {
      BeforeTotal(Split(c.path), Split(claims[i].path));
      if k > i {
        NotAfterTransitive(Split(c.path), Split(claims[i].path), Split(claims[k].path));
      }
    }
  }

  lemma InsertedInOrder(claims: seq<Claim>, c: Claim, i: nat)
    requires InOrder(claims) && i <= |claims|
    requires forall k :: 0 <= k < i ==> Before(Split(claims[k].path), Split(c.path))
    requires forall k :: i <= k < |claims| ==> NotAfter(Split(c.path), Split(claims[k].path))
    ensures InOrder(claims[..i] + [c] + claims[i..])
  {
    var r := claims[..i] + [c] + claims[i..];
    forall a, b | 0 <= a < b < |r| ensures NotAfter(Split(r[a].path), Split(r[b].path)) {
      assert r[a] == if a < i then claims[a] else if a == i then c else claims[a - 1];
      assert r[b] == if b < i then claims[b] else if b == i then c else claims[b - 1];
    }
  }

  lemma NotAfterTransitive(a: Parts, b: Parts, c: Parts)
    requires NotAfter(a, b) && NotAfter(b, c)
    ensures NotAfter(a, c)
  {
    if a != b && b != c {
      BeforeTransitive(a, b, c);
    }
  }

  /** Some order by components; which one does not matter. */
  method Sort(claims: seq<Claim>) returns (r: seq<Claim>)
    ensures InOrder(r) && multiset(r) == multiset(claims)
  {
    r := [];
    for i := 0 to |claims|
      invariant InOrder(r) && multiset(r) == multiset(claims[..i])
    {
      assert claims[..i + 1] == claims[..i] + [claims[i]];
      r := Insert(r, claims[i]);
    }
    assert claims[..|claims|] == claims;
  }

  // ---- The sweep ----

  /** The first `i` claims do not clash; the claim `c` covers all of them from its place on,
      with one owner, and none before it covers it. */
  ghost predicate Swept(claims: seq<Claim>, i: nat, c: nat)
    requires i <= |claims|
  {
    && c < i
    && (forall j, k :: 0 <= j < i && 0 <= k < i ==> !Clash(claims[j], claims[k]))
    && (forall j :: 0 <= j < c ==> !Above(claims[j].path, claims[c].path))
    && (forall j :: c <= j < i ==> Above(claims[c].path, claims[j].path) && claims[j].owner == claims[c].owner)
  }

  /** An earlier claim is nested with a later one only as the directory above it. */
  lemma EarlierIsAbove(claims: seq<Claim>, j: nat, i: nat)
    requires InOrder(claims) && j < i < |claims|
    ensures Nested(claims[j].path, claims[i].path) <==> Above(claims[j].path, claims[i].path)
  {
    if Above(claims[i].path, claims[j].path) {
      LaterIsNotAbove(Split(claims[j].path), Split(claims[i].path));
    }
  }

  /** Whatever covers the next claim from before `c` would cover `c`. */
  lemma OnlyCoverMatters(claims: seq<Claim>, i: nat, c: nat, j: nat)
    requires InOrder(claims) && i < |claims| && Swept(claims, i, c) && j < i
    ensures Nested(claims[j].path, claims[i].path) ==> c <= j && Above(claims[c].path, claims[i].path)
  {
    EarlierIsAbove(claims, j, i);
    if Above(claims[j].path, claims[i].path) && j < c {
      SubtreeIsContiguous(Split(claims[j].path), Split(claims[c].path), Split(claims[i].path));
    }
  }

  /** The next claim clashes with none before it. */
  ghost predicate Harmless(claims: seq<Claim>, i: nat)
    requires i < |claims|
  {
    forall j :: 0 <= j < i ==> !Clash(claims[j], claims[i])
  }

  lemma HarmlessNext(claims: seq<Claim>, i: nat)
    requires i < |claims| && Harmless(claims, i)
    requires forall j, k :: 0 <= j < i && 0 <= k < i ==> !Clash(claims[j], claims[k])
    ensures forall j, k :: 0 <= j < i + 1 && 0 <= k < i + 1 ==> !Clash(claims[j], claims[k])
  {
    forall j | 0 <= j < i ensures !Clash(claims[i], claims[j]) {
      assert !Clash(claims[j], claims[i]);
    }
  }

  /** A claim below the remembered one, of the same owner. */
  lemma CoveredIsHarmless(claims: seq<Claim>, i: nat, c: nat)
    requires InOrder(claims) && i < |claims| && Swept(claims, i, c) && claims[c].owner == claims[i].owner
    ensures Harmless(claims, i)
  {
    forall j | 0 <= j < i ensures !Clash(claims[j], claims[i]) {
      OnlyCoverMatters(claims, i, c, j);
    }
  }

  /** A claim that the remembered one does not cover is below no earlier one. */
  lemma UncoveredIsNew(claims: seq<Claim>, i: nat, c: nat)
    requires InOrder(claims) && i < |claims| && Swept(claims, i, c) && !Nested(claims[c].path, claims[i].path)
    ensures Harmless(claims, i) && forall j :: 0 <= j < i ==> !Above(claims[j].path, claims[i].path)
  {
    forall j | 0 <= j < i ensures !Nested(claims[j].path, claims[i].path) {
      OnlyCoverMatters(claims, i, c, j);
    }
  }

  lemma SweepNext(claims: seq<Claim>, i: nat, c: nat)
    requires InOrder(claims) && i < |claims| && Swept(claims, i, c)
    ensures Nested(claims[c].path, claims[i].path) && claims[c].owner == claims[i].owner ==> Swept(claims, i + 1, c)
    ensures !Nested(claims[c].path, claims[i].path) ==> Swept(claims, i + 1, i)
  {
    if !Nested(claims[c].path, claims[i].path) {
      UncoveredIsNew(claims, i, c);
      HarmlessNext(claims, i);
    } else if claims[c].owner == claims[i].owner {
      EarlierIsAbove(claims, c, i);
      CoveredIsHarmless(claims, i, c);
      HarmlessNext(claims, i);
    }
  }

  method Sweep(claims: seq<Claim>) returns (overlapping: bool)
    requires InOrder(claims)
    ensures overlapping <==> Clashing(claims)
  {
    var covering: Option<Claim> := None;
    ghost var c := 0;
    for i := 0 to |claims|
      invariant covering.None? <==> i == 0
      invariant i > 0 ==> Swept(claims, i, c) && covering == Some(claims[c])
    {
      if covering.Some? {
        OverlapIsNesting(covering.value.path, claims[i].path);
        SweepNext(claims, i, c);
        if PathsOverlap(covering.value.path, claims[i].path) {
          if claims[i].owner != covering.value.owner {
            assert Clash(claims[c], claims[i]);
            return true;
          }
          continue;
        }
      }
      covering := Some(claims[i]);
      c := i;
    }
    overlapping := false;
  }

  // ---- The whole check ----

  ghost predicate Malformed(blank: string -> bool, o: Ownership)
  {
    blank(o.owner) || o.paths == [] || exists p :: p in o.paths && !SafePath(blank, p)
  }

  function ClaimsOf(o: Ownership): seq<Claim>
  {
    seq(|o.paths|, i requires 0 <= i < |o.paths| => Claim(o.owner, o.paths[i]))
  }

  /** Two ownerships claim nested paths for different writers. */
  ghost predicate Contested(ownerships: seq<Ownership>)
  {
    exists a, b, p, q ::
      a in ownerships && b in ownerships && p in a.paths && q in b.paths && a.owner != b.owner && Nested(p, q)
  }

  /** The claims of the first ownerships. */
  ghost predicate Collected(ownerships: seq<Ownership>, claims: seq<Claim>)
  {
    forall c :: c in claims <==> exists o :: o in ownerships && o.owner == c.owner && c.path in o.paths
  }

  lemma CollectedClashes(ownerships: seq<Ownership>, claims: seq<Claim>)
    requires Collected(ownerships, claims)
    ensures Clashing(claims) <==> Contested(ownerships)
  {
    if Clashing(claims) {
      var i, j :| 0 <= i < |claims| && 0 <= j < |claims| && Clash(claims[i], claims[j]);
      assert claims[i] in claims && claims[j] in claims;
    }
    if Contested(ownerships) {
      var a, b, p, q :|
        a in ownerships && b in ownerships && p in a.paths && q in b.paths && a.owner != b.owner && Nested(p, q);
      var x, y := Claim(a.owner, p), Claim(b.owner, q);
      assert x in claims && y in claims;
      var i :| 0 <= i < |claims| && claims[i] == x;
      var j :| 0 <= j < |claims| && claims[j] == y;
      assert Clash(claims[i], claims[j]);
    }
  }

  lemma CollectedNext(done: seq<Ownership>, claims: seq<Claim>, o: Ownership)
    requires Collected(done, claims)
    ensures Collected(done + [o], claims + ClaimsOf(o))
  {
    forall c ensures c in ClaimsOf(o) <==> c.owner == o.owner && c.path in o.paths {
      if c.owner == o.owner && c.path in o.paths {
        var i :| 0 <= i < |o.paths| && o.paths[i] == c.path;
        assert ClaimsOf(o)[i] == c;
      }
    }
  }

  method Validate(blank: string -> bool, ownerships: seq<Ownership>) returns (refusal: Option<Refusal>)
    ensures refusal == Some(MalformedOwnership) <==> exists o :: o in ownerships && Malformed(blank, o)
    ensures refusal == Some(OverlappingOwnership) <==>
      (forall o :: o in ownerships ==> !Malformed(blank, o)) && Contested(ownerships)
  {
    var claims := [];
    for i := 0 to |ownerships|
      invariant Collected(ownerships[..i], claims)
      invariant forall o :: o in ownerships[..i] ==> !Malformed(blank, o)
    {
      var o := ownerships[i];
      assert ownerships[..i + 1] == ownerships[..i] + [o] && o in ownerships;
      if blank(o.owner) || o.paths == [] || exists p :: p in o.paths && !SafePath(blank, p) {
        return Some(MalformedOwnership);
      }
      CollectedNext(ownerships[..i], claims, o);
      claims := claims + ClaimsOf(o);
    }
    assert ownerships[..|ownerships|] == ownerships;
    var sorted := Sort(claims);
    var overlapping := Sweep(sorted);
    PermutationClashes(claims, sorted);
    CollectedClashes(ownerships, claims);
    refusal := if overlapping then Some(OverlappingOwnership) else None;
  }
}
