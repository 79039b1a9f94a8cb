/** Total orders used by the Store's sorted containers.

    `Lt` is the order of a sorted map or set of strings: the first differing
    character decides, and a proper prefix comes first. */
module Ordering {

  predicate Lt(a: string, b: string)
  {
    |b| > 0 && (|a| == 0 || a[0] < b[0] || (a[0] == b[0] && Lt(a[1..], b[1..])))
  }

  predicate Sorted(s: seq<string>)
  {
    forall i, j :: 0 <= i < j < |s| ==> Lt(s[i], s[j])
  }

  /** Up to some place the two are equal; there the first ends, or has the smaller character. */
  ghost predicate Precedes(a: string, b: string, k: nat)
  {
    k <= |a| && k < |b| && a[..k] == b[..k] && (k == |a| || a[k] < b[k])
  }

  lemma {:induction false} LtMeans(a: string, b: string)
    ensures Lt(a, b) <==> exists k: nat :: Precedes(a, b, k)
  {
    if |a| > 0 && |b| > 0 && a[0] == b[0] {
      LtMeans(a[1..], b[1..]);
      if k: nat :| Precedes(a[1..], b[1..], k) {
        assert a[..k + 1] == [a[0]] + a[1..][..k] && b[..k + 1] == [b[0]] + b[1..][..k];
        assert Precedes(a, b, k + 1);
      }
      if k: nat :| Precedes(a, b, k) {
        assert k > 0 ==> a[1..][..k - 1] == a[..k][1..] && b[1..][..k - 1] == b[..k][1..];
        assert k > 0 ==> Precedes(a[1..], b[1..], k - 1);
      }
    } else {
      assert Lt(a, b) ==> Precedes(a, b, 0);
      if k: nat :| Precedes(a, b, k) && k > 0 {
        assert a[..k][0] == b[..k][0];
      }
    }
  }

  lemma LtIrreflexive(a: string)
    ensures !Lt(a, a)
  {
  }

  lemma {:induction false} LtTransitive(a: string, b: string, c: string)
    requires Lt(a, b) && Lt(b, c)
    ensures Lt(a, c)
  {
    if |a| > 0 && a[0] == b[0] && b[0] == c[0] {
      LtTransitive(a[1..], b[1..], c[1..]);
    }
  }

  lemma {:induction false} LtTotal(a: string, b: string)
    ensures a == b || Lt(a, b) || Lt(b, a)
  {
    if |a| > 0 && |b| > 0 && a[0] == b[0] {
      LtTotal(a[1..], b[1..]);
      assert a == [a[0]] + a[1..] && b == [b[0]] + b[1..];
    }
  }

  lemma LtAsymmetric(a: string, b: string)
    requires Lt(a, b)
    ensures a != b && !Lt(b, a)
  {
    LtIrreflexive(a);
    if Lt(b, a) {
      LtTransitive(a, b, a);
    }
  }

  predicate Least(m: string, s: set<string>)
  {
    m in s && forall x :: x in s && x != m ==> Lt(m, x)
  }

  /** Every nonempty finite set has a least element. */
  lemma {:induction false} LeastExists(s: set<string>) returns (m: string)
    requires s != {}
    ensures Least(m, s)
  {
    m :| m in s;
    var rest := s - {m};
    while rest != {}
      invariant m in s && rest <= s && m !in rest
      invariant forall x :: x in s && x !in rest && x != m ==> Lt(m, x)
      decreases rest
    {
      var y :| y in rest;
      LtTotal(m, y);
      if Lt(y, m) {
        forall x | x in s && x !in rest && x != m
          ensures Lt(y, x)
        {
          LtTransitive(y, m, x);
        }
        m := y;
      }
      rest := rest - {y};
    }
  }

  predicate Greatest(m: string, s: set<string>)
  {
    m in s && forall x :: x in s && x != m ==> Lt(x, m)
  }

  lemma {:induction false} GreatestExists(s: set<string>) returns (m: string)
    requires s != {}
    ensures Greatest(m, s)
  {
    m :| m in s;
    var rest := s - {m};
    while rest != {}
      invariant m in s && rest <= s && m !in rest
      invariant forall x :: x in s && x !in rest && x != m ==> Lt(x, m)
      decreases rest
    {
      var y :| y in rest;
      LtTotal(m, y);
      if Lt(m, y) {
        forall x | x in s && x !in rest && x != m
          ensures Lt(x, y)
        {
          LtTransitive(x, m, y);
        }
        m := y;
      }
      rest := rest - {y};
    }
  }

  ghost function Elements(s: seq<string>): set<string>
  {
    set x | x in s
  }

  /** An ascending sequence repeats nothing. */
  lemma SortedSuffix(order: seq<string>, i: nat, j: nat)
    requires Sorted(order) && i <= j < |order|
    ensures order[j] !in order[..i]
  {
    forall k | 0 <= k < i ensures order[k] != order[j] {
      LtAsymmetric(order[k], order[j]);
    }
  }

  lemma NextElement(order: seq<string>, i: nat)
    requires Sorted(order) && i < |order|
    ensures order[i] in order && order[i] !in Elements(order[..i])
    ensures Elements(order[..i + 1]) == Elements(order[..i]) + {order[i]}
  {
    SortedSuffix(order, i, i);
    assert order[..i + 1] == order[..i] + [order[i]];
  }

  /** The iteration order of a sorted set. */
  method SortedElements(s: set<string>) returns (r: seq<string>)
    ensures Sorted(r)
    ensures forall x :: x in r <==> x in s
  {
    r := [];
    var rest := s;
    while rest != {}
      invariant rest <= s
      invariant forall x :: x in r <==> x in s - rest
      invariant Sorted(r)
      invariant forall x, y :: x in r && y in rest ==> Lt(x, y)
      decreases rest
    {
      ghost var least := LeastExists(rest);
      var m :| m in rest && forall x :: x in rest && x != m ==> Lt(m, x);
      r := r + [m];
      rest := rest - {m};
    }
  }
}
