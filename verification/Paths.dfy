/** Slash-separated paths and their components. */
module Paths {
  import opened Wrappers
  import opened Ordering

  type Parts = seq<string>

  predicate Letter(c: char)
  {
    'a' <= c <= 'z' || 'A' <= c <= 'Z'
  }

  /** The components of a path, empty ones included. */
  function Split(s: string): (parts: Parts)
    ensures |parts| > 0
  {
    if s == "" then [""]
    else if s[0] == '/' then [""] + Split(s[1..])
    else
      var rest := Split(s[1..]);
      [[s[0]] + rest[0]] + rest[1..]
  }

  /** The place of the last slash. */
  function LastSlash(s: string): (k: Option<nat>)
    ensures k.Some? ==> k.value < |s| && s[k.value] == '/' && '/' !in s[k.value + 1..]
    ensures k.None? ==> '/' !in s
  {
    if s == "" then None
    else if s[|s| - 1] == '/' then Some(|s| - 1)
    else
      var k := LastSlash(s[..|s| - 1]);
      assert s == s[..|s| - 1] + [s[|s| - 1]];
      assert k.Some? ==> s[k.value + 1..] == s[..|s| - 1][k.value + 1..] + [s[|s| - 1]];
      k
  }

  function Join(parts: Parts): string
    requires |parts| > 0
  {
    if |parts| == 1 then parts[0] else parts[0] + "/" + Join(parts[1..])
  }

  lemma {:induction false} JoinSplit(s: string)
    ensures Join(Split(s)) == s
  {
    if s != "" {
      JoinSplit(s[1..]);
      var rest := Split(s[1..]);
      if s[0] == '/' {
        assert Split(s)[1..] == rest;
        assert s == "" + "/" + s[1..];
      } else if |rest| == 1 {
        assert s == [s[0]] + s[1..];
      } else {
        assert Split(s)[1..] == rest[1..];
        assert s == [s[0]] + s[1..];
      }
    }
  }

  lemma {:induction false} SplitsHaveNoSlash(s: string)
    ensures forall i :: 0 <= i < |Split(s)| ==> '/' !in Split(s)[i]
  {
    if s != "" {
      SplitsHaveNoSlash(s[1..]);
    }
  }

  lemma {:induction false} SplitWithoutSlash(s: string)
    requires '/' !in s
    ensures Split(s) == [s]
  {
    if s != "" {
      SplitWithoutSlash(s[1..]);
      assert s == [s[0]] + s[1..];
    }
  }

  /** A slash separates components, wherever it stands. */
  lemma {:induction false} SplitAtSlash(a: string, c: string)
    ensures Split(a + "/" + c) == Split(a) + Split(c)
  {
    if a == "" {
      assert a + "/" + c == ['/'] + c;
      SplitCons('/', c);
    } else {
      var rest := a[1..] + "/" + c;
      assert a + "/" + c == [a[0]] + rest && a == [a[0]] + a[1..];
      SplitCons(a[0], rest);
      SplitCons(a[0], a[1..]);
      SplitAtSlash(a[1..], c);
      Extended(a[0], Split(a[1..]), Split(c));
    }
  }

  function Extend(x: char, parts: Parts): Parts
    requires |parts| > 0
  {
    if x == '/' then [""] + parts else [[x] + parts[0]] + parts[1..]
  }

  lemma SplitCons(x: char, s: string)
    ensures Split([x] + s) == Extend(x, Split(s))
  {
    assert ([x] + s)[1..] == s;
  }

  lemma Extended(x: char, a: Parts, c: Parts)
    requires |a| > 0
    ensures Extend(x, a + c) == Extend(x, a) + c
  {
    assert (a + c)[1..] == a[1..] + c;
  }

  lemma {:induction false} SplitJoin(parts: Parts)
    requires |parts| > 0 && forall i :: 0 <= i < |parts| ==> '/' !in parts[i]
    ensures Split(Join(parts)) == parts
  {
    SplitWithoutSlash(parts[0]);
    if |parts| > 1 {
      SplitJoin(parts[1..]);
      SplitAtSlash(parts[0], Join(parts[1..]));
      assert parts == [parts[0]] + parts[1..];
    }
  }

  lemma {:induction false} JoinOfSum(a: Parts, b: Parts)
    requires |a| > 0 && |b| > 0
    ensures Join(a + b) == Join(a) + "/" + Join(b)
  {
    if |a| == 1 {
      assert (a + b)[1..] == b;
    } else {
      assert (a + b)[1..] == a[1..] + b;
      JoinOfSum(a[1..], b);
    }
  }

  /** `a` is `b`, or a directory above it. */
  predicate Above(a: string, b: string)
  {
    Split(a) <= Split(b)
  }

  /** The test the Store makes on strings. */
  predicate HasPrefix(b: string, a: string)
  {
    a + "/" <= b
  }

  /** Being a directory above is having the path and a slash as prefix. */
  lemma AboveIsPrefix(a: string, b: string)
    ensures Above(a, b) <==> a == b || HasPrefix(b, a)
  {
    if Above(a, b) {
      var rest := Split(b)[|Split(a)|..];
      assert Split(b) == Split(a) + rest;
      JoinSplit(a);
      JoinSplit(b);
      if rest != [] {
        JoinOfSum(Split(a), rest);
      } else {
        assert Split(b) == Split(a);
      }
    }
    if HasPrefix(b, a) {
      var c := b[|a| + 1..];
      assert b == a + "/" + c;
      SplitAtSlash(a, c);
    }
  }

  /** What stands before the first slash. */
  lemma FirstComponent(rest: string, slug: string)
    requires '/' !in slug
    ensures '/' in rest && Split(rest)[0] == slug <==> HasPrefix(rest, slug)
  {
    if HasPrefix(rest, slug) {
      var c := rest[|slug| + 1..];
      assert rest == slug + "/" + c;
      SplitAtSlash(slug, c);
      SplitWithoutSlash(slug);
      assert rest[|slug|] == '/';
    }
    if '/' in rest && Split(rest)[0] == slug {
      if |Split(rest)| == 1 {
        SplitsHaveNoSlash(rest);
        JoinSplit(rest);
      } else {
        JoinSplit(rest);
        assert rest == slug + "/" + Join(Split(rest)[1..]);
      }
    }
  }

  // ---- Component order ----

  predicate Before(a: Parts, b: Parts)
  {
    |b| > 0 && (|a| == 0 || Lt(a[0], b[0]) || (a[0] == b[0] && Before(a[1..], b[1..])))
  }

  predicate NotAfter(a: Parts, b: Parts)
  {
    a == b || Before(a, b)
  }

  lemma {:induction false} BeforeTotal(a: Parts, b: Parts)
    ensures a == b || Before(a, b) || Before(b, a)
  {
    if |a| > 0 && |b| > 0 {
      LtTotal(a[0], b[0]);
      if a[0] == b[0] {
        BeforeTotal(a[1..], b[1..]);
        assert a == [a[0]] + a[1..] && b == [b[0]] + b[1..];
      }
    }
  }

  lemma {:induction false} BeforeTransitive(a: Parts, b: Parts, c: Parts)
    requires Before(a, b) && Before(b, c)
    ensures Before(a, c)
  {
    if |a| > 0 {
      if Lt(a[0], b[0]) && Lt(b[0], c[0]) {
        LtTransitive(a[0], b[0], c[0]);
      } else if a[0] == b[0] == c[0] && Before(a[1..], b[1..]) && Before(b[1..], c[1..]) {
        BeforeTransitive(a[1..], b[1..], c[1..]);
      }
    }
  }

  lemma {:induction false} BeforeIrreflexive(a: Parts)
    ensures !Before(a, a)
  {
    if |a| > 0 {
      LtIrreflexive(a[0]);
      BeforeIrreflexive(a[1..]);
    }
  }

  /** Whatever sorts between a path and a path below it is below it as well. */
  lemma {:induction false} SubtreeIsContiguous(p: Parts, q: Parts, r: Parts)
    requires p <= r && NotAfter(p, q) && NotAfter(q, r)
    ensures p <= q
  {
    if p != [] && q != r && p != q {
      assert r[0] == p[0];
      if Lt(p[0], q[0]) {
        LtAsymmetric(p[0], q[0]);
      } else {
        LtIrreflexive(p[0]);
        assert p[1..] <= r[1..];
        SubtreeIsContiguous(p[1..], q[1..], r[1..]);
        assert p == [p[0]] + p[1..] && q == [q[0]] + q[1..];
      }
    }
  }

  /** What comes later is not above. */
  lemma {:induction false} LaterIsNotAbove(p: Parts, q: Parts)
    requires NotAfter(p, q) && q <= p
    ensures p == q
  {
    if Before(p, q) {
      if p != [] {
        LtIrreflexive(p[0]);
        LaterIsNotAbove(p[1..], q[1..]);
        assert p == [p[0]] + p[1..] && q == [q[0]] + q[1..];
      }
    }
  }
}
