/** Names as the source orders them: strings, code point by code point, and `sorted` over a set of them. */
module Names {
  predicate Less(a: string, b: string) {
    if |b| == 0 then false
    else if |a| == 0 then true
    else if a[0] != b[0] then a[0] < b[0]
    else Less(a[1..], b[1..])
  }

  /** `a` comes first: it is a proper prefix of `b`, or has the smaller character where they first differ. */
  predicate Precedes(a: string, b: string, k: nat) {
    k <= |a| && k < |b| && a[..k] == b[..k] && (k == |a| || a[k] < b[k])
  }

  lemma {:induction false} LessMeaning(a: string, b: string)
    ensures Less(a, b) <==> exists k :: Precedes(a, b, k)
  {
    if |a| == 0 || |b| == 0 || a[0] != b[0] {
      if |a| == 0 && |b| > 0 { assert Precedes(a, b, 0); }
      if |a| > 0 && |b| > 0 && a[0] < b[0] { assert Precedes(a, b, 0); }
      forall k: nat | Precedes(a, b, k) ensures k == 0 {}
    } else {
      LessMeaning(a[1..], b[1..]);
      if k: nat :| Precedes(a[1..], b[1..], k) {
        assert a[..k + 1] == [a[0]] + a[1..][..k] && b[..k + 1] == [b[0]] + b[1..][..k];
        assert Precedes(a, b, k + 1);
      }
      if k: nat :| Precedes(a, b, k) {
        assert a[1..][..k - 1] == a[..k][1..] && b[1..][..k - 1] == b[..k][1..];
        assert Precedes(a[1..], b[1..], k - 1);
      }
    }
  }

  lemma {:induction false} LessTotal(a: string, b: string)
    ensures a == b || Less(a, b) || Less(b, a)
  {
    if |a| == 0 || |b| == 0 || a[0] != b[0] {
    } else {
      LessTotal(a[1..], b[1..]);
      assert a[1..] == b[1..] ==> a == [a[0]] + a[1..] == b;
    }
  }

  lemma {:induction false} LessAsymmetric(a: string, b: string)
    requires Less(a, b)
    ensures a != b && !Less(b, a)
  {
    if |a| == 0 || a[0] != b[0] {
    } else {
      LessAsymmetric(a[1..], b[1..]);
    }
  }

  lemma {:induction false} LessTransitive(a: string, b: string, c: string)
    requires Less(a, b) && Less(b, c)
    ensures Less(a, c)
  {
    if |a| == 0 || !(a[0] == b[0] == c[0]) {
    } else {
      LessTransitive(a[1..], b[1..], c[1..]);
    }
  }

  /** Finitely many names have a least one. */
  lemma {:induction false} LeastIn(s: set<string>) returns (m: string)
    requires s != {}
    ensures m in s && forall x | x in s && x != m :: Less(m, x)
  {
    var x :| x in s;
    if s == {x} {
      m := x;
    } else {
      m := LeastIn(s - {x});
      LessTotal(m, x);
      if Less(x, m) {
        forall y | y in s && y != x ensures Less(x, y) {
          if y != m { LessTransitive(x, m, y); }
        }
        m := x;
      }
    }
  }

  predicate Ascending(q: seq<string>) {
    forall i, j | 0 <= i < j < |q| :: Less(q[i], q[j])
  }

  function Elements<T>(q: seq<T>): set<T> {
    set x | x in q
  }

  lemma ElementsAppend<T>(p: seq<T>, q: seq<T>)
    ensures Elements(p + q) == Elements(p) + Elements(q)
  {
  }

  /** The sequence `sorted(s)` returns. */
  predicate IsSorted(s: set<string>, q: seq<string>) {
    Ascending(q) && Elements(q) == s
  }

  lemma FirstIn(q: seq<string>)
    ensures |q| > 0 ==> q[0] in Elements(q)
  {
  }

  /** There is only one. */
  lemma {:induction false} SortedUnique(s: set<string>, p: seq<string>, q: seq<string>)
    requires IsSorted(s, p) && IsSorted(s, q)
    ensures p == q && |p| == |s|
    decreases |p|
  {
    FirstIn(p);
    FirstIn(q);
    if |p| == 0 || |q| == 0 {
    } else {
      var x := p[0];
      if q[0] != x {
        var i :| 0 <= i < |q| && q[i] == x;
        var j :| 0 <= j < |p| && p[j] == q[0];
        LessAsymmetric(q[0], x);
      }
      DropFirst(s, p);
      DropFirst(s, q);
      SortedUnique(s - {x}, p[1..], q[1..]);
      assert p == [x] + p[1..] && q == [x] + q[1..];
    }
  }

  lemma DropFirst(s: set<string>, p: seq<string>)
    requires IsSorted(s, p) && |p| > 0
    ensures IsSorted(s - {p[0]}, p[1..])
  {
    forall x ensures x in s - {p[0]} <==> x in Elements(p[1..]) {
      if x in Elements(p[1..]) {
        var i :| 0 <= i < |p[1..]| && p[1..][i] == x;
        assert Less(p[0], p[i + 1]);
        LessAsymmetric(p[0], x);
        assert p[i + 1] in Elements(p);
      }
      if x in s && x != p[0] {
        var i :| 0 <= i < |p| && p[i] == x;
        assert p[1..][i - 1] == x;
      }
    }
  }

  lemma SortedGrows(s: set<string>, q: seq<string>, x: string)
    requires IsSorted(s, q) && forall y | y in s :: Less(y, x)
    ensures IsSorted(s + {x}, q + [x])
  {
    ElementsAppend(q, [x]);
    forall i | 0 <= i < |q| ensures Less(q[i], x) { assert q[i] in Elements(q); }
  }

  /** `sorted(s)` */
  method SortNames(s: set<string>) returns (q: seq<string>)
    ensures IsSorted(s, q)
  {
    q := [];
    var taken: set<string> := {};
    while taken != s
      invariant taken <= s && IsSorted(taken, q)
      invariant forall x, y | x in taken && y in s - taken :: Less(x, y)
      decreases |s - taken|
    {
      var least := Least(s - taken);
      SortedGrows(taken, q, least);
      q := q + [least];
      taken := taken + {least};
    }
  }

  method Least(s: set<string>) returns (m: string)
    requires s != {}
    ensures m in s && forall x | x in s && x != m :: Less(m, x)
  {
    m :| m in s;
    var seen := {m};
    while seen != s
      invariant m in seen && seen <= s
      invariant forall x | x in seen && x != m :: Less(m, x)
      decreases |s - seen|
    {
      var x :| x in s - seen;
      LessTotal(m, x);
      if Less(x, m) {
        forall y | y in seen && y != m ensures Less(x, y) { LessTransitive(x, m, y); }
        m := x;
      }
      seen := seen + {x};
    }
  }
}
