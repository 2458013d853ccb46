/** Small result types shared by every module. */
module Wrappers {
  datatype Option<+T> = None | Some(value: T) {
    function GetOr(default: T): T {
      if Some? then value else default
    }
  }

  datatype Result<+T, +E> = Ok(value: T) | Err(error: E)
}

/** Exact real arithmetic: the few nonlinear facts the money and weight proofs need. */
module Reals {
  function Min(a: real, b: real): (r: real)
    ensures r <= a && r <= b && (r == a || r == b)
  {
    if a <= b then a else b
  }

  function Max(a: real, b: real): (r: real)
    ensures a <= r && b <= r && (r == a || r == b)
  {
    if a >= b then a else b
  }

  function Abs(x: real): (r: real)
    ensures 0.0 <= r && (r == x || r == -x)
  {
    if x < 0.0 then -x else x
  }

  lemma ProductNonNegative(a: real, b: real)
    requires 0.0 <= a && 0.0 <= b
    ensures 0.0 <= a * b
  {
  }

  lemma ProductMonotone(a: real, b: real, c: real)
    requires a <= b && 0.0 <= c
    ensures a * c <= b * c
  {
    ProductNonNegative(b - a, c);
  }

  lemma ProductStrict(a: real, b: real, c: real)
    requires a < b && 0.0 < c
    ensures a * c < b * c
  {
  }

  lemma QuotientTimes(a: real, b: real)
    requires b != 0.0
    ensures a / b * b == a
  {
  }
}

/** Sums of a real-valued function over a finite set of keys. */
module Sums {
  ghost function Sum<K(!new)>(s: set<K>, f: K -> real): real {
    if s == {} then 0.0 else
      var k :| k in s;
      f(k) + Sum(s - {k}, f)
  }

  /** The sum does not depend on which key is taken out first. */
  lemma {:induction false} SumRemove<K(!new)>(s: set<K>, k: K, f: K -> real)
    requires k in s
    ensures Sum(s, f) == f(k) + Sum(s - {k}, f)
    decreases |s|
  {
    var j :| j in s && Sum(s, f) == f(j) + Sum(s - {j}, f);
    if j != k {
      SumRemove(s - {j}, k, f);
      SumRemove(s - {k}, j, f);
      assert s - {j} - {k} == s - {k} - {j};
    }
  }

  lemma SumAdd<K(!new)>(s: set<K>, k: K, f: K -> real)
    requires k !in s
    ensures Sum(s + {k}, f) == Sum(s, f) + f(k)
  {
    SumRemove(s + {k}, k, f);
    assert s + {k} - {k} == s;
  }

  lemma {:induction false} SumUnion<K(!new)>(s: set<K>, t: set<K>, f: K -> real)
    requires s !! t
    ensures Sum(s + t, f) == Sum(s, f) + Sum(t, f)
    decreases |s|
  {
    if s == {} {
      assert s + t == t;
    } else {
      var k :| k in s;
      SumRemove(s, k, f);
      SumRemove(s + t, k, f);
      assert s + t - {k} == (s - {k}) + t;
      SumUnion(s - {k}, t, f);
    }
  }

  lemma {:induction false} SumMonotone<K(!new)>(s: set<K>, f: K -> real, g: K -> real)
    requires forall k <- s :: f(k) <= g(k)
    ensures Sum(s, f) <= Sum(s, g)
    decreases |s|
  {
    if s != {} {
      var k :| k in s;
      SumRemove(s, k, f);
      SumRemove(s, k, g);
      SumMonotone(s - {k}, f, g);
    }
  }

  lemma SumCongruent<K(!new)>(s: set<K>, f: K -> real, g: K -> real)
    requires forall k <- s :: f(k) == g(k)
    ensures Sum(s, f) == Sum(s, g)
  {
    SumMonotone(s, f, g);
    SumMonotone(s, g, f);
  }

  lemma {:induction false} SumPlus<K(!new)>(s: set<K>, f: K -> real, g: K -> real, h: K -> real)
    requires forall k <- s :: h(k) == f(k) + g(k)
    ensures Sum(s, h) == Sum(s, f) + Sum(s, g)
    decreases |s|
  {
    if s != {} {
      var k :| k in s;
      SumRemove(s, k, f);
      SumRemove(s, k, g);
      SumRemove(s, k, h);
      SumPlus(s - {k}, f, g, h);
    }
  }

  function Times(c: real, x: real): real { c * x }

  lemma TimesDistributes(c: real, a: real, b: real)
    ensures Times(c, a + b) == Times(c, a) + Times(c, b) && Times(c, 0.0) == 0.0
  {
  }

  lemma TimesOne(c: real)
    ensures Times(c, 1.0) == c
  {
  }

  lemma {:induction false} SumScale<K(!new)>(s: set<K>, c: real, g: K -> real, h: K -> real)
    requires forall k <- s :: h(k) == Times(c, g(k))
    ensures Sum(s, h) == Times(c, Sum(s, g))
    decreases |s|
  {
    hide Times;
    if s == {} {
      TimesDistributes(c, 0.0, 0.0);
    } else {
      var k :| k in s;
      SumScale(s - {k}, c, g, h);
      SumRemove(s, k, g);
      SumRemove(s, k, h);
      TimesDistributes(c, g(k), Sum(s - {k}, g));
    }
  }

  /** Renaming the keys by an injective function keeps the sum. */
  lemma {:induction false} SumReindex<A(!new), B(!new)>(
    s: set<A>, r: A -> B, image: set<B>, f: B -> real, g: A -> real)
    requires image == set a | a in s :: r(a)
    requires forall a, b :: a in s && b in s && r(a) == r(b) ==> a == b
    requires forall a <- s :: g(a) == f(r(a))
    ensures Sum(image, f) == Sum(s, g)
    decreases |s|
  {
    if s != {} {
      var k :| k in s;
      SumRemove(s, k, g);
      SumRemove(image, r(k), f);
      SumReindex(s - {k}, r, image - {r(k)}, f, g);
    }
  }

  lemma {:induction false} SumBound<K(!new)>(s: set<K>, f: K -> real, c: real)
    requires forall k <- s :: f(k) <= c
    ensures Sum(s, f) <= c * |s| as real
    decreases |s|
  {
    if s != {} {
      var k :| k in s;
      SumRemove(s, k, f);
      SumBound(s - {k}, f, c);
      var n := |s - {k}| as real;
      assert |s| as real == n + 1.0 && c * (n + 1.0) == c * n + c;
    }
  }

  lemma {:induction false} SumConstant<K(!new)>(s: set<K>, f: K -> real, c: real)
    requires forall k <- s :: f(k) == c
    ensures Sum(s, f) == Times(c, |s| as real)
    decreases |s|
  {
    hide Times;
    TimesDistributes(c, |s| as real - 1.0, 1.0);
    TimesOne(c);
    if s != {} {
      var k :| k in s;
      SumRemove(s, k, f);
      SumConstant(s - {k}, f, c);
      assert |s| as real - 1.0 == |s - {k}| as real;
    }
  }

  /** A pointwise bound with an extra allowance on some of the keys. */
  lemma {:induction false} SumAllowance<K(!new)>(
    s: set<K>, h: K -> real, f: K -> real, g: K -> real, kept: set<K>, extra: K -> real)
    requires kept <= s
    requires forall k <- s :: h(k) <= f(k) + g(k) + (if k in kept then extra(k) else 0.0)
    ensures Sum(s, h) <= Sum(s, f) + Sum(s, g) + Sum(kept, extra)
    decreases |s|
  {
    if s != {} {
      var k :| k in s;
      SumRemove(s, k, h);
      SumRemove(s, k, f);
      SumRemove(s, k, g);
      SumAllowance(s - {k}, h, f, g, kept - {k}, extra);
      if k in kept {
        SumRemove(kept, k, extra);
      } else {
        assert kept - {k} == kept;
      }
    }
  }

  lemma {:induction false} SumNonNegative<K(!new)>(s: set<K>, f: K -> real)
    requires forall k <- s :: 0.0 <= f(k)
    ensures 0.0 <= Sum(s, f)
    ensures forall k <- s :: f(k) <= Sum(s, f)
    decreases |s|
  {
    if s != {} {
      var k :| k in s;
      SumRemove(s, k, f);
      SumNonNegative(s - {k}, f);
    }
  }

  lemma SumNothing<K(!new)>(s: set<K>, f: K -> real)
    requires forall k <- s :: f(k) == 0.0
    ensures Sum(s, f) == 0.0
  {
    SumBound(s, f, 0.0);
    SumNonNegative(s, f);
  }
}

/** Python's ordering of text, character by character. */
module TextOrder {
  predicate Before(a: string, b: string) {
    b != "" && (a == "" || a[0] < b[0] || (a[0] == b[0] && Before(a[1..], b[1..])))
  }

  lemma {:induction false} Trichotomy(a: string, b: string)
    ensures a == b || Before(a, b) || Before(b, a)
  {
    if a != "" && b != "" && a[0] == b[0] {
      Trichotomy(a[1..], b[1..]);
      assert a == [a[0]] + a[1..] && b == [b[0]] + b[1..];
    }
  }

  lemma {:induction false} Transitive(a: string, b: string, c: string)
    requires Before(a, b) && Before(b, c)
    ensures Before(a, c)
  {
    if a != "" && a[0] == b[0] && b[0] == c[0] {
      Transitive(a[1..], b[1..], c[1..]);
    }
  }

  lemma {:induction false} Irreflexive(a: string)
    ensures !Before(a, a)
  {
    if a != "" {
      Irreflexive(a[1..]);
    }
  }

  /** Not coming after is a total order. */
  lemma NotBeforeIsTotal(a: string, b: string)
    ensures !Before(b, a) || !Before(a, b)
  {
    Irreflexive(a);
    if Before(b, a) && Before(a, b) { Transitive(a, b, a); }
  }

  lemma NotBeforeIsTransitive(a: string, b: string, c: string)
    requires !Before(b, a) && !Before(c, b)
    ensures !Before(c, a)
  {
    Trichotomy(a, b);
    Trichotomy(b, c);
    if Before(c, a) && a != b { Transitive(c, a, b); }
  }
}
