/** Integer helpers shared by the core: the sum that the source computes with
    `reduce`, and `Math.round` applied to a quotient. */
module Aritmetica {
  import opened Listas

  /** Sum of a sequence, folded from the left as `reduce((a, b) => a + b, 0)` does. */
  function Suma(s: seq<int>): int
  {
    if |s| == 0 then 0 else Suma(s[..|s| - 1]) + s[|s| - 1]
  }

  lemma {:induction false} SumaAgregar(s: seq<int>, t: seq<int>)
    ensures Suma(s + t) == Suma(s) + Suma(t)
    decreases |t|
  {
    if |t| == 0 {
      assert s + t == s;
    } else {
      var u := t[..|t| - 1];
      assert (s + t)[..|s + t| - 1] == s + u;
      assert (s + t)[|s + t| - 1] == t[|t| - 1];
      SumaAgregar(s, u);
    }
  }

  lemma {:induction false} SumaActualizar(s: seq<int>, i: nat, x: int)
    requires i < |s|
    ensures Suma(s[i := x]) == Suma(s) - s[i] + x
  {
    if i == |s| - 1 {
      assert s[i := x][..|s| - 1] == s[..|s| - 1];
    } else {
      SumaActualizar(s[..|s| - 1], i, x);
      assert s[i := x][..|s| - 1] == s[..|s| - 1][i := x];
    }
  }

  lemma {:induction false} SumaAgregarUno(s: seq<int>, x: int)
    ensures Suma(s + [x]) == Suma(s) + x
  {
    assert (s + [x])[..|s|] == s;
  }

  /** Deleting position i lowers the sum by exactly the deleted element. */
  lemma {:induction false} SumaSinPosicion(s: seq<int>, i: nat)
    requires i < |s|
    ensures Suma(s[..i] + s[i + 1..]) == Suma(s) - s[i]
  {
    var a, x, c := s[..i], s[i], s[i + 1..];
    assert s == a + ([x] + c);
    assert Suma([x]) == x by { assert [x][..0] == []; }
    calc {
      Suma(s);
      { SumaAgregar(a, [x] + c); }
      Suma(a) + Suma([x] + c);
      { SumaAgregar([x], c); }
      Suma(a) + x + Suma(c);
      { SumaAgregar(a, c); }
      Suma(a + c) + x;
    }
  }

  /** Sums do not depend on the order of the elements. */
  lemma {:induction false} SumaPermutacion(a: seq<int>, b: seq<int>)
    requires multiset(a) == multiset(b)
    ensures Suma(a) == Suma(b)
    decreases |a|
  {
    if |a| == 0 {
      assert |b| == |multiset(b)| == 0;
    } else {
      var x := a[|a| - 1];
      var p := a[..|a| - 1];
      assert a == p + [x];
      assert x in multiset(b);
      var j :| 0 <= j < |b| && b[j] == x;
      var q := b[..j] + b[j + 1..];
      assert multiset(p) == multiset(q) by {
        assert multiset(a) == multiset(p) + multiset([x]);
        assert multiset([x]) == multiset{x};
        MulticonjuntoSinPosicion(b, j);
        assert multiset(p) == multiset(a) - multiset{x};
        assert multiset(q) == multiset(b) - multiset{x};
      }
      SumaPermutacion(p, q);
      SumaSinPosicion(b, j);
      SumaAgregarUno(p, x);
    }
  }

  /** A value below hi exists when the elements are at most hi but their sum is
      short of n*hi. */
  lemma {:induction false} ExisteMenor(s: seq<int>, hi: int)
    requires forall k :: 0 <= k < |s| ==> s[k] <= hi
    requires Suma(s) < |s| * hi
    ensures exists k :: 0 <= k < |s| && s[k] < hi
  {
    if forall k :: 0 <= k < |s| ==> s[k] >= hi {
      SumaAcotada(s, hi, hi);
    }
  }

  /** The successor of a slot when walking n slots circularly. */
  lemma {:induction false} SiguienteCircular(i: int, n: int)
    requires 0 <= i < n
    ensures (i + 1) % n == if i + 1 < n then i + 1 else 0
  {
    if i + 1 < n {
      DivisionUnica(i + 1, n, 0, i + 1);
    } else {
      DivisionUnica(i + 1, n, 1, 0);
    }
  }

  /** n equal elements sum to n times that element. */
  lemma {:induction false} SumaConstante(s: seq<int>, v: int)
    requires forall k :: 0 <= k < |s| ==> s[k] == v
    ensures Suma(s) == |s| * v
  {
    if |s| > 0 {
      SumaConstante(s[..|s| - 1], v);
    }
  }

  /** Elements within [lo, hi] sum to within [n*lo, n*hi], and a sum at either
      end of that range forces every element to that end. */
  lemma {:induction false} SumaAcotada(s: seq<int>, lo: int, hi: int)
    requires forall k :: 0 <= k < |s| ==> lo <= s[k] <= hi
    ensures |s| * lo <= Suma(s) <= |s| * hi
    ensures Suma(s) == |s| * lo ==> forall k :: 0 <= k < |s| ==> s[k] == lo
    ensures Suma(s) == |s| * hi ==> forall k :: 0 <= k < |s| ==> s[k] == hi
  {
    if |s| > 0 {
      var p := s[..|s| - 1];
      SumaAcotada(p, lo, hi);
      assert |s| * lo == |p| * lo + lo && |s| * hi == |p| * hi + hi;
      if Suma(s) == |s| * lo {
        assert s[|s| - 1] == lo && Suma(p) == |p| * lo;
        forall k | 0 <= k < |s| ensures s[k] == lo {
          if k < |p| { assert s[k] == p[k]; }
        }
      }
      if Suma(s) == |s| * hi {
        assert s[|s| - 1] == hi && Suma(p) == |p| * hi;
        forall k | 0 <= k < |s| ensures s[k] == hi {
          if k < |p| { assert s[k] == p[k]; }
        }
      }
    }
  }

  /** `Math.round(a / b)` for integers: the integer nearest to the quotient,
      halves rounded towards +infinity. */
  function RedondearCociente(a: int, b: int): (r: int)
    requires b != 0
    ensures b > 0 ==> 2 * r * b - b <= 2 * a < 2 * r * b + b
    ensures b < 0 ==> 2 * r * b + b < 2 * a <= 2 * r * b - b
  {
    if b > 0 then
      var q := (2 * a + b) / (2 * b);
      assert 2 * a + b == 2 * b * q + (2 * a + b) % (2 * b);
      q
    else
      var q := (-2 * a - b) / (-2 * b);
      assert -2 * a - b == -2 * b * q + (-2 * a - b) % (-2 * b);
      q
  }

  /** A non-zero multiple of d is at least d away from zero. */
  lemma {:induction false} MultiploAlejado(d: int, k: int)
    requires d > 0
    ensures k >= 1 ==> d * k >= d
    ensures k <= -1 ==> d * k <= -d
  {
    if k >= 1 {
      assert d * k == d * (k - 1) + d;
    } else if k <= -1 {
      assert d * k == d * (k + 1) - d;
    }
  }

  /** Integer division is determined by any quotient/remainder pair with the
      remainder in range. */
  lemma {:induction false} DivisionUnica(x: int, d: int, q: int, m: int)
    requires d > 0 && 0 <= m < d && x == d * q + m
    ensures x / d == q && x % d == m
  {
    var q', m' := x / d, x % d;
    assert d * (q - q') == m' - m;
    MultiploAlejado(d, q - q');
  }

  /** When the division is exact the rounding is the exact quotient. */
  lemma {:induction false} RedondearExacto(a: int, b: int)
    requires b != 0 && a % b == 0
    ensures RedondearCociente(a, b) * b == a
  {
    var q := a / b;
    assert a == b * q;
    if b > 0 {
      assert 2 * a + b == (2 * b) * q + b;
      DivisionUnica(2 * a + b, 2 * b, q, b);
    } else {
      assert -2 * a - b == (-2 * b) * q + (-b);
      DivisionUnica(-2 * a - b, -2 * b, q, -b);
    }
  }
}
