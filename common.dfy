/** Failure-carrying wrappers and the small pieces of integer arithmetic that
    every part of the layout resolver shares. */
module Common {

  datatype Option<+T> = None | Some(value: T)

  datatype Result<+T, +E> = Ok(value: T) | Err(error: E)

  function Max(a: nat, b: nat): nat
  {
    if a < b then b else a
  }

  /** Number of whole bytes needed to hold `bits` bits. */
  function CeilDiv8(bits: nat): (r: nat)
    ensures bits <= 8 * r < bits + 8
  {
    (bits + 7) / 8
  }

  /** Alignments on this ABI are powers of two. */
  predicate PowerOfTwo(n: nat)
    decreases n
  {
    n == 1 || (n >= 2 && n % 2 == 0 && PowerOfTwo(n / 2))
  }

  /** The smallest multiple of `a` that is at least `x`. */
  function AlignUp(x: nat, a: nat): (r: nat)
    requires a > 0
    ensures r % a == 0
    ensures x <= r < x + a
  {
    if x % a == 0 then x
    else
      var q := x / a;
      assert x + (a - x % a) == a * (q + 1);
      MulMod(a, q + 1);
      x + (a - x % a)
  }

  /** `AlignUp` is the only value with the properties its contract lists. */
  lemma AlignUpUnique(x: nat, a: nat, r: nat)
    requires a > 0 && r % a == 0 && x <= r < x + a
    ensures r == AlignUp(x, a)
  {
    var u := AlignUp(x, a);
    if r < u {
      MultiplesApart(r, u, a);
    } else if u < r {
      MultiplesApart(u, r, a);
    }
  }

  lemma MulAtLeast(a: nat, m: nat)
    requires m >= 1
    ensures a * m >= a
  {
    if m > 1 {
      MulAtLeast(a, m - 1);
      assert a * m == a * (m - 1) + a;
    }
  }

  /** Euclidean division has exactly one quotient and remainder. */
  lemma DivModUnique(n: nat, a: nat, q: nat, r: nat)
    requires a > 0 && r < a && n == a * q + r
    ensures n / a == q && n % a == r
  {
    var q', r' := n / a, n % a;
    assert n == a * q' + r';
    if q > q' {
      MulAtLeast(a, q - q');
    } else if q' > q {
      MulAtLeast(a, q' - q);
    }
  }

  lemma MulMod(a: nat, m: nat)
    requires a > 0
    ensures (a * m) % a == 0
  {
    DivModUnique(a * m, a, m, 0);
  }

  /** Two distinct multiples of `a` are at least `a` apart. */
  lemma MultiplesApart(p: nat, q: nat, a: nat)
    requires a > 0 && p % a == 0 && q % a == 0 && p < q
    ensures p + a <= q
  {
    var i, j := p / a, q / a;
    assert p == a * i && q == a * j;
    if j <= i {
      MulMonotone(a, j, i);
    } else {
      MulAtLeast(a, j - i);
      assert q == p + a * (j - i);
    }
  }

  lemma MulMonotone(a: nat, i: nat, j: nat)
    requires i <= j
    ensures a * i <= a * j
  {
    if i < j {
      MulAtLeast(a, j - i);
      assert a * j == a * i + a * (j - i);
    }
  }

  /** A whole number of elements whose size is a multiple of `a` is a
      multiple of `a`. */
  lemma MulKeepsMultiple(n: nat, s: nat, a: nat)
    requires a > 0 && s % a == 0
    ensures (n * s) % a == 0
  {
    var k := s / a;
    assert s == a * k;
    assert n * s == a * (n * k);
    MulMod(a, n * k);
  }

  /** A sum of two multiples of `a` is a multiple of `a`. */
  lemma AddKeepsMultiple(x: nat, d: nat, a: nat)
    requires a > 0 && x % a == 0 && d % a == 0
    ensures (x + d) % a == 0
  {
    var i, j := x / a, d / a;
    assert x == a * i && d == a * j;
    assert x + d == a * (i + j);
    MulMod(a, i + j);
  }

  /** Divisibility is transitive. */
  lemma DividesTrans(x: nat, b: nat, a: nat)
    requires a > 0 && b > 0 && x % b == 0 && b % a == 0
    ensures x % a == 0
  {
    var i, j := x / b, b / a;
    assert x == b * i && b == a * j;
    assert x == a * (j * i);
    MulMod(a, j * i);
  }

  /** A power of two is at least one. */
  lemma PowerOfTwoPositive(n: nat)
    requires PowerOfTwo(n)
    ensures n >= 1
  {
  }

  /** Of two powers of two, the larger is a multiple of the smaller: this is
      why the maximum of member alignments is a multiple of each of them. */
  lemma {:induction false} PowerOfTwoDivides(a: nat, b: nat)
    requires PowerOfTwo(a) && PowerOfTwo(b) && a <= b
    ensures b % a == 0
  {
    if a != 1 {
      assert b != 1;
      PowerOfTwoDivides(a / 2, b / 2);
      var k := (b / 2) / (a / 2);
      assert b / 2 == (a / 2) * k;
      assert b == a * k;
      MulMod(a, k);
    }
  }
}
