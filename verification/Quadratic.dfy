/** The monic quadratic solver of agentic_rag/deterministic_tutor.py, x^2 + bx + c = 0 over the integers. */
module Quadratic {
  import opened Wrappers

  /** Python's Fraction with denominator 1 or 2, in lowest terms. */
  datatype Fraction = Fraction(num: int, den: nat)

  function Half(n: int): (f: Fraction)
    ensures f.den > 0 && f.num * 2 == n * f.den
  {
    if n % 2 == 0 then Fraction(n / 2, 1) else Fraction(n, 2)
  }

  /** math.isqrt */
  function ISqrt(n: nat): (r: nat)
    ensures r * r <= n < (r + 1) * (r + 1)
  {
    if n == 0 then 0
    else
      var r := ISqrt(n - 1);
      if (r + 1) * (r + 1) <= n then r + 1 else r
  }

  /** A printed factor: (x - magnitude) or (x + magnitude). */
  datatype Factor = Factor(minus: bool, magnitude: Fraction)

  function FactorOf(root: Fraction): Factor {
    if root.num >= 0 then Factor(true, root) else Factor(false, Fraction(-root.num, root.den))
  }

  datatype Answer = Answer(roots: seq<Fraction>, factors: seq<Factor>)

  /** _quadratic: the sorted distinct roots and the factors of the printed product. */
  function Solve(b: int, c: int): Option<Answer> {
    var discriminant := b * b - 4 * c;
    if discriminant < 0 then None
    else
      var r := ISqrt(discriminant);
      if r * r != discriminant then None
      else
        var low, high := Half(-b - r), Half(-b + r);
        if low == high then Some(Answer([low], [FactorOf(low), FactorOf(low)]))
        else Some(Answer([low, high], [FactorOf(low), FactorOf(high)]))
  }

  /** p/q is a root, cleared of denominators. */
  ghost predicate IsRoot(b: int, c: int, p: int, q: int) {
    q > 0 && p * p + b * p * q + c * q * q == 0
  }

  // ---- Arithmetic

  lemma EvenSquare(k: int)
    ensures (2 * k) * (2 * k) == 2 * (2 * (k * k))
  {
  }

  lemma OddSquare(k: int)
    ensures (2 * k + 1) * (2 * k + 1) == 2 * (2 * (k * k) + 2 * k) + 1
  {
  }

  lemma SquareParity(x: int) returns (square: int)
    ensures square == x * x && square % 2 == x % 2
  {
    var k := x / 2;
    if x % 2 == 0 {
      EvenSquare(k);
      square := 2 * (2 * (k * k));
    } else {
      OddSquare(k);
      square := 2 * (2 * (k * k) + 2 * k) + 1;
    }
  }

  lemma SameParity(b: int, r: int, bb: int, rr: int, c: int)
    requires bb - 4 * c == rr && bb % 2 == b % 2 && rr % 2 == r % 2
    ensures (-b + r) % 2 == 0 && (-b - r) % 2 == 0
  {
    assert 2 * (bb / 2 - rr / 2 - 2 * c) == rr % 2 - bb % 2;
    assert b % 2 == r % 2;
    assert -b + r == 2 * (r / 2 - b / 2);
    assert -b - r == 2 * (-(r / 2) - b / 2 - b % 2);
  }

  lemma ParityOfRoot(b: int, c: int, r: int)
    requires b * b - 4 * c == r * r
    ensures (-b + r) % 2 == 0 && (-b - r) % 2 == 0
  {
    var bb := SquareParity(b);
    var rr := SquareParity(r);
    SameParity(b, r, bb, rr, c);
  }

  lemma CompleteTheSquare(b: int, c: int, p: int, q: int)
    ensures (2 * p + b * q) * (2 * p + b * q) - (b * b - 4 * c) * (q * q)
            == 4 * (p * p + b * p * q + c * q * q)
  {
    assert (2 * p + b * q) * (2 * p + b * q) == 4 * (p * p) + 4 * (b * p * q) + b * q * (b * q);
    assert b * q * (b * q) == b * b * (q * q);
  }

  lemma Cancel(a: int, b: int, p: int)
    requires p != 0 && a * p == b * p
    ensures a == b
  {
  }

  lemma Spread(d: int, x: int, y: int, z: int)
    ensures d * (x - y + z) == d * x - d * y + d * z
  {
  }

  lemma Descent(m: int, d: int, q: int, k: int)
    requires m * m == d * (q * q)
    ensures (d * q - k * m) * (d * q - k * m) == d * ((m - k * q) * (m - k * q))
  {
    var dq, km := d * q, k * m;
    assert (dq - km) * (dq - km) == dq * dq - 2 * (dq * km) + km * km;
    assert dq * dq == d * (d * (q * q));
    assert km * km == k * k * (m * m);
    assert d * (m * m) == dq * dq;
    assert (m - k * q) * (m - k * q) == m * m - 2 * (m * (k * q)) + k * q * (k * q);
    assert d * (k * q * (k * q)) == k * k * (d * (q * q));
    assert d * (m * (k * q)) == dq * km;
    Spread(d, m * m, 2 * (m * (k * q)), k * q * (k * q));
  }

  /** If an integer is the square of a rational it is the square of an integer, by descent on q. */
  lemma {:induction false} RationalSquareIsInteger(m: int, d: int, q: int) returns (k: int)
    requires q > 0 && m * m == d * (q * q)
    ensures d == k * k
    decreases q
  {
    k := m / q;
    var r := m - k * q;
    assert 0 <= r < q;
    if r == 0 {
      assert m * m == k * k * (q * q);
      Cancel(d, k * k, q * q);
    } else {
      var m' := d * q - k * m;
      Descent(m, d, q, k);
      k := RationalSquareIsInteger(m', d, r);
    }
  }

  lemma SquareOfNegative(k: int)
    ensures (-k) * (-k) == k * k
  {
  }

  lemma Less(a: nat, b: nat)
    requires a < b
    ensures a * a < b * b
  {
    assert b * b == a * a + (b - a) * (b + a);
  }

  /** A square that lies between r squared and the next square is r squared. */
  lemma SquareBetween(d: nat, a: nat, r: nat)
    requires d == a * a && r * r <= d < (r + 1) * (r + 1)
    ensures r * r == d
  {
    if a < r {
      Less(a, r);
    } else if a > r {
      if a > r + 1 {
        Less(r + 1, a);
      }
    }
  }

  lemma SquareHasExactRoot(d: nat, k: int)
    requires d == k * k
    ensures ISqrt(d) * ISqrt(d) == d
  {
    var a := if k < 0 then -k else k;
    SquareOfNegative(k);
    SquareBetween(d, a, ISqrt(d));
  }

  // ---- Soundness and completeness

  lemma SquareNonNegative(x: int)
    ensures x * x >= 0
  {
  }

  lemma DiscriminantIsSquare(b: int, c: int, p: int, q: int, d: int)
    requires IsRoot(b, c, p, q) && d == b * b - 4 * c
    ensures (2 * p + b * q) * (2 * p + b * q) == d * (q * q)
  {
    CompleteTheSquare(b, c, p, q);
  }

  lemma RootMakesItSolve(b: int, c: int, p: int, q: int)
    requires IsRoot(b, c, p, q)
    ensures Solve(b, c).Some?
  {
    hide ISqrt, Half, FactorOf;
    var d := b * b - 4 * c;
    DiscriminantIsSquare(b, c, p, q, d);
    var k := RationalSquareIsInteger(2 * p + b * q, d, q);
    SquareNonNegative(k);
    SquareHasExactRoot(d, k);
  }

  lemma SquareOfSolved(b: int, c: int) returns (r: nat)
    requires Solve(b, c).Some?
    ensures b * b - 4 * c == r * r
  {
    hide ISqrt, Half, FactorOf;
    r := ISqrt(b * b - 4 * c);
  }

  lemma WholeRoot(b: int, c: int, p: int, r: int)
    requires 2 * p == -b + r && b * b - 4 * c == r * r
    ensures IsRoot(b, c, p, 1)
  {
    CompleteTheSquare(b, c, p, 1);
    assert 2 * p + b * 1 == r;
  }

  lemma SolvedHasRoot(b: int, c: int) returns (p: int)
    requires Solve(b, c).Some?
    ensures IsRoot(b, c, p, 1)
  {
    hide Solve, IsRoot;
    var r := SquareOfSolved(b, c);
    ParityOfRoot(b, c, r);
    p := (-b + r) / 2;
    WholeRoot(b, c, p, r);
  }

  /** The solver answers exactly when the equation has a rational root. */
  lemma SolvesIffRational(b: int, c: int)
    ensures Solve(b, c).Some? <==> exists p, q :: IsRoot(b, c, p, q)
  {
    hide Solve, IsRoot;
    if p, q :| IsRoot(b, c, p, q) {
      RootMakesItSolve(b, c, p, q);
    }
    if Solve(b, c).Some? {
      var p := SolvedHasRoot(b, c);
    }
  }

  /** What the solver lists when it answers: integers, in increasing order. */
  lemma RootsAreIntegers(b: int, c: int)
    requires Solve(b, c).Some?
    ensures var roots := Solve(b, c).value.roots;
            1 <= |roots| <= 2 && (forall f <- roots :: f.den == 1)
            && (|roots| == 2 ==> roots[0].num < roots[1].num)
  {
    ParityOfRoot(b, c, ISqrt(b * b - 4 * c));
  }

  lemma SquaresEqual(x: int, y: int)
    ensures x * x == y * y <==> x == y || x == -y
  {
    assert (x - y) * (x + y) == x * x - y * y;
  }

  lemma SquareOfProduct(r: int, q: int)
    ensures r * r * (q * q) == (r * q) * (r * q)
  {
  }

  lemma RootsFormula(b: int, c: int, r: int, p: int, q: int)
    requires b * b - 4 * c == r * r && q > 0
    ensures IsRoot(b, c, p, q) <==> 2 * p + b * q == r * q || 2 * p + b * q == -(r * q)
  {
    var s, t := 2 * p + b * q, r * q;
    CompleteTheSquare(b, c, p, q);
    SquareOfProduct(r, q);
    assert s * s - t * t == 4 * (p * p + b * p * q + c * q * q);
    SquaresEqual(s, t);
  }

  lemma SpreadSum(b: int, r: int, q: int)
    ensures (-b + r) * q == -(b * q) + r * q && (-b - r) * q == -(b * q) - r * q
  {
  }

  lemma Doubled(n: int, q: int, s: int)
    requires 2 * n == s
    ensures 2 * (n * q) == s * q
  {
  }

  /** The rationals that solve the equation are exactly the listed ones. */
  lemma ListsExactlyTheRoots(b: int, c: int, p: int, q: int)
    requires Solve(b, c).Some? && q > 0
    ensures IsRoot(b, c, p, q) <==> exists f <- Solve(b, c).value.roots :: p == f.num * q && f.den == 1
  {
    hide ISqrt, IsRoot, FactorOf;
    var r := ISqrt(b * b - 4 * c);
    var roots := Solve(b, c).value.roots;
    ParityOfRoot(b, c, r);
    RootsFormula(b, c, r, p, q);
    var low, high := Half(-b - r), Half(-b + r);
    Doubled(low.num, q, -b - r);
    Doubled(high.num, q, -b + r);
    SpreadSum(b, r, q);
    assert roots[0] == low && roots[|roots| - 1] == high;
    assert low in roots && high in roots;
    assert forall f <- roots :: f == low || f == high;
  }

  function Value(f: Fraction): real
    requires f.den > 0
  {
    f.num as real / f.den as real
  }

  /** The printed factor at the point x. */
  function FactorAt(f: Factor, x: real): real
    requires f.magnitude.den > 0
  {
    if f.minus then x - Value(f.magnitude) else x + Value(f.magnitude)
  }

  lemma FactorVanishesAtRoot(u: int, x: real)
    ensures FactorAt(FactorOf(Fraction(u, 1)), x) == x - u as real
  {
  }

  lemma Vieta(b: int, c: int, r: int, u: int, v: int)
    requires b * b - 4 * c == r * r && 2 * u == -b - r && 2 * v == -b + r
    ensures u + v == -b && u * v == c
  {
    assert (2 * u) * (2 * v) == (-b - r) * (-b + r);
    assert (-b - r) * (-b + r) == b * b - r * r;
    assert (2 * u) * (2 * v) == 4 * (u * v);
  }

  lemma Expand(u: int, v: int, b: int, c: int, x: real)
    requires u + v == -b && u * v == c
    ensures (x - u as real) * (x - v as real) == x * x + b as real * x + c as real
  {
    assert u as real + v as real == -(b as real);
    assert u as real * v as real == (u * v) as real;
    assert (x - u as real) * (x - v as real) == x * x - (u as real + v as real) * x + u as real * v as real;
  }

  /** The printed product has two factors -- a double root twice -- and expands to the polynomial. */
  lemma ProductExpands(b: int, c: int, x: real)
    requires Solve(b, c).Some?
    ensures var factors := Solve(b, c).value.factors;
            |factors| == 2 && factors[0].magnitude.den == 1 && factors[1].magnitude.den == 1
            && factors[0].magnitude.num >= 0 && factors[1].magnitude.num >= 0
            && FactorAt(factors[0], x) * FactorAt(factors[1], x) == x * x + b as real * x + c as real
  {
    hide ISqrt, FactorAt;
    var r := ISqrt(b * b - 4 * c);
    ParityOfRoot(b, c, r);
    var u, v := (-b - r) / 2, (-b + r) / 2;
    Vieta(b, c, r, u, v);
    Expand(u, v, b, c, x);
    FactorVanishesAtRoot(u, x);
    FactorVanishesAtRoot(v, x);
    var factors := Solve(b, c).value.factors;
    assert factors[0] == FactorOf(Fraction(u, 1)) && factors[1] == FactorOf(Fraction(v, 1));
  }

  /** No printed factor has a negative number in it, and the root 0 is printed with a minus. */
  lemma FactorsArePrinted(b: int, c: int)
    requires Solve(b, c).Some?
    ensures |Solve(b, c).value.factors| == 2
    ensures forall f <- Solve(b, c).value.factors :: f.magnitude.num >= 0 && (f.magnitude.num == 0 ==> f.minus)
  {
    hide ISqrt, Half;
  }
}
