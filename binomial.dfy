/** The binomial-versus-Poisson demo: factorial, choose, the binomial and
    Poisson probability mass functions, and the loop that tabulates both for
    k = 0..maxK.

    `Math.exp(-lambda)` is injected as `expNegLambda`, and the term
    `Math.floor(lambda + 4 * Math.sqrt(lambda) + 10)` as `tail`; form fields
    arrive already parsed, as options. */
module BinomialPoisson {
  import opened Numbers

  // ----- Factorial -----

  /** n!, the reference definition. */
  function Fact(n: nat): (r: nat)
    ensures r >= 1
  {
    if n == 0 then 1 else n * Fact(n - 1)
  }

  /** The value factorial(num) returns: NaN for a negative argument, num! otherwise. */
  function FactorialValue(num: int): (r: Number)
    ensures r.NaN? <==> num < 0
    ensures r.Finite? ==> r.value >= 1.0
    ensures num == 0 ==> r == Finite(1.0)
  {
    if num < 0 then NaN else Finite(Fact(num) as real)
  }

  /** factorial: the sentinel for a negative argument, 1 for zero, and otherwise a
      running product over i = 1..num. */
  method Factorial(num: int) returns (r: Number)
    ensures r == FactorialValue(num)
  {
    if num < 0 {
      return NaN;
    }
    if num == 0 {
      return Finite(1.0);
    }
    var result := 1.0;
    for i := 1 to num + 1
      invariant result == Fact(i - 1) as real
    {
      CastProduct(i, Fact(i - 1));
      result := result * i as real;
    }
    r := Finite(result);
  }

  /** factorial(k) = k · factorial(k - 1) for every positive k. */
  lemma FactorialRecurrence(k: int)
    requires k >= 1
    ensures FactorialValue(k) == Finite(k as real * FactorialValue(k - 1).value)
  {
    CastProduct(k, Fact(k - 1));
  }

  lemma CastProduct(x: int, y: int)
    ensures (x * y) as real == y as real * x as real
  {
  }

  lemma AtLeastOne(b: real, c: real)
    requires b >= 1.0 && c >= 1.0
    ensures b * c >= 1.0
  {
    assert b * c - c == (b - 1.0) * c;
    assert (b - 1.0) * c >= 0.0;
  }

  // ----- Binomial coefficients -----

  /** n choose k by Pascal's rule, an independent definition of the coefficient. */
  function Pascal(n: nat, k: int): nat
  {
    if k < 0 || k > n then 0
    else if k == 0 || k == n then 1
    else Pascal(n - 1, k - 1) + Pascal(n - 1, k)
  }

  /** Within range, every coefficient is at least 1. */
  lemma {:induction false} PascalPositive(n: nat, k: int)
    requires 0 <= k <= n
    ensures Pascal(n, k) >= 1
  {
    if 0 < k < n {
      PascalPositive(n - 1, k);
    }
  }

  /** The coefficient times k!·(n - k)! is n!. */
  lemma {:induction false} PascalFactorials(n: nat, k: nat)
    requires k <= n
    ensures Pascal(n, k) * Fact(k) * Fact(n - k) == Fact(n)
  {
    if 0 < k < n {
      PascalFactorials(n - 1, k - 1);
      PascalFactorials(n - 1, k);
      PascalStep(Pascal(n, k), Pascal(n - 1, k - 1), Pascal(n - 1, k), Fact(k), Fact(k - 1),
                 Fact(n - k), Fact(n - k - 1), Fact(n), Fact(n - 1), n, k);
    }
  }

  /** The arithmetic of one step of PascalFactorials, over plain integers: C(n, k) = C(n-1, k-1) + C(n-1, k) times k!·(n-k)! gives n!. */
  lemma PascalStep(c: int, a: int, b: int, fk: int, fk1: int, fnk: int, fnk1: int,
                   fn: int, fn1: int, n: int, k: int)
    requires c == a + b
    requires fk == k * fk1 && fnk == (n - k) * fnk1 && fn == n * fn1
    requires a * fk1 * fnk == fn1 && b * fk * fnk1 == fn1
    ensures c * fk * fnk == fn
  {
    assert a * fk * fnk == k * (a * fk1 * fnk);
    assert b * fk * fnk == (n - k) * (b * fk * fnk1);
  }

  lemma CastTriple(c: int, a: int, b: int, f: int)
    requires c * a * b == f
    ensures c as real * (a as real) * (b as real) == f as real
  {
  }

  /** The value choose(n, k) returns: factorial(n) / (factorial(k) · factorial(n - k)),
      NaN as soon as one of the three factorials is, that is unless 0 ≤ k ≤ n. */
  function Choose(n: int, k: int): (r: Number)
    ensures r.Finite? <==> 0 <= k <= n
  {
    var a, b, c := FactorialValue(n), FactorialValue(k), FactorialValue(n - k);
    if a.NaN? || b.NaN? || c.NaN? then NaN
    else
      assert b.value * c.value >= 1.0 by { AtLeastOne(b.value, c.value); }
      Finite(a.value / (b.value * c.value))
  }

  /** Within range, choose(n, k) is the positive integer Pascal(n, k). */
  lemma ChooseIsPascal(n: int, k: int)
    requires 0 <= k <= n
    ensures Choose(n, k) == Finite(Pascal(n, k) as real)
    ensures Pascal(n, k) >= 1
  {
    PascalPositive(n, k);
    PascalFactorials(n, k);
    FactorialValues(n, k);
    ChooseOfInts(n, k, Pascal(n, k), Fact(k), Fact(n - k), Fact(n));
  }

  lemma ChooseOfInts(n: int, k: int, p: int, a: int, b: int, f: int)
    requires 0 <= k <= n && a >= 1 && b >= 1 && p * a * b == f
    requires FactorialValue(n) == Finite(f as real) && FactorialValue(k) == Finite(a as real)
    requires FactorialValue(n - k) == Finite(b as real)
    ensures Choose(n, k) == Finite(p as real)
  {
    ExactQuotient(p, a, b, f);
    ChooseValue(n, k, f as real, a as real, b as real);
  }

  /** An exact integer product divides back exactly in the reals. */
  lemma ExactQuotient(p: int, a: int, b: int, f: int)
    requires a >= 1 && b >= 1 && p * a * b == f
    ensures a as real * (b as real) >= 1.0
    ensures f as real / (a as real * (b as real)) == p as real
  {
    AtLeastOne(a as real, b as real);
    CastTriple(p, a, b, f);
    DivideExact(f as real, a as real, b as real, p as real);
  }

  lemma FactorialValues(n: int, k: int)
    requires 0 <= k <= n
    ensures FactorialValue(n) == Finite(Fact(n) as real)
    ensures FactorialValue(k) == Finite(Fact(k) as real)
    ensures FactorialValue(n - k) == Finite(Fact(n - k) as real)
  {
  }

  lemma DivideExact(a: real, b: real, c: real, r: real)
    requires b * c >= 1.0 && r * b * c == a
    ensures a / (b * c) == r
  {
  }

  /** choose(n, k) from the three factorials it divides. */
  lemma ChooseValue(n: int, k: int, a: real, b: real, c: real)
    requires 0 <= k <= n && b * c >= 1.0
    requires FactorialValue(n) == Finite(a) && FactorialValue(k) == Finite(b)
    requires FactorialValue(n - k) == Finite(c)
    ensures Choose(n, k) == Finite(a / (b * c))
  {
  }

  // ----- Probability mass functions -----

  /** x to a natural power, as Math.pow computes it for a non-negative integer exponent. */
  function Pow(x: real, k: nat): real
  {
    if k == 0 then 1.0 else x * Pow(x, k - 1)
  }

  lemma {:induction false} PowNonNegative(x: real, k: nat)
    requires x >= 0.0
    ensures Pow(x, k) >= 0.0
  {
    if k > 0 {
      PowNonNegative(x, k - 1);
      ProductNonNegative(x, Pow(x, k - 1));
    }
  }

  lemma ProductNonNegative(x: real, y: real)
    requires x >= 0.0 && y >= 0.0
    ensures x * y >= 0.0
  {
  }

  lemma {:induction false} PowOne(k: nat)
    ensures Pow(1.0, k) == 1.0
  {
    if k > 0 {
      PowOne(k - 1);
    }
  }

  /** The value binomialPMF(k, n, p) returns: choose(n, k) · p^k · (1 - p)^(n - k), NaN unless 0 ≤ k ≤ n. */
  function BinomialPMF(k: int, n: int, p: real): (r: Number)
    ensures r.Finite? <==> 0 <= k <= n
  {
    match Choose(n, k)
    case NaN => NaN
    case Finite(c) => Finite(c * Pow(p, k) * Pow(1.0 - p, n - k))
  }

  /** With p = 0 all the mass is at k = 0. */
  lemma BinomialAtZero(k: int, n: int)
    requires 0 <= k <= n
    ensures BinomialPMF(k, n, 0.0) == Finite(if k == 0 then 1.0 else 0.0)
  {
    ChooseIsPascal(n, k);
    PowOne(n - k);
  }

  /** With p = 1 all the mass is at k = n. */
  lemma BinomialAtOne(k: int, n: int)
    requires 0 <= k <= n
    ensures BinomialPMF(k, n, 1.0) == Finite(if k == n then 1.0 else 0.0)
  {
    ChooseIsPascal(n, k);
    PowOne(k);
  }

  /** n = 4, p = 0.5: the probability of two successes is 6 · 0.25 · 0.25 = 0.375. */
  lemma FourTrialsExample()
    ensures BinomialPMF(2, 4, 0.5) == Finite(0.375)
  {
    ChooseIsPascal(4, 2);
    assert Pascal(4, 2) == 6 by {
      assert Pascal(2, 1) == 2;
      assert Pascal(3, 1) == 3 && Pascal(3, 2) == 3;
    }
    assert Pow(0.5, 2) == 0.25;
  }

  /** The value poissonPMF(k, lambda) returns, with e^-lambda given: lambda^k · e^-lambda / k!,
      NaN for a negative k. */
  function PoissonPMF(k: int, lam: real, expNegLambda: real): (r: Number)
    ensures r.Finite? <==> k >= 0
  {
    match FactorialValue(k)
    case NaN => NaN
    case Finite(f) => Finite(Pow(lam, k) * expNegLambda / f)
  }

  /** Successive Poisson probabilities differ by the factor lambda / (k + 1). */
  lemma PoissonRecurrence(k: nat, lam: real, expNegLambda: real)
    ensures PoissonPMF(k + 1, lam, expNegLambda).value
         == PoissonPMF(k, lam, expNegLambda).value * lam / (k + 1) as real
  {
    var f, pw := FactorialValue(k).value, Pow(lam, k);
    PoissonValues(k, lam, expNegLambda, f, pw);
    PoissonStep(PoissonPMF(k + 1, lam, expNegLambda).value, PoissonPMF(k, lam, expNegLambda).value,
                pw, f, lam, expNegLambda, (k + 1) as real);
  }

  /** poissonPMF at k and at k + 1, in terms of k! and lambda^k. */
  lemma PoissonValues(k: nat, lam: real, expNegLambda: real, f: real, pw: real)
    requires FactorialValue(k) == Finite(f) && Pow(lam, k) == pw
    ensures f >= 1.0
    ensures PoissonPMF(k, lam, expNegLambda) == Finite(pw * expNegLambda / f)
    ensures PoissonPMF(k + 1, lam, expNegLambda) == Finite(lam * pw * expNegLambda / ((k + 1) as real * f))
  {
    PoissonValue(k, lam, expNegLambda, f, pw);
    FactorialRecurrence(k + 1);
    var f1, pw1 := (k + 1) as real * f, lam * pw;
    assert FactorialValue(k + 1) == Finite(f1);
    assert Pow(lam, k + 1) == pw1;
    PoissonValue(k + 1, lam, expNegLambda, f1, pw1);
  }

  /** poissonPMF(k, lambda) from k! and lambda^k. */
  lemma PoissonValue(k: nat, lam: real, expNegLambda: real, f: real, pw: real)
    requires FactorialValue(k) == Finite(f) && Pow(lam, k) == pw
    ensures PoissonPMF(k, lam, expNegLambda) == Finite(pw * expNegLambda / f)
  {
  }

  lemma PoissonStep(v1: real, v0: real, pw: real, f: real, l: real, e: real, m: real)
    requires m >= 1.0 && f >= 1.0
    requires v1 == l * pw * e / (m * f) && v0 == pw * e / f
    ensures v1 == v0 * l / m
  {
    assert m * f != 0.0 by { AtLeastOne(m, f); }
    assert v1 * (m * f) == l * pw * e;
    assert v0 * f == pw * e;
    assert (v0 * l / m) * (m * f) == (v0 * f) * l;
  }

  // ----- The binomial theorem -----

  /** Term k of the expansion of (p + q)^n: C(n, k) · p^k · q^(n - k), zero outside 0..n. */
  function Term(n: nat, k: int, p: real, q: real): real
  {
    if k < 0 || k > n then 0.0 else Pascal(n, k) as real * Pow(p, k) * Pow(q, n - k)
  }

  /** Row n of the expansion of (p + q)^n: its terms for k = 0..n. */
  function Row(n: nat, p: real, q: real): (t: seq<real>)
    ensures |t| == n + 1
  {
    seq(n + 1, k requires 0 <= k <= n => Term(n, k, p, q))
  }

  /** Term k of row n. */
  lemma RowAt(n: nat, p: real, q: real, k: int)
    requires 0 <= k <= n
    ensures Row(n, p, q)[k] == Term(n, k, p, q)
  {
  }

  /** Row t multiplied by (p + q): p times t moved one place up, plus q times t. */
  function Next(t: seq<real>, p: real, q: real): (e: seq<real>)
    ensures |e| == |t| + 1
  {
    Add(Scale(p, [0.0] + t), Scale(q, t + [0.0]))
  }

  lemma NextFirst(e: seq<real>, t: seq<real>, p: real, q: real)
    requires e == Next(t, p, q) && |t| >= 1
    ensures e[0] == p * 0.0 + q * t[0]
  {
    assert ([0.0] + t)[0] == 0.0 && (t + [0.0])[0] == t[0];
  }

  lemma NextLast(e: seq<real>, t: seq<real>, p: real, q: real)
    requires e == Next(t, p, q) && |t| >= 1
    ensures e[|t|] == p * t[|t| - 1] + q * 0.0
  {
    assert ([0.0] + t)[|t|] == t[|t| - 1] && (t + [0.0])[|t|] == 0.0;
  }

  lemma NextInner(e: seq<real>, t: seq<real>, p: real, q: real, k: nat)
    requires e == Next(t, p, q) && 1 <= k < |t|
    ensures e[k] == p * t[k - 1] + q * t[k]
  {
    assert ([0.0] + t)[k] == t[k - 1] && (t + [0.0])[k] == t[k];
  }

  /** Pascal's rule on rows: row n is row n - 1 multiplied by (p + q). */
  lemma RowRecurrence(n: nat, p: real, q: real)
    requires n >= 1
    ensures Row(n, p, q) == Next(Row(n - 1, p, q), p, q)
  {
    var e, t := Row(n, p, q), Row(n - 1, p, q);
    var r := Next(t, p, q);
    forall k | 0 <= k <= n ensures e[k] == r[k] {
      RecurrenceAt(n, p, q, k, e, t, r);
    }
    assert e == r;
  }

  lemma RecurrenceAt(n: nat, p: real, q: real, k: int, e: seq<real>, t: seq<real>, r: seq<real>)
    requires n >= 1 && 0 <= k <= n
    requires e == Row(n, p, q) && t == Row(n - 1, p, q) && r == Next(t, p, q)
    ensures e[k] == r[k]
  {
    if k == 0 {
      RecurrenceFirst(n, p, q, e, t, r);
    } else if k == n {
      RecurrenceLast(n, p, q, e, t, r);
    } else {
      RecurrenceInner(n, p, q, k, e, t, r);
    }
  }

  lemma RecurrenceFirst(n: nat, p: real, q: real, e: seq<real>, t: seq<real>, r: seq<real>)
    requires n >= 1
    requires e == Row(n, p, q) && t == Row(n - 1, p, q) && r == Next(t, p, q)
    ensures e[0] == r[0]
  {
    TermRule(n, 0, p, q);
    RowAt(n, p, q, 0);
    RowAt(n - 1, p, q, 0);
    NextFirst(r, t, p, q);
    Same(e[0], r[0], Term(n, 0, p, q), Term(n - 1, -1, p, q), Term(n - 1, 0, p, q), 0.0, t[0], p, q);
  }

  lemma RecurrenceLast(n: nat, p: real, q: real, e: seq<real>, t: seq<real>, r: seq<real>)
    requires n >= 1
    requires e == Row(n, p, q) && t == Row(n - 1, p, q) && r == Next(t, p, q)
    ensures e[n] == r[n]
  {
    TermRule(n, n, p, q);
    RowAt(n, p, q, n);
    RowAt(n - 1, p, q, n - 1);
    NextLast(r, t, p, q);
    Same(e[n], r[n], Term(n, n, p, q), Term(n - 1, n - 1, p, q), Term(n - 1, n, p, q), t[n - 1], 0.0, p, q);
  }

  lemma RecurrenceInner(n: nat, p: real, q: real, k: int, e: seq<real>, t: seq<real>, r: seq<real>)
    requires 0 < k < n
    requires e == Row(n, p, q) && t == Row(n - 1, p, q) && r == Next(t, p, q)
    ensures e[k] == r[k]
  {
    TermRule(n, k, p, q);
    RowAt(n, p, q, k);
    RowAt(n - 1, p, q, k - 1);
    RowAt(n - 1, p, q, k);
    NextInner(r, t, p, q, k);
    Same(e[k], r[k], Term(n, k, p, q), Term(n - 1, k - 1, p, q), Term(n - 1, k, p, q), t[k - 1], t[k], p, q);
  }

  /** The arithmetic closing RecurrenceAt, over plain reals: both sides are p·a + q·b. */
  lemma Same(x: real, y: real, t: real, a: real, b: real, a1: real, b1: real, p: real, q: real)
    requires x == t && t == p * a + q * b && a == a1 && b == b1 && y == p * a1 + q * b1
    ensures x == y
  {
  }

  /** (p + q)^n is the sum of row n of its expansion. */
  lemma {:induction false} BinomialTheorem(n: nat, p: real, q: real)
    ensures Sum(Row(n, p, q)) == Pow(p + q, n)
  {
    if n == 0 {
      RowOfZero(p, q);
    } else {
      BinomialTheorem(n - 1, p, q);
      RowRecurrence(n, p, q);
      RowSum(Row(n, p, q), Row(n - 1, p, q), p, q, Pow(p + q, n - 1));
    }
  }

  lemma RowOfZero(p: real, q: real)
    ensures Sum(Row(0, p, q)) == 1.0
  {
    RowAt(0, p, q, 0);
    assert Row(0, p, q)[..0] == [];
  }

  /** A row multiplied by (p + q) sums to (p + q) times its sum st. */
  lemma RowSum(e: seq<real>, t: seq<real>, p: real, q: real, st: real)
    requires e == Next(t, p, q) && Sum(t) == st
    ensures Sum(e) == (p + q) * st
  {
    ShiftedSums(t);
    SumOfShifts(p, q, [0.0] + t, t + [0.0], st);
  }

  /** p times a plus q times b, where a and b both sum to st, sums to (p + q) · st. */
  lemma SumOfShifts(p: real, q: real, a: seq<real>, b: seq<real>, st: real)
    requires |a| == |b| && Sum(a) == st && Sum(b) == st
    ensures Sum(Add(Scale(p, a), Scale(q, b))) == (p + q) * st
  {
    var u, v := Scale(p, a), Scale(q, b);
    var su, sv := Sum(u), Sum(v);
    SumAdd(u, v);
    ScaledSum(p, a, st);
    ScaledSum(q, b, st);
    TheoremStep(su + sv, su, sv, st, p, q);
  }

  lemma ScaledSum(k: real, a: seq<real>, st: real)
    requires Sum(a) == st
    ensures Sum(Scale(k, a)) == k * st
  {
    SumScale(k, a);
  }

  /** The arithmetic closing SumOfShifts, over plain reals: p·st + q·st = (p + q)·st. */
  lemma TheoremStep(s: real, su: real, sv: real, st: real, p: real, q: real)
    requires s == su + sv && su == p * st && sv == q * st
    ensures s == (p + q) * st
  {
  }

  lemma ShiftedSums(t: seq<real>)
    ensures Sum([0.0] + t) == Sum(t)
    ensures Sum(t + [0.0]) == Sum(t)
  {
    SumConcat([0.0], t);
    SumConcat(t, [0.0]);
    assert [0.0][..0] == [];
  }

  /** Pascal's rule on the terms: term k for n is p times term k - 1 plus q times term k for n - 1. */
  lemma TermRule(n: nat, k: int, p: real, q: real)
    requires n >= 1
    ensures Term(n, k, p, q) == p * Term(n - 1, k - 1, p, q) + q * Term(n - 1, k, p, q)
  {
    if k == 0 {
      TermLow(n, p, q);
    } else if k == n {
      TermHigh(n, p, q);
    } else if 0 < k < n {
      TermMiddle(n, k, p, q);
    } else {
      ZeroTerms(Term(n, k, p, q), Term(n - 1, k - 1, p, q), Term(n - 1, k, p, q), p, q);
    }
  }

  lemma ZeroTerms(t: real, a: real, b: real, p: real, q: real)
    requires t == 0.0 && a == 0.0 && b == 0.0
    ensures t == p * a + q * b
  {
  }

  lemma TermLow(n: nat, p: real, q: real)
    requires n >= 1
    ensures Term(n, 0, p, q) == p * Term(n - 1, -1, p, q) + q * Term(n - 1, 0, p, q)
  {
    LowStep(Term(n, 0, p, q), Term(n - 1, -1, p, q), Term(n - 1, 0, p, q), Pascal(n, 0) as real,
            Pascal(n - 1, 0) as real, Pow(p, 0), Pow(q, n), Pow(q, n - 1), p, q);
  }

  /** The arithmetic of TermLow, over plain reals: term 0 of row n is q times term 0 of row n - 1. */
  lemma LowStep(l: real, a: real, b: real, c: real, c1: real, pk: real, qm: real, qm1: real,
                p: real, q: real)
    requires l == c * pk * qm && a == 0.0 && b == c1 * pk * qm1
    requires c == 1.0 && c1 == 1.0 && pk == 1.0 && qm == q * qm1
    ensures l == p * a + q * b
  {
  }

  lemma TermHigh(n: nat, p: real, q: real)
    requires n >= 1
    ensures Term(n, n, p, q) == p * Term(n - 1, n - 1, p, q) + q * Term(n - 1, n, p, q)
  {
    HighStep(Term(n, n, p, q), Term(n - 1, n - 1, p, q), Term(n - 1, n, p, q), Pascal(n, n) as real,
             Pascal(n - 1, n - 1) as real, Pow(p, n), Pow(p, n - 1), Pow(q, 0), p, q);
  }

  /** The arithmetic of TermHigh, over plain reals: term n of row n is p times term n - 1 of row n - 1. */
  lemma HighStep(l: real, a: real, b: real, c: real, c1: real, pk: real, pk1: real, qm: real,
                 p: real, q: real)
    requires l == c * pk * qm && b == 0.0 && a == c1 * pk1 * qm
    requires c == 1.0 && c1 == 1.0 && qm == 1.0 && pk == p * pk1
    ensures l == p * a + q * b
  {
  }

  lemma TermMiddle(n: nat, k: int, p: real, q: real)
    requires 0 < k < n
    ensures Term(n, k, p, q) == p * Term(n - 1, k - 1, p, q) + q * Term(n - 1, k, p, q)
  {
    MiddleStep(Term(n, k, p, q), Term(n - 1, k - 1, p, q), Term(n - 1, k, p, q), Pascal(n, k) as real,
               Pascal(n - 1, k - 1) as real, Pascal(n - 1, k) as real,
               Pow(p, k), Pow(p, k - 1), Pow(q, n - k), Pow(q, n - 1 - k), p, q);
  }

  /** The arithmetic of TermMiddle, over plain reals: Pascal's rule multiplied through by the powers of p and q. */
  lemma MiddleStep(l: real, a: real, b: real, c: real, ca: real, cb: real,
                   pk: real, pk1: real, qm: real, qm1: real, p: real, q: real)
    requires l == c * pk * qm && a == ca * pk1 * qm && b == cb * pk * qm1
    requires c == ca + cb && pk == p * pk1 && qm == q * qm1
    ensures l == p * a + q * b
  {
    assert p * a == ca * pk * qm;
    assert q * b == cb * pk * qm;
  }

  /** The binomial probabilities of 0..m successes in n trials. */
  function BinomialMasses(n: nat, p: real, m: nat): (s: seq<real>)
    requires m <= n
    ensures |s| == m + 1
    ensures forall k :: 0 <= k <= m ==> BinomialPMF(k, n, p) == Finite(s[k])
  {
    seq(m + 1, k requires 0 <= k <= m => BinomialPMF(k, n, p).value)
  }

  /** With q = 1 - p the binomial probabilities are the terms of the expansion. */
  lemma MassIsTerm(n: nat, p: real, k: nat)
    requires k <= n
    ensures BinomialPMF(k, n, p) == Finite(Term(n, k, p, 1.0 - p))
  {
    ChooseIsPascal(n, k);
  }

  /** With q = 1 - p, row n of the expansion lists the binomial probabilities. */
  lemma MassesAreRow(n: nat, p: real)
    ensures BinomialMasses(n, p, n) == Row(n, p, 1.0 - p)
  {
    var lhs, rhs := BinomialMasses(n, p, n), Row(n, p, 1.0 - p);
    forall k | 0 <= k <= n ensures lhs[k] == rhs[k] {
      MassIsTerm(n, p, k);
      RowAt(n, p, 1.0 - p, k);
    }
    assert lhs == rhs;
  }

  /** The binomial probabilities over k = 0..n sum to 1, for every p. */
  lemma BinomialSumsToOne(n: nat, p: real)
    ensures Sum(BinomialMasses(n, p, n)) == 1.0
  {
    MassesAreRow(n, p);
    BinomialTheorem(n, p, 1.0 - p);
    assert p + (1.0 - p) == 1.0;
    PowOne(n);
  }

  /** For 0 ≤ p ≤ 1 every binomial probability is non-negative. */
  lemma MassesNonNegative(n: nat, p: real, m: nat)
    requires 0.0 <= p <= 1.0 && m <= n
    ensures forall k :: 0 <= k <= m ==> BinomialMasses(n, p, m)[k] >= 0.0
  {
    forall k | 0 <= k <= m ensures BinomialMasses(n, p, m)[k] >= 0.0 {
      MassNonNegative(n, p, k);
    }
  }

  lemma MassNonNegative(n: nat, p: real, k: nat)
    requires 0.0 <= p <= 1.0 && k <= n
    ensures BinomialPMF(k, n, p).value >= 0.0
  {
    ChooseIsPascal(n, k);
    PowNonNegative(p, k);
    PowNonNegative(1.0 - p, n - k);
    ProductNonNegative(Pascal(n, k) as real, Pow(p, k));
    ProductNonNegative(Pascal(n, k) as real * Pow(p, k), Pow(1.0 - p, n - k));
  }

  /** For 0 ≤ p ≤ 1 the probabilities of 0..m successes lie in [0, 1] and sum to at most 1. */
  lemma MassesWithinOne(n: nat, p: real, m: nat)
    requires 0.0 <= p <= 1.0 && m <= n
    ensures forall k :: 0 <= k <= m ==> 0.0 <= BinomialMasses(n, p, m)[k] <= 1.0
    ensures Sum(BinomialMasses(n, p, m)) <= 1.0
  {
    var all := BinomialMasses(n, p, n);
    MassesNonNegative(n, p, n);
    MassesNonNegative(n, p, m);
    BinomialSumsToOne(n, p);
    assert BinomialMasses(n, p, m) == all[..m + 1];
    PrefixAtMostSum(all, m + 1);
  }

  // ----- The plot -----

  /** maxK = Math.min(nVal, tail). */
  function MaxK(nVal: int, tail: int): (m: int)
    ensures m <= nVal && m <= tail
    ensures m == nVal || m == tail
  {
    if nVal <= tail then nVal else tail
  }

  /** The three arrays the k-loop fills, and lambda = nVal · pVal. */
  datatype Series = Series(ks: seq<int>, binomial: seq<Number>, poisson: seq<Number>, lam: real)

  /** The guard of plotBinomPoisson: both fields parse, nVal ≥ 1 and 0 ≤ pVal ≤ 1. */
  predicate ValidInput(nIn: Option<int>, pIn: Option<real>)
  {
    nIn.Some? && pIn.Some? && nIn.value >= 1 && 0.0 <= pIn.value <= 1.0
  }

  /** The k values 0..count - 1, in order. */
  function Ks(count: nat): (ks: seq<int>)
    ensures |ks| == count
  {
    if count == 0 then [] else Ks(count - 1) + [count - 1]
  }

  /** binomialPMF(k, n, p) for k = 0..count - 1, in order. */
  function BinomialColumn(count: nat, n: int, p: real): (c: seq<Number>)
    ensures |c| == count
  {
    if count == 0 then [] else BinomialColumn(count - 1, n, p) + [BinomialPMF(count - 1, n, p)]
  }

  /** poissonPMF(k, lambda) for k = 0..count - 1, in order. */
  function PoissonColumn(count: nat, lam: real, expNegLambda: real): (c: seq<Number>)
    ensures |c| == count
  {
    if count == 0 then [] else PoissonColumn(count - 1, lam, expNegLambda) + [PoissonPMF(count - 1, lam, expNegLambda)]
  }

  lemma {:induction false} KsAt(count: nat, i: nat)
    requires i < count
    ensures Ks(count)[i] == i
  {
    if i < count - 1 {
      KsAt(count - 1, i);
    }
  }

  lemma {:induction false} BinomialColumnAt(count: nat, n: int, p: real, i: nat)
    requires i < count
    ensures BinomialColumn(count, n, p)[i] == BinomialPMF(i, n, p)
  {
    if i < count - 1 {
      BinomialColumnAt(count - 1, n, p, i);
    }
  }

  lemma {:induction false} PoissonColumnAt(count: nat, lam: real, expNegLambda: real, i: nat)
    requires i < count
    ensures PoissonColumn(count, lam, expNegLambda)[i] == PoissonPMF(i, lam, expNegLambda)
  {
    if i < count - 1 {
      PoissonColumnAt(count - 1, lam, expNegLambda, i);
    }
  }

  /** The number of passes of the k-loop: maxK + 1, or none when maxK is negative. */
  function Passes(nVal: int, tail: int): (count: nat)
    ensures count == 0 <==> MaxK(nVal, tail) < 0
    ensures count > 0 ==> count == MaxK(nVal, tail) + 1
  {
    if MaxK(nVal, tail) >= 0 then MaxK(nVal, tail) + 1 else 0
  }

  /** The series tabulated for k = 0..maxK. */
  function PlottedSeries(nVal: int, pVal: real, tail: int, expNegLambda: real): (s: Series)
    ensures |s.ks| == |s.binomial| == |s.poisson| == Passes(nVal, tail)
    ensures s.lam == nVal as real * pVal
  {
    var count := Passes(nVal, tail);
    var lam := nVal as real * pVal;
    Series(Ks(count), BinomialColumn(count, nVal, pVal), PoissonColumn(count, lam, expNegLambda), lam)
  }

  /** plotBinomPoisson with the binomial PMF it evidently means to call: nothing is
      drawn for invalid input; otherwise k runs from 0 to maxK and each pass appends
      k and the two probabilities. */
  method PlotBinomPoisson(nIn: Option<int>, pIn: Option<real>, tail: int, expNegLambda: real)
    returns (r: Option<Series>)
    ensures r.Some? <==> ValidInput(nIn, pIn)
    ensures r.Some? ==> r.value == PlottedSeries(nIn.value, pIn.value, tail, expNegLambda)
  {
    if nIn.None? || pIn.None? || nIn.value < 1 || pIn.value < 0.0 || pIn.value > 1.0 {
      return None;
    }
    var nVal, pVal := nIn.value, pIn.value;
    var lam := nVal as real * pVal;
    var maxK := MaxK(nVal, tail);
    var kValues: seq<int> := [];
    var binomVals: seq<Number> := [];
    var poisVals: seq<Number> := [];
    var k := 0;
    while k <= maxK
      invariant 0 <= k <= Passes(nVal, tail)
      invariant kValues == Ks(k) && binomVals == BinomialColumn(k, nVal, pVal)
      invariant poisVals == PoissonColumn(k, lam, expNegLambda)
    {
      kValues := kValues + [k];
      binomVals := binomVals + [BinomialPMF(k, nVal, pVal)];
      poisVals := poisVals + [PoissonPMF(k, lam, expNegLambda)];
      k := k + 1;
    }
    assert k == Passes(nVal, tail);
    assert PlottedSeries(nVal, pVal, tail, expNegLambda)
        == Series(Ks(k), BinomialColumn(k, nVal, pVal), PoissonColumn(k, lam, expNegLambda), lam);
    r := Some(Series(kValues, binomVals, poisVals, lam));
  }

  /** What is tabulated for valid input: every k lies in 0..n, so choose is never
      called out of range and every binomial value is a finite probability in
      [0, 1]; the plotted binomial values sum to at most 1, and to exactly 1 when
      maxK reaches n; the Poisson value at k is defined and equals the recurrence's. */
  lemma PlottedSeriesProperties(nVal: int, pVal: real, tail: int, expNegLambda: real)
    requires nVal >= 1 && 0.0 <= pVal <= 1.0 && tail >= 0
    ensures var s := PlottedSeries(nVal, pVal, tail, expNegLambda);
      |s.ks| == MaxK(nVal, tail) + 1 &&
      (forall i :: 0 <= i < |s.ks| ==> s.ks[i] == i && 0 <= s.ks[i] <= nVal && Choose(nVal, s.ks[i]).Finite?) &&
      (forall i :: 0 <= i < |s.ks| ==> s.binomial[i] == Finite(BinomialMasses(nVal, pVal, MaxK(nVal, tail))[i])) &&
      (forall i :: 0 <= i < |s.ks| ==> 0.0 <= s.binomial[i].value <= 1.0) &&
      (forall i :: 0 <= i < |s.ks| ==> s.poisson[i].Finite?)
    ensures Sum(BinomialMasses(nVal, pVal, MaxK(nVal, tail))) <= 1.0
    ensures tail >= nVal ==> Sum(BinomialMasses(nVal, pVal, MaxK(nVal, tail))) == 1.0
  {
    var s, m := PlottedSeries(nVal, pVal, tail, expNegLambda), MaxK(nVal, tail);
    forall i | 0 <= i <= m
      ensures s.ks[i] == i && s.binomial[i] == BinomialPMF(i, nVal, pVal)
      ensures s.poisson[i] == PoissonPMF(i, s.lam, expNegLambda)
    {
      KsAt(m + 1, i);
      BinomialColumnAt(m + 1, nVal, pVal, i);
      PoissonColumnAt(m + 1, s.lam, expNegLambda, i);
    }
    MassesWithinOne(nVal, pVal, m);
    if tail >= nVal {
      BinomialSumsToOne(nVal, pVal);
    }
  }

  // ----- The script as written -----

  /** The outcome of a click on the plot button. */
  datatype Outcome = NotDrawn | Thrown(error: string) | Drawn(series: Series)

  const BinomPMFUndefined := "ReferenceError: binomPMF is not defined"

  /** plotBinomPoisson as written: the k-loop calls binomPMF, a name the script
      never defines, so the first pass of a non-empty loop throws and nothing is drawn. */
  function PlotBinomPoissonAsWritten(nIn: Option<int>, pIn: Option<real>, tail: int, expNegLambda: real): (o: Outcome)
    ensures o.NotDrawn? <==> !ValidInput(nIn, pIn)
  {
    if !ValidInput(nIn, pIn) then NotDrawn
    else if MaxK(nIn.value, tail) >= 0 then Thrown(BinomPMFUndefined)
    else Drawn(PlottedSeries(nIn.value, pIn.value, tail, expNegLambda))
  }

  /** tail = floor(lambda + 4·sqrt(lambda) + 10) is at least 10, so maxK ≥ 1 and, as
      written, the button never draws: valid input always ends in the ReferenceError. */
  lemma AsWrittenNeverDraws(nIn: Option<int>, pIn: Option<real>, tail: int, expNegLambda: real)
    requires tail >= 10
    ensures PlotBinomPoissonAsWritten(nIn, pIn, tail, expNegLambda)
         == if ValidInput(nIn, pIn) then Thrown(BinomPMFUndefined) else NotDrawn
  {
  }

  /** n = 10, p = 0.5 (lambda = 5, tail = floor(5 + 4·sqrt 5 + 10) = 23): the script as
      written throws, whereas the intended loop tabulates 11 probabilities summing to 1. */
  lemma AsWrittenCounterexample(expNegLambda: real)
    ensures PlotBinomPoissonAsWritten(Some(10), Some(0.5), 23, expNegLambda) == Thrown(BinomPMFUndefined)
    ensures |PlottedSeries(10, 0.5, 23, expNegLambda).ks| == 11
    ensures Sum(BinomialMasses(10, 0.5, MaxK(10, 23))) == 1.0
  {
    PlottedSeriesProperties(10, 0.5, 23, expNegLambda);
  }
}
