/** What the suspicion level of the failure detector measures, and what its operations make of it. */
module Deviation {
  import opened Messages
  import opened Heartbeat

  function Product(x: real, y: real): real {
    x * y
  }

  function SumOfSquares(s: seq<real>): real {
    if s == [] then 0.0 else SumOfSquares(s[..|s| - 1]) + Product(s[|s| - 1], s[|s| - 1])
  }

  lemma QuotientTimes(x: real, n: real)
    requires n != 0.0
    ensures Product(n, Quotient(x, n)) == x
  {
  }

  lemma SquareOf(x: real, m: real)
    ensures Square(x - m) == Product(x, x) - 2.0 * Product(m, x) + Product(m, m)
  {
  }

  lemma Distributes(m: real, a: real, b: real)
    ensures Product(m, a + b) == Product(m, a) + Product(m, b)
  {
  }

  lemma OneMore(n: nat, x: real)
    ensures Product((n + 1) as real, x) == Product(n as real, x) + x
  {
  }

  lemma {:induction false} ErrorsExpanded(s: seq<real>, m: real)
    ensures SquaredErrors(s, m)
         == SumOfSquares(s) - 2.0 * Product(m, Sum(s)) + Product(|s| as real, Product(m, m))
  {
    if s == [] {
      Zero(m);
    } else {
      hide Square, Product;
      var front, x := s[..|s| - 1], s[|s| - 1];
      ErrorsExpanded(front, m);
      SquareOf(x, m);
      Distributes(m, Sum(front), x);
      OneMore(|front|, Product(m, m));
    }
  }

  lemma Zero(m: real)
    ensures Product(m, 0.0) == 0.0 && Product(0.0, Product(m, m)) == 0.0
  {
  }

  lemma Regroup(m: real, n: real)
    ensures Product(m, Product(n, m)) == Product(n, Product(m, m))
  {
  }

  /** The mean, and the deviation, as a statistician would define them but for the 10^-9 that keeps it off zero. */
  lemma {:induction false} DeviationOfWindow(c: Config, s: seq<real>)
    requires Sane(c) && s != []
    ensures var n, m, sigma := |s| as real, Mean(s), Sigma(c, s);
      && Product(n, m) == Sum(s)
      && Product(n, Product(sigma, sigma) - 0.000_000_001) == SumOfSquares(s) - Product(n, Product(m, m))
  {
    var n, m := |s| as real, Mean(s);
    QuotientTimes(Sum(s), n);
    QuotientTimes(SquaredErrors(s, m), n);
    ErrorsExpanded(s, m);
    Regroup(m, n);
    RootSquared(c, s);
    hide Product, Quotient, SquaredErrors, SumOfSquares, Sum, Sigma, Sane;
  }

  lemma RootSquared(c: Config, s: seq<real>)
    requires Sane(c) && s != []
    ensures Product(Sigma(c, s), Sigma(c, s)) - 0.000_000_001 == Quotient(SquaredErrors(s, Mean(s)), |s| as real)
  {
    hide Quotient, SquaredErrors, Mean;
    VarianceNotNegative(s);
  }

  lemma VarianceNotNegative(s: seq<real>)
    requires s != []
    ensures Quotient(SquaredErrors(s, Mean(s)), |s| as real) >= 0.0
  {
    hide Mean, SquaredErrors;
    SquaredErrorsNotNegative(s, Mean(s));
    NotNegativeQuotient(SquaredErrors(s, Mean(s)), |s|);
  }

  /** The same in plain arithmetic. */
  lemma {:induction false} DeviationInPlain(c: Config, s: seq<real>)
    requires Sane(c) && s != []
    ensures var n, m := |s| as real, Mean(s);
      && n * m == Sum(s)
      && n * (Sigma(c, s) * Sigma(c, s) - 0.000_000_001) == SumOfSquares(s) - n * (m * m)
  {
    hide Sigma, Mean, Sum, SumOfSquares, Sane;
    DeviationOfWindow(c, s);
  }

  /** So the level is the tail of the delay counted in deviations from the mean, whichever these are. */
  lemma {:induction false} LevelOfWindow(c: Config, s: seq<real>, elapsed: real, m: real, sigma: real)
    requires Sane(c) && s != [] && sigma > 0.0 && Product(|s| as real, m) == Sum(s)
    requires Product(|s| as real, Product(sigma, sigma) - 0.000_000_001)
          == SumOfSquares(s) - Product(|s| as real, Product(m, m))
    ensures Level(c, s, elapsed) == c.tail((elapsed - m) / sigma)
  {
    hide Product, SumOfSquares, Sum, Sigma, Mean, Sane;
    DeviationOfWindow(c, s);
    SigmaPositive(c, s);
    SameFactor(|s| as real, m, Mean(s));
    SameFactor(|s| as real, Product(sigma, sigma) - 0.000_000_001, Product(Sigma(c, s), Sigma(c, s)) - 0.000_000_001);
    SameRoot(sigma, Sigma(c, s));
  }

  lemma SameFactor(n: real, x: real, y: real)
    requires n > 0.0 && Product(n, x) == Product(n, y)
    ensures x == y
  {
    assert n * (x - y) == 0.0;
  }

  lemma SameRoot(x: real, y: real)
    requires x > 0.0 && y > 0.0 && Product(x, x) == Product(y, y)
    ensures x == y
  {
    assert (x - y) * (x + y) == 0.0;
  }

  // ----- an uneven window

  function Times(s: seq<real>, x: real): nat {
    if s == [] then 0 else Times(s[..|s| - 1], x) + if s[|s| - 1] == x then 1 else 0
  }

  ghost predicate Either(s: seq<real>, x: real, y: real) {
    forall i | 0 <= i < |s| :: s[i] == x || s[i] == y
  }

  lemma {:induction false} SumsOfTwo(s: seq<real>, x: real, y: real)
    requires x != y && Either(s, x, y)
    ensures |s| == Times(s, x) + Times(s, y)
    ensures Sum(s) == Product(Times(s, x) as real, x) + Product(Times(s, y) as real, y)
    ensures SumOfSquares(s)
         == Product(Times(s, x) as real, Product(x, x)) + Product(Times(s, y) as real, Product(y, y))
  {
    if s == [] {
      Nothing(x);
      Nothing(y);
    } else {
      hide Product;
      SumsOfTwo(s[..|s| - 1], x, y);
      OneMore(Times(s[..|s| - 1], x), x);
      OneMore(Times(s[..|s| - 1], y), y);
      OneMore(Times(s[..|s| - 1], x), Product(x, x));
      OneMore(Times(s[..|s| - 1], y), Product(y, y));
    }
  }

  lemma Nothing(x: real)
    ensures Product(0.0, x) == 0.0 && Product(0.0, Product(x, x)) == 0.0
  {
  }

  /** Intervals as often d above a as d below it have a mean of a and a deviation of d. */
  lemma {:induction false} LevelOfUnevenWindow(c: Config, s: seq<real>, elapsed: real, a: real, d: real)
    requires Sane(c) && s != [] && d > 0.0 && Either(s, a - d, a + d) && Times(s, a - d) == Times(s, a + d)
    ensures Level(c, s, elapsed) == c.tail((elapsed - a) / c.root(d * d + 0.000_000_001))
  {
    hide Product, SumOfSquares, Sum, Times, Level, Either;
    SumsOfTwo(s, a - d, a + d);
    BothSides(Times(s, a - d), a, d);
    RootOf(c, d);
    LevelOfWindow(c, s, elapsed, a, c.root(d * d + 0.000_000_001));
  }

  lemma RootOf(c: Config, d: real)
    requires Sane(c) && d > 0.0
    ensures var sigma := c.root(d * d + 0.000_000_001);
      sigma > 0.0 && Product(sigma, sigma) - 0.000_000_001 == Product(d, d)
  {
    NotNegativeSquare(d);
  }

  lemma BothSides(k: nat, a: real, d: real)
    ensures var n := (k + k) as real;
      && Product(k as real, a - d) + Product(k as real, a + d) == Product(n, a)
      && Product(k as real, Product(a - d, a - d)) + Product(k as real, Product(a + d, a + d))
           - Product(n, Product(a, a)) == Product(n, Product(d, d))
  {
    assert (a - d) * (a - d) == a * a - 2.0 * (a * d) + d * d;
    assert (a + d) * (a + d) == a * a + 2.0 * (a * d) + d * d;
    Distributes(k as real, a * a - 2.0 * (a * d) + d * d, a * a + 2.0 * (a * d) + d * d);
  }

  // ----- operations

  /** A fresh record: seen now, alive, and with eight intervals as expected. */
  lemma FreshRecord(c: Config, id: WorkerId, now: real)
    ensures var r := Fresh(c, id, now);
      && r.id == id && r.lastSeen == now && r.state == Alive && r.phi == 0.0 && r.beats == 0
      && |r.intervals| == 8 && forall i | 0 <= i < 8 :: r.intervals[i] == c.intervalMs as real
  {
  }

  /** After a beat the worker is alive and above suspicion, and its silence counts from now. */
  lemma BeatClears(c: Config, r: Record, now: real)
    ensures var t := After(c, r, [Beat(now)]);
      && t.id == r.id && t.lastSeen == now && t.state == Alive && t.phi == 0.0 && t.beats == r.beats + 1
      && (r.beats == 0 ==> t.intervals == r.intervals)
      && (r.beats > 0 ==>
            && t.intervals != [] && t.intervals[|t.intervals| - 1] == now - r.lastSeen
            && (|r.intervals| < 16 ==> t.intervals == r.intervals + [now - r.lastSeen])
            && (|r.intervals| >= 16 ==> t.intervals == r.intervals[1..] + [now - r.lastSeen]))
  {
    assert [Beat(now)][..0] == [];
  }

  /**
   A check of a worker that has not failed: failed at the threshold or after the timeout, suspected from half of
   the threshold on, alive below; and nothing else about the record changes.
   */
  lemma {:induction false} CheckDecides(c: Config, r: Record, first: real, second: real)
    requires !r.state.Failed?
    ensures var t := After(c, r, [Check(first, second)]);
      var phi := Level(c, r.intervals, first - r.lastSeen);
      && t.(phi := r.phi, state := r.state) == r && t.phi == phi
      && (t.state == Failed <==> phi >= c.threshold || second - r.lastSeen > c.timeoutMs as real)
      && (t.state == Suspected <==> t.state != Failed && 2.0 * phi >= c.threshold)
      && (t.state == Alive <==> t.state != Failed && 2.0 * phi < c.threshold)
  {
    hide Level;
    assert [Check(first, second)][..0] == [];
  }
}
