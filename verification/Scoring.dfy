/**
 The score of a run: what its counters, its best throughput and its latency at the reference load are worth. Exact
 reals stand for the floating-point numbers, before rounding for display.
*/
module Scoring {
  import opened Records
  import opened Merging
  import opened Telemetry

  function Correctness(c: Counts): real {
    (if c.corrTotal != 0 then c.corrPass as real / c.corrTotal as real else 1.0)
    * (if c.sent != 0 then c.acked as real / c.sent as real else 1.0)
  }

  /** The weights of the score; the target throughput may be switched off by setting it to zero. */
  datatype Scale = Scale(target: real, reference: real) {
    predicate Ok() {
      target >= 0.0 && reference > 0.0
    }
  }

  function Throughput(peak: real, s: Scale): real {
    if s.target == 0.0 then 0.0 else if peak / s.target < 1.0 then peak / s.target else 1.0
  }

  /** A latency of zero means that none has been measured. */
  function Latency(p99: real, s: Scale): real
    requires s.reference > 0.0
  {
    if p99 > 0.0 then s.reference / (s.reference + p99) else 0.0
  }

  function Performance(peak: real, p99: real, s: Scale): real
    requires s.Ok()
  {
    0.6 * Throughput(peak, s) + 0.4 * Latency(p99, s)
  }

  /** Correctness multiplies the performance. */
  function Weighted(correctness: real, performance: real): real {
    1000.0 * (correctness * performance)
  }

  function Score(c: Counts, peak: real, p99: real, s: Scale): real
    requires s.Ok()
  {
    Weighted(Correctness(c), Performance(peak, p99, s))
  }

  lemma Ratio(a: int, n: int)
    requires 0 <= a <= n && n > 0
    ensures 0.0 <= a as real / n as real <= 1.0
    ensures a as real / n as real == 0.0 <==> a == 0
    ensures a as real / n as real == 1.0 <==> a == n
  {
    assert a as real / n as real * n as real == a as real;
  }

  lemma Product(x: real, y: real)
    requires 0.0 <= x <= 1.0 && 0.0 <= y <= 1.0
    ensures 0.0 <= x * y <= x && x * y <= y
    ensures x * y == 1.0 <==> x == 1.0 && y == 1.0
    ensures x * y == 0.0 <==> x == 0.0 || y == 0.0
  {
  }

  /** Correctness is a fraction; it is full just when every order is acknowledged and every probe round passes, and
      nothing just when all the attempted rounds fail or none of the orders is acknowledged. */
  lemma CorrectnessIsFraction(c: Counts)
    requires Credible(c)
    ensures 0.0 <= Correctness(c) <= 1.0
    ensures Correctness(c) == 1.0 <==> c.acked == c.sent && c.corrPass == c.corrTotal
    ensures Correctness(c) == 0.0 <==> (c.corrTotal > 0 && c.corrPass == 0) || (c.sent > 0 && c.acked == 0)
  {
    if c.corrTotal != 0 {
      Ratio(c.corrPass, c.corrTotal);
    }
    if c.sent != 0 {
      Ratio(c.acked, c.sent);
    }
    Product(if c.corrTotal != 0 then c.corrPass as real / c.corrTotal as real else 1.0,
            if c.sent != 0 then c.acked as real / c.sent as real else 1.0);
  }

  lemma PerformanceInRange(peak: real, p99: real, s: Scale)
    requires s.Ok() && peak >= 0.0
    ensures 0.0 <= Throughput(peak, s) <= 1.0
    ensures 0.0 <= Latency(p99, s) < 1.0
    ensures 0.0 <= Performance(peak, p99, s) < 1.0
  {
    if s.target > 0.0 {
      assert peak / s.target >= 0.0;
    }
    if p99 > 0.0 {
      var l := Latency(p99, s);
      assert l * (s.reference + p99) == s.reference;
    }
  }

  lemma WeightedInRange(x: real, y: real)
    requires 0.0 <= x <= 1.0 && 0.0 <= y < 1.0
    ensures 0.0 <= Weighted(x, y) < 1000.0
  {
    Product(x, y);
  }

  lemma CountsScoreInRange(c: Counts, peak: real, p99: real, s: Scale)
    requires Credible(c) && s.Ok() && peak >= 0.0
    ensures 0.0 <= Correctness(c) <= 1.0 && 0.0 <= Score(c, peak, p99, s) < 1000.0
  {
    assert 0.0 <= Correctness(c) <= 1.0 by {
      CorrectnessIsFraction(c);
    }
    assert 0.0 <= Performance(peak, p99, s) < 1.0 by {
      PerformanceInRange(peak, p99, s);
    }
    WeightedInRange(Correctness(c), Performance(peak, p99, s));
  }

  /** At every point of every interleaving of credible streams the score is at least 0 and less than 1000. */
  lemma ScoreInRange(streams: seq<seq<Record>>, picks: seq<nat>, peak: real, p99: real, s: Scale)
    requires Interleaves(streams, picks) && forall w | 0 <= w < |streams| :: CredibleStream(streams[w])
    requires s.Ok() && peak >= 0.0
    ensures 0.0 <= Correctness(FoldAll(Merged(streams, picks)).counts) <= 1.0
    ensures 0.0 <= Score(FoldAll(Merged(streams, picks)).counts, peak, p99, s) < 1000.0
  {
    AggregateIsCredible(streams, picks);
    CountsScoreInRange(FoldAll(Merged(streams, picks)).counts, peak, p99, s);
  }

  /** An engine that fails every probe round scores nothing, however fast it is. */
  lemma CheatScoresNothing(c: Counts, peak: real, p99: real, s: Scale)
    requires Credible(c) && c.corrTotal > 0 && c.corrPass == 0 && s.Ok()
    ensures Score(c, peak, p99, s) == 0.0
  {
    CorrectnessIsFraction(c);
  }

  lemma Quotients(a: real, x: real, y: real)
    requires a >= 0.0 && 0.0 < x <= y
    ensures a / y <= a / x
  {
    assert a / y * x <= a / y * y == a == a / x * x;
  }

  lemma Fractions(a: real, c: real, x: real)
    requires a <= c && x > 0.0
    ensures a / x <= c / x
  {
    assert a / x * x == a && c / x * x == c;
  }

  lemma WeightedGrows(a: real, x: real, y: real)
    requires a >= 0.0 && x <= y
    ensures Weighted(a, x) <= Weighted(a, y)
  {
    assert a * x <= a * y;
  }

  lemma FasterPerforms(slow: real, peak: real, late: real, p99: real, s: Scale)
    requires s.Ok() && 0.0 <= slow <= peak && 0.0 < p99 <= late
    ensures Throughput(slow, s) <= Throughput(peak, s)
    ensures Latency(late, s) <= Latency(p99, s)
  {
    if s.target > 0.0 {
      Fractions(slow, peak, s.target);
    }
    Quotients(s.reference, s.reference + p99, s.reference + late);
  }

  /** Once a latency has been measured, a lower one and a higher throughput never lower the score. */
  lemma FasterIsBetter(c: Counts, slow: real, peak: real, late: real, p99: real, s: Scale)
    requires Credible(c) && s.Ok() && 0.0 <= slow <= peak && 0.0 < p99 <= late
    ensures Score(c, slow, late, s) <= Score(c, peak, p99, s)
  {
    assert Correctness(c) >= 0.0 by {
      CorrectnessIsFraction(c);
    }
    FasterPerforms(slow, peak, late, p99, s);
    WeightedGrows(Correctness(c), Performance(slow, late, s), Performance(peak, p99, s));
  }

  // ---------- what each part is worth ----------

  /** Rounds passed and orders acknowledged weigh in as a product of two shares; what has not been tried counts in full. */
  lemma CorrectnessIsProduct(c: Counts)
    ensures c.corrTotal != 0 && c.sent != 0 ==>
      Correctness(c) * (c.corrTotal as real * c.sent as real) == c.corrPass as real * c.acked as real
    ensures c.corrTotal != 0 && c.sent == 0 ==> Correctness(c) * c.corrTotal as real == c.corrPass as real
    ensures c.corrTotal == 0 && c.sent != 0 ==> Correctness(c) * c.sent as real == c.acked as real
    ensures c.corrTotal == 0 && c.sent == 0 ==> Correctness(c) == 1.0
  {
    if c.corrTotal != 0 && c.sent != 0 {
      Shares(c.corrPass as real, c.corrTotal as real, c.acked as real, c.sent as real);
    }
  }

  lemma Shares(a: real, m: real, b: real, n: real)
    requires m != 0.0 && n != 0.0
    ensures (a / m) * (b / n) * (m * n) == a * b
  {
    var x, y := a / m, b / n;
    assert x * m == a && y * n == b;
    assert x * y * (m * n) == (x * m) * (y * n);
  }

  lemma WeightedAdds(correctness: real, x: real, y: real)
    ensures Weighted(correctness, x + y) == Weighted(correctness, x) + Weighted(correctness, y)
    ensures Weighted(correctness, x) == 1000.0 * x * correctness
  {
  }

  /** Throughput is worth up to 600 points, in proportion to the target, and no more above it; without a target, nothing. */
  lemma ThroughputWeighs(c: Counts, x: real, p99: real, s: Scale)
    requires s.Ok() && 0.0 <= x
    ensures s.target > 0.0 && x <= 1.0 ==>
      Score(c, x * s.target, p99, s) - Score(c, 0.0, p99, s) == 600.0 * x * Correctness(c)
    ensures s.target > 0.0 && x >= 1.0 ==> Score(c, x * s.target, p99, s) == Score(c, s.target, p99, s)
    ensures s.target == 0.0 ==> Score(c, x, p99, s) == Score(c, 0.0, p99, s)
  {
    if s.target > 0.0 {
      assert x * s.target / s.target == x;
      WeightedAdds(Correctness(c), Performance(0.0, p99, s), 0.6 * Throughput(x * s.target, s));
      WeightedAdds(Correctness(c), 0.6 * Throughput(x * s.target, s), 0.0);
    }
  }

  /** Latency is worth up to 400 points: half of them at the reference latency, and none if no latency was measured. */
  lemma LatencyWeighs(c: Counts, p99: real, s: Scale)
    requires s.Ok()
    ensures p99 > 0.0 ==> Score(c, 0.0, p99, s) * (s.reference + p99) == 400.0 * s.reference * Correctness(c)
    ensures p99 <= 0.0 ==> Score(c, 0.0, p99, s) == 0.0
  {
    WeightedAdds(Correctness(c), Performance(0.0, p99, s), 0.0);
    if p99 > 0.0 {
      var l, sum := Latency(p99, s), s.reference + p99;
      assert l * sum == s.reference;
      assert Performance(0.0, p99, s) == 0.4 * l;
      assert 1000.0 * (0.4 * l) * Correctness(c) * sum == 400.0 * (l * sum) * Correctness(c);
    }
  }
}
