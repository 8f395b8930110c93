/**
 The records a worker ships: differences of its counters, with a sparse histogram of latencies, tagged with the phase and
 the rate of the moment.
*/
module Records {
  import opened Histogram

  datatype Counts = Counts(sent: int, acked: int, errors: int, corrPass: int, corrTotal: int) {
    function Plus(c: Counts): Counts {
      Counts(sent + c.sent, acked + c.acked, errors + c.errors, corrPass + c.corrPass, corrTotal + c.corrTotal)
    }

    function Minus(c: Counts): Counts {
      Counts(sent - c.sent, acked - c.acked, errors - c.errors, corrPass - c.corrPass, corrTotal - c.corrTotal)
    }
  }

  /** Counter by counter, a and c make up whole. */
  predicate MakeUp(a: Counts, c: Counts, whole: Counts) {
    && a.sent + c.sent == whole.sent && a.acked + c.acked == whole.acked && a.errors + c.errors == whole.errors
    && a.corrPass + c.corrPass == whole.corrPass && a.corrTotal + c.corrTotal == whole.corrTotal
  }

  const ZERO := Counts(0, 0, 0, 0, 0)

  /** Of counters that have only grown: nothing was counted. (A round cannot pass without being attempted.) */
  predicate IsNothing(c: Counts) {
    c.sent <= 0 && c.acked <= 0 && c.errors <= 0 && c.corrTotal <= 0
  }

  datatype Record = Record(phase: string, rate: int, delta: Counts, hist: seq<(nat, int)>, ts: real)

  // What samples are tagged with when they are shipped.
  datatype Tag = Tag(phase: string, rate: int)

  // ---------- what has been shipped ----------

  /** What the first k records add up to. */
  function ShippedBy(stream: seq<Record>, k: nat): Counts
    requires k <= |stream|
  {
    if k == 0 then ZERO else ShippedBy(stream, k - 1).Plus(stream[k - 1].delta)
  }

  function Shipped(stream: seq<Record>): Counts {
    ShippedBy(stream, |stream|)
  }

  function ShippedBucket(stream: seq<Record>, b: nat): int {
    if stream == [] then 0 else ShippedBucket(stream[..|stream| - 1], b) + Weight(stream[|stream| - 1].hist, b)
  }

  predicate Credible(c: Counts) {
    0 <= c.acked <= c.sent && 0 <= c.corrPass <= c.corrTotal
  }

  /** At no point of the stream do the records so far claim more acknowledgements than orders, or more passed
      than attempted probe rounds. */
  predicate CredibleStream(stream: seq<Record>) {
    forall k | 0 <= k <= |stream| :: Credible(ShippedBy(stream, k))
  }

  lemma {:induction false} ShippedByPrefix(stream: seq<Record>, rec: Record, k: nat)
    requires k <= |stream|
    ensures ShippedBy(stream + [rec], k) == ShippedBy(stream, k)
  {
    if k > 0 {
      ShippedByPrefix(stream, rec, k - 1);
    }
  }

  lemma ShipOne(stream: seq<Record>, rec: Record)
    ensures Shipped(stream + [rec]) == Shipped(stream).Plus(rec.delta)
    ensures forall b: nat :: ShippedBucket(stream + [rec], b) == ShippedBucket(stream, b) + Weight(rec.hist, b)
    ensures CredibleStream(stream) && Credible(Shipped(stream).Plus(rec.delta)) ==> CredibleStream(stream + [rec])
  {
    var more := stream + [rec];
    assert more[..|stream|] == stream;
    ShippedByPrefix(stream, rec, |stream|);
    if CredibleStream(stream) && Credible(Shipped(stream).Plus(rec.delta)) {
      forall k | 0 <= k <= |more| ensures Credible(ShippedBy(more, k)) {
        if k <= |stream| {
          ShippedByPrefix(stream, rec, k);
        }
      }
    }
  }

  /** Differences of counters over time are not negative, and no round passes without being attempted. */
  predicate Growing(c: Counts) {
    c.sent >= 0 && c.acked >= 0 && c.errors >= 0 && 0 <= c.corrPass <= c.corrTotal
  }

  /** Records ship increments: no counter and no bucket ever goes down. */
  predicate Increments(stream: seq<Record>) {
    forall i | 0 <= i < |stream| :: Growing(stream[i].delta) && InRange(stream[i].hist) && NoneNegative(stream[i].hist)
  }

  /** Each record's histogram holds as many latencies as it reports acknowledgements. */
  predicate Tallied(stream: seq<Record>) {
    forall i | 0 <= i < |stream| :: Total(stream[i].hist) == stream[i].delta.acked
  }

  /** What holds of the stream of any worker. */
  predicate Plausible(stream: seq<Record>) {
    CredibleStream(stream) && Increments(stream) && Tallied(stream)
  }

  predicate NoneNegative(pairs: seq<(nat, int)>) {
    forall b: nat | b < NBUCKETS :: Weight(pairs, b) >= 0
  }

  lemma NothingShipped()
    ensures CredibleStream([]) && Shipped([]) == ZERO
  {
  }

  function Passed(rounds: seq<bool>): (n: int)
    ensures 0 <= n <= |rounds|
  {
    if rounds == [] then 0 else Passed(rounds[..|rounds| - 1]) + if rounds[|rounds| - 1] then 1 else 0
  }

  /** What the probe counts. */
  function ProbeCounts(leader: bool, rounds: seq<bool>): Counts {
    if leader then Counts(0, 0, 0, Passed(rounds), |rounds|) else ZERO
  }

  /** The leader's first record ships all probe rounds; no other record of a worker ships any. */
  predicate Probed(stream: seq<Record>, leader: bool, probe: Counts) {
    forall k | 0 <= k <= |stream| && (leader ==> k > 0) :: SameRounds(ShippedBy(stream, k), probe)
  }

  predicate SameRounds(a: Counts, c: Counts) {
    a.corrPass == c.corrPass && a.corrTotal == c.corrTotal
  }

  lemma ProbedOn(stream: seq<Record>, rec: Record, leader: bool, probe: Counts)
    requires Probed(stream, leader, probe) && rec.delta.corrPass == rec.delta.corrTotal == 0 && (leader ==> stream != [])
    ensures Probed(stream + [rec], leader, probe)
  {
    ShippedByPrefix(stream, rec, |stream|);
    forall k | 0 <= k <= |stream| + 1 && (leader ==> k > 0) ensures SameRounds(ShippedBy(stream + [rec], k), probe) {
      if k <= |stream| {
        ShippedByPrefix(stream, rec, k);
      }
    }
  }

  lemma LostNothing(a: Counts, c: Counts)
    requires Growing(a) && Growing(c)
    ensures Growing(a.Plus(c))
    ensures IsNothing(a.Plus(c)) <==> IsNothing(a) && IsNothing(c)
  {
  }

  // ---------- the latencies behind the histograms ----------

  predicate BackedBy(pairs: seq<(nat, int)>, lat: seq<real>, scale: real -> int) {
    forall b: nat | b < NBUCKETS :: Weight(pairs, b) == InBucket(lat, scale, b)
  }

  /** Each record's histogram counts the latencies told with it. */
  predicate Backed(stream: seq<Record>, told: seq<seq<real>>, scale: real -> int) {
    |told| == |stream| && forall i | 0 <= i < |stream| :: BackedBy(stream[i].hist, told[i], scale)
  }

  function Silent(n: nat): (told: seq<seq<real>>)
    ensures |told| == n && forall i | 0 <= i < n :: told[i] == []
  {
    seq(n, _ => [])
  }

  lemma NoneTold(records: seq<Record>, scale: real -> int)
    requires forall i | 0 <= i < |records| :: records[i].hist == []
    ensures Backed(records, Silent(|records|), scale)
  {
  }

  lemma NoBuckets(records: seq<Record>)
    requires forall i | 0 <= i < |records| :: records[i].hist == []
    ensures forall b: nat :: ShippedBucket(records, b) == 0
  {
    if records != [] {
      NoBuckets(records[..|records| - 1]);
    }
  }
}
