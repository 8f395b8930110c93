/**
 The ingester's map from runs to aggregates. A run's start replaces its aggregate; a record of an unknown run creates
 one.
*/
module Ingester {
  import opened Records
  import opened Histogram
  import opened Merging
  import opened Scoring
  import opened Telemetry

  type Run = int

  datatype Message = Start(run: Run) | Sample(run: Run, rec: Record)

  /** The records of a run since its last start. */
  function Received(ms: seq<Message>, run: Run): seq<Record> {
    if ms == [] then [] else
    var before, m := Received(ms[..|ms| - 1], run), ms[|ms| - 1];
    if m.run != run then before else if m.Start? then [] else before + [m.rec]
  }

  /** A run's sheet after a message. */
  function SheetAfter(s: Sheet, m: Message, run: Run): Sheet {
    if m.run != run then s else if m.Start? then NOSHEET else Folded(s, m.rec)
  }


  class Ingester {
    var runs: map<Run, Agg>

    constructor ()
      ensures Valid() && runs == map[]
    {
      runs := map[];
    }

    /** Aggregates share nothing. */
    ghost predicate Valid()
      reads this, runs.Values
    {
      && (forall r | r in runs :: runs[r].Valid())
      && (forall r, q | r in runs && q in runs && r != q :: runs[r] != runs[q] && runs[r].Bins() !! runs[q].Bins())
    }

    ghost function Bins(run: Run): set<RateBin>
      reads this, runs.Values
    {
      if run in runs then runs[run].Bins() else {}
    }

    ghost function SheetOf(run: Run): Sheet
      reads this, runs.Values, Bins(run)
    {
      if run in runs then runs[run].View() else NOSHEET
    }

    method StartRun(run: Run)
      requires Valid()
      modifies this
      ensures Valid() && runs.Keys == old(runs.Keys) + {run} && Bins(run) == {} && fresh(runs[run])
      ensures SheetOf(run) == NOSHEET && runs.Values <= old(runs.Values) + {runs[run]}
      ensures forall q | q != run :: SheetOf(q) == old(SheetOf(q)) && Bins(q) == old(Bins(q))
    {
      var agg := new Agg();
      runs := runs[run := agg];
    }

    method Feed(run: Run, rec: Record)
      requires Valid() && InRange(rec.hist) && run in runs
      modifies runs[run], Bins(run)
      ensures Valid() && SheetOf(run) == Folded(old(SheetOf(run)), rec) && fresh(Bins(run) - old(Bins(run)))
      ensures forall q | q != run :: SheetOf(q) == old(SheetOf(q)) && Bins(q) == old(Bins(q))
    {
      var agg := runs[run];
      agg.Add(rec);
    }

    method Apply(run: Run, rec: Record)
      requires Valid() && InRange(rec.hist)
      modifies this, runs.Values, Bins(run)
      ensures Valid() && runs.Keys == old(runs.Keys) + {run}
      ensures SheetOf(run) == Folded(old(SheetOf(run)), rec)
      ensures forall q | q != run :: SheetOf(q) == old(SheetOf(q)) && Bins(q) == old(Bins(q))
      ensures fresh(runs.Values - old(runs.Values)) && fresh(Bins(run) - old(Bins(run)))
    {
      if run !in runs {
        StartRun(run);
      }
      Feed(run, rec);
    }

    method Handle(m: Message)
      requires Valid() && (m.Sample? ==> InRange(m.rec.hist))
      modifies this, runs.Values, Bins(m.run)
      ensures Valid() && forall q :: SheetOf(q) == SheetAfter(old(SheetOf(q)), m, q)
      ensures fresh(runs.Values - old(runs.Values)) && forall q :: fresh(Bins(q) - old(Bins(q)))
    {
      match m {
        case Start(run) => StartRun(run);
        case Sample(run, rec) => Apply(run, rec);
      }
    }
  }

  // ---------- whole streams of messages ----------

  predicate Readable(ms: seq<Message>) {
    forall i | 0 <= i < |ms| && ms[i].Sample? :: InRange(ms[i].rec.hist)
  }

  lemma ReceivedNext(ms: seq<Message>, k: nat, run: Run)
    requires k < |ms|
    ensures FoldAll(Received(ms[..k + 1], run)) == SheetAfter(FoldAll(Received(ms[..k], run)), ms[k], run)
  {
    assert ms[..k + 1][..k] == ms[..k];
    if ms[k].Sample? {
      FoldOne(Received(ms[..k], run), ms[k].rec);
    }
  }

  /** Each run's aggregate is made of the records since its last start, and of no other run's. */
  method Consume(ms: seq<Message>) returns (ingester: Ingester)
    requires Readable(ms)
    ensures fresh(ingester) && ingester.Valid()
    ensures forall run :: ingester.SheetOf(run) == FoldAll(Received(ms, run))
  {
    ingester := new Ingester();
    for k := 0 to |ms|
      invariant fresh(ingester) && fresh(ingester.runs.Values) && forall run :: fresh(ingester.Bins(run))
      invariant ingester.Valid() && forall run :: ingester.SheetOf(run) == FoldAll(Received(ms[..k], run))
    {
      ingester.Handle(ms[k]);
      forall run ensures ingester.SheetOf(run) == FoldAll(Received(ms[..k + 1], run)) {
        ReceivedNext(ms, k, run);
      }
    }
    assert ms[..|ms|] == ms;
  }

  /** The records of a run among some messages, wherever its starts are. */
  function SamplesOf(ms: seq<Message>, run: Run): seq<Record> {
    if ms == [] then [] else
    var m, before := ms[|ms| - 1], SamplesOf(ms[..|ms| - 1], run);
    if m.Sample? && m.run == run then before + [m.rec] else before
  }

  /** A start separates what counts from what does not. */
  lemma {:induction false} StartSeparates(before: seq<Message>, run: Run, after: seq<Message>)
    requires Start(run) !in after
    ensures Received(before + [Start(run)] + after, run) == SamplesOf(after, run)
  {
    var ms := before + [Start(run)] + after;
    if after == [] {
      assert ms == before + [Start(run)] && ms[..|ms| - 1] == before;
    } else {
      StartSeparates(before, run, after[..|after| - 1]);
      assert ms[..|ms| - 1] == before + [Start(run)] + after[..|after| - 1];
    }
  }

  // ---------- a start that comes too late ----------

  function Samples(rs: seq<Record>, run: Run): (ms: seq<Message>)
    ensures |ms| == |rs| && Start(run) !in ms
  {
    seq(|rs|, i requires 0 <= i < |rs| => Sample(run, rs[i]))
  }

  lemma {:induction false} SamplesBack(rs: seq<Record>, run: Run)
    ensures SamplesOf(Samples(rs, run), run) == rs
  {
    if rs != [] {
      var n := |rs| - 1;
      SamplesBack(rs[..n], run);
      assert Samples(rs, run)[..n] == Samples(rs[..n], run);
    }
  }

  /** A run's records, with its start coming after those of `early`. */
  function Late(early: seq<Record>, tail: seq<Record>, run: Run): seq<Message> {
    Samples(early, run) + [Start(run)] + Samples(tail, run)
  }

  lemma LateReceived(early: seq<Record>, tail: seq<Record>, run: Run)
    ensures Received(Late(early, tail, run), run) == tail
  {
    StartSeparates(Samples(early, run), run, Samples(tail, run));
    SamplesBack(tail, run);
  }

  /** The correctness telemetry computes from those messages. */
  function LateCorrectness(early: seq<Record>, tail: seq<Record>, run: Run): real {
    Correctness(FoldAll(Received(Late(early, tail, run), run)).counts)
  }

  /** If a start drops counts, whatever else is counted keeps correctness a fraction, provided that every dropped order
      had also been acknowledged among the dropped records. */
  lemma DroppedIsSafe(dropped: Counts, more: Counts, total: Counts)
    requires MakeUp(dropped, more, total) && Growing(more) && Credible(total)
    requires dropped.acked == dropped.sent
    ensures Correctness(more) <= 1.0
  {
    CorrectnessIsFraction(more);
  }

  /** What the workers may ship after `parts`, and the order in which all of it is read. */
  predicate Continues(parts: seq<seq<Record>>, before: seq<nat>, streams: seq<seq<Record>>, after: seq<nat>) {
    && Extends(parts, streams) && Interleaves(streams, before + after)
    && forall w | 0 <= w < |streams| :: Plausible(streams[w])
  }

  /** The records of the continuation. */
  function TailOf(parts: seq<seq<Record>>, before: seq<nat>, streams: seq<seq<Record>>, after: seq<nat>): seq<Record>
    requires Continues(parts, before, streams, after)
  {
    MergedPrefix(streams, before + after, |before|);
    Merged(streams, before + after)[|before|..]
  }

  lemma TailFollows(parts: seq<seq<Record>>, before: seq<nat>, streams: seq<seq<Record>>, after: seq<nat>)
    requires Interleaves(parts, before) && Continues(parts, before, streams, after)
    ensures Merged(streams, before + after) == Merged(parts, before) + TailOf(parts, before, streams, after)
    ensures Grow(TailOf(parts, before, streams, after))
  {
    var rs, n := Merged(streams, before + after), |before|;
    MergedPrefix(streams, before + after, n);
    MergedExtends(parts, streams, before);
    assert (before + after)[..n] == before;
    assert rs == rs[..n] + rs[n..];
    MergedGrow(streams, before + after);
  }

  lemma SafeContinues(parts: seq<seq<Record>>, before: seq<nat>, streams: seq<seq<Record>>, after: seq<nat>, run: Run)
    requires ReadAll(parts, before) && Continues(parts, before, streams, after)
    requires FoldAll(Merged(parts, before)).counts.acked == FoldAll(Merged(parts, before)).counts.sent
    ensures LateCorrectness(Merged(parts, before), TailOf(parts, before, streams, after), run) <= 1.0
  {
    var early, tail := Merged(parts, before), TailOf(parts, before, streams, after);
    TailFollows(parts, before, streams, after);
    LateReceived(early, tail, run);
    AggregateIsCredible(streams, before + after);
    FoldSplits(early, tail);
    FoldGrows(tail);
    DroppedIsSafe(FoldAll(early).counts, FoldAll(tail).counts, FoldAll(early + tail).counts);
  }

  /** One more order, with the acknowledgements of all orders outstanding, and their latencies. */
  function Burst(outstanding: int): Record {
    Record("open", 0, Counts(1, 1 + outstanding, 0, 0, 0), [(0, 1 + outstanding)], 1.0)
  }

  lemma BurstIsTallied(outstanding: int)
    requires outstanding >= 0
    ensures InRange(Burst(outstanding).hist) && NoneNegative(Burst(outstanding).hist)
    ensures Total(Burst(outstanding).hist) == Burst(outstanding).delta.acked
  {
    var p := (0, 1 + outstanding);
    assert [] + [p] == [p];
    forall b: nat | b < NBUCKETS ensures Weight([p], b) >= 0 {
      WeightAppend([], p, b);
    }
    WeightAppend([], p, 0);
  }

  lemma BurstExceeds(outstanding: int)
    requires outstanding > 0
    ensures Correctness(FoldAll([Burst(outstanding)]).counts) > 1.0
  {
    FoldOne([], Burst(outstanding));
    assert [] + [Burst(outstanding)] == [Burst(outstanding)];
    assert FoldAll([]) == NOSHEET;
  }

  /** A worker with orders outstanding may ship that. */
  lemma BurstIsPlausible(stream: seq<Record>)
    requires Plausible(stream) && Shipped(stream).acked <= Shipped(stream).sent
    ensures Plausible(stream + [Burst(Shipped(stream).sent - Shipped(stream).acked)])
  {
    var outstanding := Shipped(stream).sent - Shipped(stream).acked;
    BurstIsTallied(outstanding);
    ShipOne(stream, Burst(outstanding));
    assert Credible(ShippedBy(stream, |stream|));
  }

  lemma UnsafeContinues(parts: seq<seq<Record>>, before: seq<nat>, w: nat, run: Run)
    returns (streams: seq<seq<Record>>, after: seq<nat>)
    requires ReadAll(parts, before) && forall v | 0 <= v < |parts| :: Plausible(parts[v])
    requires w < |parts| && Shipped(parts[w]).acked < Shipped(parts[w]).sent
    ensures Continues(parts, before, streams, after)
    ensures LateCorrectness(Merged(parts, before), TailOf(parts, before, streams, after), run) > 1.0
  {
    var r := Burst(Shipped(parts[w]).sent - Shipped(parts[w]).acked);
    streams, after := parts[w := parts[w] + [r]], [w];
    BurstIsPlausible(parts[w]);
    MergedExtends(parts, streams, before);
    assert (before + after)[..|before|] == before;
    assert Taken(before, w) == |parts[w]|;
    assert Continues(parts, before, streams, after);
    MergedPrefix(streams, before, |before|);
    assert Merged(streams, before + after) == Merged(streams, before) + [r];
    assert TailOf(parts, before, streams, after) == [r];
    LateReceived(Merged(parts, before), [r], run);
    BurstExceeds(Shipped(parts[w]).sent - Shipped(parts[w]).acked);
  }

  /** A start may come after some records of the workers have been read. Then whatever the workers go on to ship, and in
      whatever order it is read, correctness stays a fraction, if and only if the orders counted in the records before
      the start have all been acknowledged in them. */
  lemma LateStartIsSafe(parts: seq<seq<Record>>, before: seq<nat>, run: Run)
    requires ReadAll(parts, before) && forall v | 0 <= v < |parts| :: Plausible(parts[v])
    ensures (forall streams, after | Continues(parts, before, streams, after) ::
               LateCorrectness(Merged(parts, before), TailOf(parts, before, streams, after), run) <= 1.0)
      <==> FoldAll(Merged(parts, before)).counts.acked == FoldAll(Merged(parts, before)).counts.sent
  {
    var dropped := FoldAll(Merged(parts, before)).counts;
    if dropped.acked == dropped.sent {
      forall streams, after | Continues(parts, before, streams, after)
        ensures LateCorrectness(Merged(parts, before), TailOf(parts, before, streams, after), run) <= 1.0
      {
        SafeContinues(parts, before, streams, after, run);
      }
    } else {
      var w := SomeOutstanding(parts, before);
      var streams, after := UnsafeContinues(parts, before, w, run);
      assert Continues(parts, before, streams, after);
    }
  }

  lemma SomeOutstanding(parts: seq<seq<Record>>, before: seq<nat>) returns (w: nat)
    requires ReadAll(parts, before) && forall v | 0 <= v < |parts| :: CredibleStream(parts[v])
    requires FoldAll(Merged(parts, before)).counts.acked != FoldAll(Merged(parts, before)).counts.sent
    ensures w < |parts| && Shipped(parts[w]).acked < Shipped(parts[w]).sent
  {
    AllIsFlattened(parts, before);
    FlattenedOutstanding(parts);
    if forall v | 0 <= v < |parts| :: Shipped(parts[v]).acked == Shipped(parts[v]).sent {
      NoneOutstanding(parts);
    }
    w :| 0 <= w < |parts| && Shipped(parts[w]).acked != Shipped(parts[w]).sent;
    assert Credible(ShippedBy(parts[w], |parts[w]|));
  }

  lemma TwoRecords(a: Record, c: Record)
    requires Growing(a.delta) && Growing(c.delta) && Credible(a.delta) && Credible(a.delta.Plus(c.delta))
    requires forall r | r in {a, c} :: InRange(r.hist) && NoneNegative(r.hist) && Total(r.hist) == r.delta.acked
    ensures Plausible([a, c])
  {
    NothingShipped();
    ShipOne([], a);
    assert [] + [a] == [a];
    ShipOne([a], c);
    assert [a] + [c] == [a, c];
  }

  /** It happens: one order is reported, the run is started, and then one more order and two acknowledgements are
      reported with their latencies. */
  lemma LateStartExceeds()
    ensures var first, second := Record("open", 0, Counts(1, 0, 0, 0, 0), [], 1.0), Burst(1);
      && Plausible([first, second])
      && Correctness(FoldAll(Received([Sample(1, first), Start(1), Sample(1, second)], 1)).counts) > 1.0
  {
    var first, second := Record("open", 0, Counts(1, 0, 0, 0, 0), [], 1.0), Burst(1);
    BurstIsTallied(1);
    TwoRecords(first, second);
    LateReceived([first], [second], 1);
    assert Late([first], [second], 1) == [Sample(1, first), Start(1), Sample(1, second)];
    BurstExceeds(1);
  }
}
