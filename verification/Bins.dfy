/**
 What the bins of an aggregate hold, as sums and extremes over the records with the bin's phase and rate.
*/
module Bins {
  import opened Options
  import opened Records
  import opened Telemetry

  /** The bins of a sweep. */
  function SweepOf(s: Sheet, phase: string): map<int, Bin> {
    if phase == "open" then s.open else s.burst
  }

  predicate Tagged(r: Record, phase: string, rate: int) {
    r.phase == phase && r.rate == rate
  }

  predicate HasTagged(rs: seq<Record>, phase: string, rate: int) {
    exists i :: 0 <= i < |rs| && Tagged(rs[i], phase, rate)
  }

  function SentUnder(rs: seq<Record>, phase: string, rate: int): int {
    if rs == [] then 0 else
    var n := |rs| - 1;
    SentUnder(rs[..n], phase, rate) + if Tagged(rs[n], phase, rate) then rs[n].delta.sent else 0
  }

  function AckedUnder(rs: seq<Record>, phase: string, rate: int): int {
    if rs == [] then 0 else
    var n := |rs| - 1;
    AckedUnder(rs[..n], phase, rate) + if Tagged(rs[n], phase, rate) then rs[n].delta.acked else 0
  }

  lemma HasTaggedNext(rs: seq<Record>, phase: string, rate: int)
    requires rs != []
    ensures var n := |rs| - 1;
      HasTagged(rs, phase, rate) <==> HasTagged(rs[..n], phase, rate) || Tagged(rs[n], phase, rate)
  {
    var n := |rs| - 1;
    if i :| 0 <= i < n && Tagged(rs[..n][i], phase, rate) {
      assert Tagged(rs[i], phase, rate);
    }
    if i :| 0 <= i < |rs| && Tagged(rs[i], phase, rate) {
      assert i < n ==> Tagged(rs[..n][i], phase, rate);
    }
  }

  /** What one record does to the bin of a rate. */
  lemma FiledAt(s: Sheet, r: Record, phase: string, rate: int)
    requires phase == "open" || phase == "burst"
    ensures var before, after := SweepOf(s, phase), SweepOf(Folded(s, r), phase);
      if Tagged(r, phase, rate) && rate > 0 then rate in after && after[rate] == AddTo(BinAt(before, rate), r)
      else (rate in after <==> rate in before) && BinAt(after, rate) == BinAt(before, rate)
  {
  }

  /** A bin exists just for the positive rates of records of its sweep, and holds the sums of what they report. */
  lemma {:induction false} BinHoldsSums(rs: seq<Record>, phase: string, rate: int)
    requires phase == "open" || phase == "burst"
    ensures var bins := SweepOf(FoldAll(rs), phase);
      && (rate in bins <==> rate > 0 && HasTagged(rs, phase, rate))
      && (rate in bins ==>
            bins[rate].sent == SentUnder(rs, phase, rate) && bins[rate].acked == AckedUnder(rs, phase, rate))
  {
    if rs == [] {
      assert FoldAll(rs) == NOSHEET;
    } else {
      var n := |rs| - 1;
      BinHoldsSums(rs[..n], phase, rate);
      FiledAt(FoldAll(rs[..n]), rs[n], phase, rate);
      HasTaggedNext(rs, phase, rate);
      if rate > 0 && !HasTagged(rs[..n], phase, rate) {
        NoneUnder(rs[..n], phase, rate);
      }
    }
  }

  lemma {:induction false} NoneUnder(rs: seq<Record>, phase: string, rate: int)
    requires !HasTagged(rs, phase, rate)
    ensures SentUnder(rs, phase, rate) == AckedUnder(rs, phase, rate) == 0
  {
    if rs != [] {
      HasTaggedNext(rs, phase, rate);
      NoneUnder(rs[..|rs| - 1], phase, rate);
    }
  }

  // ---------- the time span ----------

  /** Record i is of the bin and has a timestamp. */
  predicate Stamped(rs: seq<Record>, i: int, phase: string, rate: int) {
    0 <= i < |rs| && Tagged(rs[i], phase, rate) && rs[i].ts != 0.0
  }

  ghost predicate Unstamped(rs: seq<Record>, phase: string, rate: int) {
    forall i :: !Stamped(rs, i, phase, rate)
  }

  ghost predicate StampedAt(rs: seq<Record>, t: real, phase: string, rate: int) {
    exists i :: Stamped(rs, i, phase, rate) && rs[i].ts == t
  }

  /** The earliest of the timestamps, if there are any. */
  ghost predicate Earliest(rs: seq<Record>, phase: string, rate: int, first: Option<real>) {
    match first
    case None => Unstamped(rs, phase, rate)
    case Some(t) =>
      StampedAt(rs, t, phase, rate) && forall i | Stamped(rs, i, phase, rate) :: t <= rs[i].ts
  }

  ghost predicate Latest(rs: seq<Record>, phase: string, rate: int, last: Option<real>) {
    match last
    case None => Unstamped(rs, phase, rate)
    case Some(t) =>
      StampedAt(rs, t, phase, rate) && forall i | Stamped(rs, i, phase, rate) :: rs[i].ts <= t
  }

  lemma StampedNext(rs: seq<Record>, i: int, phase: string, rate: int)
    requires rs != []
    ensures var n := |rs| - 1;
      Stamped(rs, i, phase, rate) <==>
        Stamped(rs[..n], i, phase, rate) || (i == n && Tagged(rs[n], phase, rate) && rs[n].ts != 0.0)
  {
  }

  lemma StampedStays(rs: seq<Record>, t: real, phase: string, rate: int)
    requires rs != [] && StampedAt(rs[..|rs| - 1], t, phase, rate)
    ensures StampedAt(rs, t, phase, rate)
  {
    var i :| Stamped(rs[..|rs| - 1], i, phase, rate) && rs[..|rs| - 1][i].ts == t;
    assert Stamped(rs, i, phase, rate) && rs[i].ts == t;
  }

  lemma ExtremesNext(rs: seq<Record>, phase: string, rate: int, first: Option<real>, last: Option<real>)
    requires rs != []
    requires Earliest(rs[..|rs| - 1], phase, rate, first) && Latest(rs[..|rs| - 1], phase, rate, last)
    ensures var n := |rs| - 1;
      if Stamped(rs, n, phase, rate)
      then Earliest(rs, phase, rate, Earlier(first, rs[n].ts)) && Latest(rs, phase, rate, Later(last, rs[n].ts))
      else Earliest(rs, phase, rate, first) && Latest(rs, phase, rate, last)
  {
    var n := |rs| - 1;
    forall i ensures Stamped(rs, i, phase, rate) <==>
      Stamped(rs[..n], i, phase, rate) || (i == n && Stamped(rs, n, phase, rate))
    {
      StampedNext(rs, i, phase, rate);
    }
    if first.Some? {
      StampedStays(rs, first.value, phase, rate);
    }
    if last.Some? {
      StampedStays(rs, last.value, phase, rate);
    }
    assert Stamped(rs, n, phase, rate) ==> StampedAt(rs, rs[n].ts, phase, rate);
  }

  /** A bin's span is that of the timestamps of its records. */
  lemma {:induction false} BinSpansRecords(rs: seq<Record>, phase: string, rate: int)
    requires (phase == "open" || phase == "burst") && rate > 0
    ensures var bin := BinAt(SweepOf(FoldAll(rs), phase), rate);
      Earliest(rs, phase, rate, bin.first) && Latest(rs, phase, rate, bin.last)
  {
    if rs == [] {
      assert FoldAll(rs) == NOSHEET;
    } else {
      var n := |rs| - 1;
      BinSpansRecords(rs[..n], phase, rate);
      FiledAt(FoldAll(rs[..n]), rs[n], phase, rate);
      var before := BinAt(SweepOf(FoldAll(rs[..n]), phase), rate);
      ExtremesNext(rs, phase, rate, before.first, before.last);
    }
  }

  function PerSecond(n: int, span: real): real {
    if span > 0.5 then n as real / span else 0.0
  }

  /** The throughput a bin achieved: zero unless its records span more than half a second. */
  function Achieved(bin: Bin): real {
    if bin.first.None? || bin.last.None? then 0.0 else PerSecond(bin.acked, bin.last.value - bin.first.value)
  }

  lemma AchievedTimes(bin: Bin, n: int, first: real, last: real)
    requires bin.acked == n && bin.first == Some(first) && bin.last == Some(last)
    ensures last - first > 0.5 ==> Achieved(bin) * (last - first) == n as real
    ensures last - first <= 0.5 ==> Achieved(bin) == 0.0
  {
    var span := last - first;
    assert span > 0.5 ==> n as real / span * span == n as real;
  }

  lemma ExtremesAreUnique(rs: seq<Record>, phase: string, rate: int, a: Option<real>, b: Option<real>)
    ensures Earliest(rs, phase, rate, a) && Earliest(rs, phase, rate, b) ==> a == b
    ensures Latest(rs, phase, rate, a) && Latest(rs, phase, rate, b) ==> a == b
  {
  }

  /** Over the time from the earliest to the latest record of the rate, that makes the orders acknowledged under it. */
  lemma AchievedIsRate(rs: seq<Record>, phase: string, rate: int, first: real, last: real, bin: Bin)
    requires (phase == "open" || phase == "burst") && rate > 0 && bin == BinAt(SweepOf(FoldAll(rs), phase), rate)
    requires Earliest(rs, phase, rate, Some(first)) && Latest(rs, phase, rate, Some(last))
    ensures last - first > 0.5 ==> Achieved(bin) * (last - first) == AckedUnder(rs, phase, rate) as real
    ensures last - first <= 0.5 ==> Achieved(bin) == 0.0
  {
    BinOfStamped(rs, phase, rate, first, last);
    AchievedTimes(bin, AckedUnder(rs, phase, rate), first, last);
  }

  lemma BinOfStamped(rs: seq<Record>, phase: string, rate: int, first: real, last: real)
    requires (phase == "open" || phase == "burst") && rate > 0
    requires Earliest(rs, phase, rate, Some(first)) && Latest(rs, phase, rate, Some(last))
    ensures var bin := BinAt(SweepOf(FoldAll(rs), phase), rate);
      bin.acked == AckedUnder(rs, phase, rate) && bin.first == Some(first) && bin.last == Some(last)
  {
    var bin := BinAt(SweepOf(FoldAll(rs), phase), rate);
    BinSpansRecords(rs, phase, rate);
    ExtremesAreUnique(rs, phase, rate, bin.first, Some(first));
    ExtremesAreUnique(rs, phase, rate, bin.last, Some(last));
    StampedIsTagged(rs, first, phase, rate);
    BinHoldsSums(rs, phase, rate);
  }

  lemma StampedIsTagged(rs: seq<Record>, t: real, phase: string, rate: int)
    requires StampedAt(rs, t, phase, rate)
    ensures HasTagged(rs, phase, rate)
  {
    var i :| Stamped(rs, i, phase, rate) && rs[i].ts == t;
    assert Tagged(rs[i], phase, rate);
  }
}
