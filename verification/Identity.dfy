/**
 How fresh order ids must be for the four engines to agree: they hold the same books if and only if no limit order rests on
 a level that already holds its id.
*/
module Identity {
  import opened Market
  import opened BookLaws

  // ---------- when the four engines agree ----------

  /** If op is a limit order that will rest, its id is not already on the level it will rest on. */
  ghost predicate LevelFresh(b: Book, op: Op) {
    op.Limit? && Taken(b, op.buy, Cap(op.px), op.qty).left > 0 ==>
      op.id !in Ids(At(b.On(Own(op.buy)), op.px))
  }

  ghost predicate EnginesAgree(b: Book, op: Op) {
    forall e :: Step(e, b, op) == Step(Go, b, op)
  }

  lemma CancelAgrees(e: Engine, b: Book, target: Id)
    requires Healthy(b) && Distinct(b)
    ensures Cancelled(e, b, target) == Cancelled(Go, b, target)
  {
    if target in b.index {
      var Spot(side, px) := b.index[target];
      DequeueLevel(e, b.On(side)[px], target);
      DequeueLevel(Go, b.On(side)[px], target);
    }
  }

  lemma RestAgrees(e: Engine, b: Book, id: Id, buy: bool, px: int, qty: int)
    requires Healthy(b) && qty > 0
    ensures Rested(e, b, id, buy, px, qty) == Rested(Go, b, id, buy, px, qty) <==>
      e != Python || id !in Ids(At(b.On(Own(buy)), px))
  {
    var level := At(b.On(Own(buy)), px);
    EnqueueLevel(e, level, id, qty);
    EnqueueLevel(Go, level, id, qty);
    var c, d := Rested(e, b, id, buy, px, qty), Rested(Go, b, id, buy, px, qty);
    assert c.On(Own(buy))[px] == Enqueue(e, level, id, qty);
    assert d.On(Own(buy))[px] == Enqueue(Go, level, id, qty);
  }

  /** From a book without a repeated id on any level, one operation leaves all four engines with the same book
      if and only if it is fresh for its level; and then no id is repeated on a level afterwards. */
  lemma StepsAgree(b: Book, op: Op)
    requires Healthy(b) && Distinct(b)
    ensures EnginesAgree(b, op) <==> LevelFresh(b, op)
    ensures LevelFresh(b, op) ==> Distinct(Step(Go, b, op))
  {
    match op
    case Limit(id, buy, px, qty) =>
      MatchedKeeps(b, buy, Cap(px), qty);
      var c := Matched(b, buy, Cap(px), qty);
      var left := Taken(b, buy, Cap(px), qty).left;
      if left > 0 {
        RestedKeeps(Go, c, id, buy, px, left);
        forall e ensures Step(e, b, op) == Step(Go, b, op) <==> e != Python || LevelFresh(b, op) {
          RestAgrees(e, c, id, buy, px, left);
        }
        assert EnginesAgree(b, op) ==> Step(Python, b, op) == Step(Go, b, op);
      }
    case Market(id, buy, qty) => MatchedKeeps(b, buy, NoCap, qty);
    case Cancel(target) =>
      CancelledKeeps(Go, b, target);
      forall e ensures Step(e, b, op) == Step(Go, b, op) {
        CancelAgrees(e, b, target);
      }
  }

  /** All four engines hold the same book after k operations. */
  ghost predicate AgreedAt(ops: seq<Op>, k: nat)
    requires k <= |ops|
  {
    forall e :: Run(e, ops[..k]) == Run(Go, ops[..k])
  }

  ghost predicate AgreedRun(ops: seq<Op>) {
    forall k | 0 <= k <= |ops| :: AgreedAt(ops, k)
  }

  /** Operation k of the run is fresh for its level when it arrives. */
  ghost predicate LevelFreshAt(ops: seq<Op>, k: nat)
    requires k < |ops|
  {
    LevelFresh(Run(Go, ops[..k]), ops[k])
  }

  ghost predicate LevelFreshRun(ops: seq<Op>) {
    forall k | 0 <= k < |ops| :: LevelFreshAt(ops, k)
  }

  lemma PrefixOfPrefix<T>(s: seq<T>, n: nat, k: nat)
    requires k <= n <= |s|
    ensures s[..n][..k] == s[..k]
  {
  }

  lemma AgreedExtends(ops: seq<Op>)
    requires ops != []
    ensures AgreedRun(ops) <==> AgreedRun(ops[..|ops| - 1]) && AgreedAt(ops, |ops|)
  {
    var n := |ops| - 1;
    forall k | 0 <= k <= n ensures AgreedAt(ops, k) <==> AgreedAt(ops[..n], k) {
      PrefixOfPrefix(ops, n, k);
    }
  }

  lemma NextAgrees(ops: seq<Op>)
    requires ops != [] && AgreedRun(ops[..|ops| - 1]) && Distinct(Run(Go, ops[..|ops| - 1]))
    ensures AgreedAt(ops, |ops|) <==> LevelFreshAt(ops, |ops| - 1)
    ensures LevelFreshAt(ops, |ops| - 1) ==> Distinct(Run(Go, ops))
  {
    var n := |ops| - 1;
    var before, op := ops[..n], ops[n];
    RunHealthy(Go, before);
    StepsAgree(Run(Go, before), op);
    assert AgreedAt(before, n) && before[..n] == before && ops[..|ops|] == ops;
    forall e ensures Run(e, ops) == Step(e, Run(Go, before), op) {
      assert Run(e, before[..n]) == Run(Go, before[..n]);
    }
    assert AgreedAt(ops, |ops|) <==> EnginesAgree(Run(Go, before), op);
  }

  /** The four engines hold the same book throughout a run if and only if every limit order that rests is
      fresh for its level. */
  lemma {:induction false} RunsAgree(ops: seq<Op>)
    ensures AgreedRun(ops) <==> LevelFreshRun(ops)
    ensures LevelFreshRun(ops) ==> Distinct(Run(Go, ops))
  {
    if ops != [] {
      RunsAgree(ops[..|ops| - 1]);
      AgreedExtends(ops);
      LevelFreshExtends(ops);
      if AgreedRun(ops[..|ops| - 1]) {
        NextAgrees(ops);
      }
    }
  }

  lemma LevelFreshOfPrefix(ops: seq<Op>, n: nat, k: nat)
    requires k < n <= |ops|
    ensures LevelFreshAt(ops[..n], k) <==> LevelFreshAt(ops, k)
  {
    PrefixOfPrefix(ops, n, k);
  }

  lemma LevelFreshRestricts(ops: seq<Op>, n: nat)
    requires n <= |ops| && LevelFreshRun(ops)
    ensures LevelFreshRun(ops[..n])
  {
    forall k | 0 <= k < n ensures LevelFreshAt(ops[..n], k) {
      LevelFreshOfPrefix(ops, n, k);
    }
  }

  lemma LevelFreshGrows(ops: seq<Op>)
    requires ops != [] && LevelFreshRun(ops[..|ops| - 1]) && LevelFreshAt(ops, |ops| - 1)
    ensures LevelFreshRun(ops)
  {
    var n := |ops| - 1;
    forall k | 0 <= k < n ensures LevelFreshAt(ops, k) {
      LevelFreshOfPrefix(ops, n, k);
    }
  }

  lemma LevelFreshExtends(ops: seq<Op>)
    requires ops != []
    ensures LevelFreshRun(ops) <==> LevelFreshRun(ops[..|ops| - 1]) && LevelFreshAt(ops, |ops| - 1)
  {
    if LevelFreshRun(ops) {
      LevelFreshRestricts(ops, |ops| - 1);
    } else if LevelFreshAt(ops, |ops| - 1) && LevelFreshRun(ops[..|ops| - 1]) {
      LevelFreshGrows(ops);
    }
  }

  lemma RunsEqual(e: Engine, ops: seq<Op>)
    requires LevelFreshRun(ops)
    ensures Run(e, ops) == Run(Go, ops)
  {
    RunsAgree(ops);
    assert AgreedAt(ops, |ops|) && ops[..|ops|] == ops;
  }

  /** Engines that hold the same books report the same fills. */
  lemma {:induction false} TapesAgree(e: Engine, ops: seq<Op>)
    requires LevelFreshRun(ops)
    ensures Tape(e, ops) == Tape(Go, ops)
  {
    if ops != [] {
      var n := |ops| - 1;
      LevelFreshExtends(ops);
      RunsEqual(e, ops[..n]);
      TapesAgree(e, ops[..n]);
    }
  }

  /** Go and C++ agree on every run, whatever its ids. */
  lemma {:induction false} GoIsCpp(ops: seq<Op>)
    ensures Run(Cpp, ops) == Run(Go, ops) && Tape(Cpp, ops) == Tape(Go, ops)
  {
    if ops != [] {
      GoIsCpp(ops[..|ops| - 1]);
    }
  }
}
