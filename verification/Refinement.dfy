/**
 The engines refine the reference book: as long as no limit order rests while its id rests already, all
 four engines report the fills of the reference book, and their levels are the reference book's orders
 grouped by side and price.
*/
module Refinement {
  import opened Market
  import opened BookLaws
  import opened Directory
  import opened Reference
  import opened Identity

  /** The orders of the log at one side and price, in arrival order. */
  function Group(log: Log, side: Side, px: int): Level {
    if log == [] then []
    else if log[0].side == side && log[0].px == px then [Order(log[0].id, log[0].qty)] + Group(log[1..], side, px)
    else Group(log[1..], side, px)
  }

  ghost predicate Groups(log: Log, side: Side, levels: Levels) {
    forall p :: Group(log, side, p) == At(levels, p)
  }

  /** The book holds exactly the orders of the log. */
  ghost predicate Refines(b: Book, log: Log) {
    Positive(log) && Groups(log, Bid, b.bids) && Groups(log, Ask, b.asks)
  }

  lemma {:induction false} GroupConcat(a: Log, c: Log, side: Side, px: int)
    ensures Group(a + c, side, px) == Group(a, side, px) + Group(c, side, px)
  {
    if a == [] {
      assert a + c == c;
    } else {
      assert (a + c)[1..] == a[1..] + c;
      GroupConcat(a[1..], c, side, px);
    }
  }

  lemma {:induction false} GroupEmpty(log: Log, side: Side, px: int)
    ensures Group(log, side, px) == [] <==> forall i | 0 <= i < |log| :: log[i].side != side || log[i].px != px
  {
    if log != [] {
      GroupEmpty(log[1..], side, px);
      assert forall i | 1 <= i < |log| :: log[i] == log[1..][i - 1];
      if Group(log, side, px) == [] {
        forall i | 0 <= i < |log| ensures log[i].side != side || log[i].px != px {
          assert i == 0 || log[i] == log[1..][i - 1];
        }
      }
    }
  }

  lemma GroupSplit(log: Log, k: nat, side: Side, px: int)
    requires k < |log|
    ensures Group(log, side, px) == Group(log[..k], side, px) +
      if log[k].side == side && log[k].px == px
      then [Order(log[k].id, log[k].qty)] + Group(log[k + 1..], side, px)
      else Group(log[k + 1..], side, px)
  {
    assert log == log[..k] + log[k..];
    GroupConcat(log[..k], log[k..], side, px);
  }

  lemma GroupBeforeFirst(log: Log, k: nat)
    requires k < |log| && IsFirst(log[k].side, log, k)
    ensures Group(log[..k], log[k].side, log[k].px) == []
  {
    GroupEmpty(log[..k], log[k].side, log[k].px);
    forall i | 0 <= i < k ensures log[i].side != log[k].side || log[i].px != log[k].px {
      assert log[i].side == log[k].side ==> Prior(log[k].side, log, k, i);
    }
  }

  lemma GroupShrunkElsewhere(log: Log, k: nat, qty: int, side: Side, px: int)
    requires k < |log| && (side != log[k].side || px != log[k].px)
    ensures Group(Shrunk(log, k, qty), side, px) == Group(log, side, px)
  {
    var cut := Shrunk(log, k, qty);
    GroupSplit(log, k, side, px);
    if qty < log[k].qty {
      GroupSplit(cut, k, side, px);
      assert cut[..k] == log[..k] && cut[k + 1..] == log[k + 1..];
    } else {
      GroupConcat(log[..k], log[k + 1..], side, px);
    }
  }

  lemma GroupAtFirst(log: Log, k: nat)
    requires k < |log| && IsFirst(log[k].side, log, k)
    ensures Group(log, log[k].side, log[k].px) ==
      [Order(log[k].id, log[k].qty)] + Group(log[k + 1..], log[k].side, log[k].px)
  {
    GroupSplit(log, k, log[k].side, log[k].px);
    GroupBeforeFirst(log, k);
  }

  lemma GroupShrunk(log: Log, k: nat, qty: int)
    requires k < |log| && IsFirst(log[k].side, log, k)
    ensures var g := Group(log, log[k].side, log[k].px);
      && g != [] && g[0] == Order(log[k].id, log[k].qty)
      && Group(Shrunk(log, k, qty), log[k].side, log[k].px) == Served(g, qty)
  {
    var side, px := log[k].side, log[k].px;
    var tail := Group(log[k + 1..], side, px);
    GroupAtFirst(log, k);
    if qty < log[k].qty {
      GroupReduced(log, k, qty);
    } else {
      GroupRemoved(log, k, qty);
    }
    ServedHead(Order(log[k].id, log[k].qty), tail, qty, Group(log, side, px), Group(Shrunk(log, k, qty), side, px));
  }

  lemma ServedHead(o: Order, rest: Level, qty: int, g: Level, served: Level)
    requires g == [o] + rest
    requires served == if qty < o.qty then [Order(o.id, o.qty - qty)] + rest else rest
    ensures g != [] && g[0] == o && served == Served(g, qty)
  {
    assert ([o] + rest)[1..] == rest;
  }

  lemma GroupRemoved(log: Log, k: nat, qty: int)
    requires k < |log| && IsFirst(log[k].side, log, k) && qty >= log[k].qty
    ensures Group(Shrunk(log, k, qty), log[k].side, log[k].px) == Group(log[k + 1..], log[k].side, log[k].px)
  {
    GroupConcat(log[..k], log[k + 1..], log[k].side, log[k].px);
    GroupBeforeFirst(log, k);
  }

  lemma GroupReduced(log: Log, k: nat, qty: int)
    requires k < |log| && IsFirst(log[k].side, log, k) && qty < log[k].qty
    ensures Group(Shrunk(log, k, qty), log[k].side, log[k].px) ==
      [Order(log[k].id, log[k].qty - qty)] + Group(log[k + 1..], log[k].side, log[k].px)
  {
    var cut := Shrunk(log, k, qty);
    GroupSplit(cut, k, log[k].side, log[k].px);
    assert cut[..k] == log[..k] && cut[k + 1..] == log[k + 1..];
    GroupBeforeFirst(log, k);
  }

  lemma FirstIsBest(log: Log, side: Side, levels: Levels)
    requires GoodLevels(levels) && Groups(log, side, levels)
    ensures Quotes(side, log) <==> levels.Keys != {}
    ensures Quotes(side, log) ==> log[First(side, log)].px == Best(side, levels.Keys)
  {
    forall i | 0 <= i < |log| && log[i].side == side ensures log[i].px in levels {
      GroupEmpty(log, side, log[i].px);
      assert Group(log, side, log[i].px) == At(levels, log[i].px);
    }
    forall p | p in levels ensures exists i :: 0 <= i < |log| && log[i].side == side && log[i].px == p {
      GroupEmpty(log, side, p);
      assert Group(log, side, p) == At(levels, p);
    }
    if Quotes(side, log) {
      var k := First(side, log);
      assert log[k].px in levels.Keys;
      var best := Best(side, levels.Keys);
      var j :| 0 <= j < |log| && log[j].side == side && log[j].px == best;
      assert j == k || Prior(side, log, k, j);
    }
    if levels.Keys != {} {
      var p := Best(side, levels.Keys);
      assert p in levels;
    }
  }

  lemma TradeRefines(log: Log, side: Side, levels: Levels, cap: Cap, qty: int)
    requires Positive(log) && GoodLevels(levels) && Groups(log, side, levels)
    ensures CanTrade(side, log, cap, qty) <==> Tradable(side, levels, cap, qty)
    ensures CanTrade(side, log, cap, qty) ==>
      var k := First(side, log);
      var t := Trade(side, levels, qty);
      && t.fills == [Fill(log[k].px, Min(qty, log[k].qty), log[k].id)]
      && t.left == qty - Min(qty, log[k].qty)
      && Groups(Shrunk(log, k, qty), side, t.levels)
      && (forall s, p | s != side :: Group(Shrunk(log, k, qty), s, p) == Group(log, s, p))
  {
    FirstIsBest(log, side, levels);
    if CanTrade(side, log, cap, qty) {
      var k := First(side, log);
      var t := Trade(side, levels, qty);
      var best := Best(side, levels.Keys);
      assert Group(log, side, best) == At(levels, best);
      GroupShrunk(log, k, qty);
      forall p ensures Group(Shrunk(log, k, qty), side, p) == At(t.levels, p) {
        if p != best {
          GroupShrunkElsewhere(log, k, qty, side, p);
        }
        assert Group(log, side, p) == At(levels, p);
      }
      forall s, p | s != side ensures Group(Shrunk(log, k, qty), s, p) == Group(log, s, p) {
        GroupShrunkElsewhere(log, k, qty, s, p);
      }
    }
  }

  /** After a full run, as far as one side is concerned. */
  ghost predicate SideRefined(log: Log, d: Deal, side: Side, m: Outcome) {
    && d.fills == m.fills && d.left == m.left
    && Positive(d.log) && Groups(d.log, side, m.levels)
    && (forall s, p | s != side :: Group(d.log, s, p) == Group(log, s, p))
  }

  lemma SettleStep(log: Log, side: Side, levels: Levels, cap: Cap, qty: int)
    requires Positive(log) && GoodLevels(levels) && Groups(log, side, levels) && CanTrade(side, log, cap, qty)
    ensures Tradable(side, levels, cap, qty)
    ensures var k := First(side, log);
      var t := Trade(side, levels, qty);
      var cut := Shrunk(log, k, qty);
      && Positive(cut) && GoodLevels(t.levels) && Groups(cut, side, t.levels)
      && |t.fills| == 1 && t.left == qty - Min(qty, log[k].qty)
      && (var r := Settle(side, cut, cap, t.left);
          Settle(side, log, cap, qty) == Deal(t.fills + r.fills, r.left, r.log))
      && (forall s, p | s != side :: Group(cut, s, p) == Group(log, s, p))
  {
    TradeRefines(log, side, levels, cap, qty);
    TradeGood(side, levels, cap, qty);
    PositiveShrunk(log, First(side, log), qty);
  }

  lemma {:induction false} SettleRefines(log: Log, side: Side, levels: Levels, cap: Cap, qty: int)
    requires Positive(log) && GoodLevels(levels) && Groups(log, side, levels)
    ensures SideRefined(log, Settle(side, log, cap, qty), side, Match(side, levels, cap, qty))
    decreases |log|, qty > 0
  {
    if CanTrade(side, log, cap, qty) {
      SettleStep(log, side, levels, cap, qty);
      var cut := Shrunk(log, First(side, log), qty);
      var t := Trade(side, levels, qty);
      TradeShrinks(side, levels, cap, qty);
      SettleRefines(cut, side, t.levels, cap, t.left);
      var d := Settle(side, log, cap, qty);
      forall s, p | s != side ensures Group(d.log, s, p) == Group(log, s, p) {
        assert Group(cut, s, p) == Group(log, s, p);
      }
    } else {
      TradeRefines(log, side, levels, cap, qty);
    }
  }

  lemma {:induction false} GroupWithout(log: Log, id: Id, side: Side, px: int)
    ensures Group(Without(log, id), side, px) == Purge(Group(log, side, px), id)
    ensures Positive(log) ==> Positive(Without(log, id))
  {
    if log != [] {
      GroupWithout(log[1..], id, side, px);
      if log[0].id != id {
        assert Without(log, id)[1..] == Without(log[1..], id);
      }
      if log[0].side == side && log[0].px == px {
        assert Group(log, side, px)[1..] == Group(log[1..], side, px);
        assert Group(log, side, px)[0].id == log[0].id;
      }
    }
  }

  lemma MatchedRefines(b: Book, log: Log, buy: bool, cap: Cap, qty: int)
    requires Healthy(b) && Refines(b, log)
    ensures var d := Settle(Opposite(buy), log, cap, qty);
      && d.fills == Taken(b, buy, cap, qty).fills
      && d.left == Taken(b, buy, cap, qty).left
      && Refines(Matched(b, buy, cap, qty), d.log)
  {
    var side := Opposite(buy);
    SettleRefines(log, side, b.On(side), cap, qty);
    var d := Settle(side, log, cap, qty);
    var c := Matched(b, buy, cap, qty);
    forall p ensures Group(d.log, Bid, p) == At(c.bids, p) && Group(d.log, Ask, p) == At(c.asks, p) {
      assert Group(log, Bid, p) == At(b.bids, p) && Group(log, Ask, p) == At(b.asks, p);
    }
  }

  lemma RestedRefines(b: Book, log: Log, id: Id, buy: bool, px: int, qty: int)
    requires Refines(b, log) && qty > 0
    ensures Refines(Rested(Go, b, id, buy, px, qty), log + [Live(id, Own(buy), px, qty)])
  {
    var after := log + [Live(id, Own(buy), px, qty)];
    var c := Rested(Go, b, id, buy, px, qty);
    forall s, p ensures Group(after, s, p) == At(c.On(s), p) {
      GroupSplit(after, |log|, s, p);
      assert after[..|log|] == log && after[|log| + 1..] == [];
      assert Group(log, s, p) == At(b.On(s), p);
    }
    assert c.On(Bid) == c.bids && c.On(Ask) == c.asks;
  }

  lemma CancelledRefines(b: Book, log: Log, target: Id)
    requires Healthy(b) && Exact(b) && Refines(b, log)
    ensures Refines(Cancelled(Go, b, target), Without(log, target))
  {
    CompleteScans(Go, b, target);
    var c := Scanned(b, target);
    forall p
      ensures Group(Without(log, target), Bid, p) == At(c.bids, p)
      ensures Group(Without(log, target), Ask, p) == At(c.asks, p)
    {
      GroupWithout(log, target, Bid, p);
      GroupWithout(log, target, Ask, p);
      assert Group(log, Bid, p) == At(b.bids, p) && Group(log, Ask, p) == At(b.asks, p);
    }
    GroupWithout(log, target, Bid, 0);
  }

  /** One operation of the Go book is one operation of the reference book. */
  lemma StepRefines(b: Book, log: Log, op: Op)
    requires Healthy(b) && Exact(b) && Refines(b, log)
    ensures Fills(b, op) == Deals(log, op)
    ensures Refines(Step(Go, b, op), Next(log, op))
  {
    match op
    case Limit(id, buy, px, qty) =>
      MatchedRefines(b, log, buy, Cap(px), qty);
      var left := Taken(b, buy, Cap(px), qty).left;
      if left > 0 {
        RestedRefines(Matched(b, buy, Cap(px), qty), Settle(Opposite(buy), log, Cap(px), qty).log, id, buy, px, left);
      }
    case Market(id, buy, qty) => MatchedRefines(b, log, buy, NoCap, qty);
    case Cancel(target) => CancelledRefines(b, log, target);
  }

  /** Every limit order that rests does so while its id rests nowhere. */
  ghost predicate AdmittedRun(ops: seq<Op>) {
    forall k | 0 <= k < |ops| :: AdmittedAt(ops, k)
  }

  ghost predicate AdmittedAt(ops: seq<Op>, k: nat)
    requires k < |ops|
  {
    Admits(Go, Run(Go, ops[..k]), ops[k])
  }

  lemma AdmittedIsLevelFresh(b: Book, op: Op)
    requires Healthy(b) && Admits(Go, b, op)
    ensures LevelFresh(b, op)
  {
    if op.Limit? && Taken(b, op.buy, Cap(op.px), op.qty).left > 0 && op.id in Ids(At(b.On(Own(op.buy)), op.px)) {
      MatchedKeeps(b, op.buy, Cap(op.px), op.qty);
      assert Lives(Matched(b, op.buy, Cap(op.px), op.qty), Own(op.buy), op.px, op.id);
    }
  }

  lemma {:induction false} GoRunRefines(ops: seq<Op>)
    requires AdmittedRun(ops)
    ensures Exact(Run(Go, ops)) && LevelFreshRun(ops)
    ensures Refines(Run(Go, ops), LogAfter(ops))
    ensures Tape(Go, ops) == TapeOf(ops)
  {
    if ops != [] {
      var n := |ops| - 1;
      var before := ops[..n];
      assert AdmittedRun(before) by {
        forall k | 0 <= k < n ensures AdmittedAt(before, k) {
          PrefixOfPrefix(ops, n, k);
          assert AdmittedAt(ops, k);
        }
      }
      GoRunRefines(before);
      RunHealthy(Go, before);
      var b := Run(Go, before);
      assert AdmittedAt(ops, n);
      StepRefines(b, LogAfter(before), ops[n]);
      StepExact(Go, b, ops[n]);
      AdmittedIsLevelFresh(b, ops[n]);
      LevelFreshExtends(ops);
    }
  }

  /** Every engine reports, operation by operation, the fills of the reference book and ends with its orders. */
  lemma EnginesRefineReference(e: Engine, ops: seq<Op>)
    requires AdmittedRun(ops)
    ensures Tape(e, ops) == TapeOf(ops)
    ensures Refines(Run(e, ops), LogAfter(ops))
  {
    GoRunRefines(ops);
    TapesAgree(e, ops);
    RunsEqual(e, ops);
  }

  lemma {:induction false} FreshRunAdmitted(ops: seq<Op>)
    requires FreshRun(Go, ops)
    ensures AdmittedRun(ops)
  {
    forall k | 0 <= k < |ops| ensures AdmittedAt(ops, k) {
      var before := ops[..k];
      assert FreshRun(Go, before) by {
        forall j | 0 <= j < k ensures FreshAt(Go, before, j) {
          PrefixOfPrefix(ops, k, j);
          assert FreshAt(Go, ops, j);
        }
      }
      assert FreshAt(Go, ops, k);
      FreshRunExact(Go, before);
      RunHealthy(Go, before);
      FreshIsAdmitted(Go, Run(Go, before), ops[k]);
    }
  }
}
