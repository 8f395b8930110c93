/**
 When the difference between the engines can be seen from outside: from the first order that rests without being fresh for
 its level, a cancel and a sale make two engines report different fills.
*/
module Tapes {
  import opened Market
  import opened BookLaws
  import opened Identity
  import opened Ledger

  predicate NoLimits(ops: seq<Op>) {
    forall k | 0 <= k < |ops| :: !ops[k].Limit?
  }

  ghost predicate SameTapes(ops: seq<Op>) {
    forall e :: Tape(e, ops) == Tape(Go, ops)
  }

  /** However a part of the run goes on with cancels and market orders, all engines report the same fills. */
  ghost predicate NeverTold(ops: seq<Op>) {
    forall k, more | 0 <= k <= |ops| && NoLimits(more) :: SameTapes(ops[..k] + more)
  }

  // ---------- level-fresh runs ----------

  lemma {:induction false} StaysLevelFresh(ops: seq<Op>, more: seq<Op>)
    requires LevelFreshRun(ops) && NoLimits(more)
    ensures LevelFreshRun(ops + more)
  {
    if more == [] {
      assert ops + more == ops;
    } else {
      var n := |more| - 1;
      StaysLevelFresh(ops, more[..n]);
      assert (ops + more)[..|ops| + n] == ops + more[..n] && (ops + more)[|ops| + n] == more[n];
      LevelFreshGrows(ops + more);
    }
  }

  // ---------- a sale that empties a side ----------

  /** All that can be bought or sold on a side. */
  ghost function Everything(side: Side, levels: Levels): int
    requires GoodLevels(levels)
    decreases |levels|, Depth(side, levels)
  {
    if levels.Keys == {} then 0
    else
      var first := levels[Best(side, levels.Keys)][0].qty;
      FirstLeaves(side, levels);
      first + Everything(side, Trade(side, levels, first).levels)
  }

  lemma FirstLeaves(side: Side, levels: Levels)
    requires GoodLevels(levels) && levels.Keys != {}
    ensures var first := levels[Best(side, levels.Keys)][0].qty;
      && first > 0 && Tradable(side, levels, NoCap, first)
      && GoodLevels(Trade(side, levels, first).levels)
      && (|Trade(side, levels, first).levels| < |levels| ||
          (|Trade(side, levels, first).levels| == |levels| &&
           Depth(side, Trade(side, levels, first).levels) < Depth(side, levels)))
  {
    var level := levels[Best(side, levels.Keys)];
    assert level[0] in level;
    var first := level[0].qty;
    TradeConsumes(side, levels, NoCap, first);
    TradeShrinks(side, levels, NoCap, first);
  }

  lemma {:induction false} LargeSaleEmpties(side: Side, levels: Levels, qty: int)
    requires GoodLevels(levels) && qty > Everything(side, levels)
    ensures Match(side, levels, NoCap, qty).levels.Keys == {}
    decreases |levels|, Depth(side, levels)
  {
    if levels.Keys != {} {
      FirstLeaves(side, levels);
      var first := levels[Best(side, levels.Keys)][0].qty;
      EverythingPositive(side, Trade(side, levels, first).levels);
      assert Trade(side, levels, qty).levels == Trade(side, levels, first).levels;
      LargeSaleEmpties(side, Trade(side, levels, first).levels, qty - first);
      MatchOnce(side, levels, NoCap, qty);
    } else {
      EverythingPositive(side, levels);
    }
  }

  lemma {:induction false} EverythingPositive(side: Side, levels: Levels)
    requires GoodLevels(levels)
    ensures Everything(side, levels) >= 0
    decreases |levels|, Depth(side, levels)
  {
    if levels.Keys != {} {
      FirstLeaves(side, levels);
      EverythingPositive(side, Trade(side, levels, levels[Best(side, levels.Keys)][0].qty).levels);
    }
  }

  /** Such a sale reports everything an id has on the side. */
  lemma LargeSaleReports(side: Side, levels: Levels, qty: int, id: Id)
    requires GoodLevels(levels) && qty > Everything(side, levels)
    ensures Made(Match(side, levels, NoCap, qty).fills, id) == HeldOn(levels, id)
  {
    LargeSaleEmpties(side, levels, qty);
    MatchBalances(side, levels, NoCap, qty, id);
  }

  // ---------- the first order that is not fresh ----------

  lemma {:induction false} HeldInLevel(level: Level, id: Id)
    requires GoodLevel(level) && id in Ids(level)
    ensures Held(level, id) > 0
  {
    IdsHead(level);
    assert level[0] in level;
    if level[0].id == id {
      HeldPositive(level[1..], id);
    } else {
      HeldInLevel(level[1..], id);
    }
  }

  /** After it, a cancel of its id leaves more of the id in Go than in Rust. */
  lemma CancelsDiffer(b: Book, side: Side, px: int, id: Id, level: Level, qty: int)
    requires Healthy(b) && id in b.index && b.index[id] == Spot(side, px)
    requires px in b.On(side) && b.On(side)[px] == level + [Order(id, qty)] && GoodLevel(level) && id in Ids(level)
    ensures HeldOn(Cancelled(Rust, b, id).On(side), id) < HeldOn(Cancelled(Go, b, id).On(side), id)
  {
    var grown := level + [Order(id, qty)];
    var k := |level|;
    assert grown[k] in grown && Youngest(grown, id) == k;
    assert DropAt(grown, k) == level;
    HeldOnPut(b.On(side), id, px, Dequeue(Go, grown, id));
    HeldOnPut(b.On(side), id, px, Dequeue(Rust, grown, id));
    PurgeHolds(grown, id, id);
    HeldInLevel(level, id);
  }

  /** The sale that tells two books apart. */
  lemma SalesDiffer(a: Book, c: Book, buy: bool, id: Id) returns (sale: Op)
    requires Healthy(a) && Healthy(c) && HeldOn(a.On(Own(buy)), id) != HeldOn(c.On(Own(buy)), id)
    ensures !sale.Limit? && Fills(a, sale) != Fills(c, sale)
  {
    var side := Own(buy);
    assert GoodLevels(a.On(side)) && GoodLevels(c.On(side));
    var x, y := Everything(side, a.On(side)), Everything(side, c.On(side));
    var qty := if x > y then x + 1 else y + 1;
    sale := Op.Market(id, !buy, qty);
    LargeSaleReports(side, a.On(side), qty, id);
    LargeSaleReports(side, c.On(side), qty, id);
  }

  lemma NotFreshTells(b: Book, op: Op) returns (more: seq<Op>)
    requires Healthy(b) && !LevelFresh(b, op)
    ensures |more| == 2 && NoLimits(more)
    ensures Fills(Step(Rust, Step(Rust, b, op), more[0]), more[1]) != Fills(Step(Go, Step(Go, b, op), more[0]), more[1])
  {
    var id, buy, px, qty := op.id, op.buy, op.px, op.qty;
    var left := Taken(b, buy, Cap(px), qty).left;
    var level := At(b.On(Own(buy)), px);
    MatchedKeeps(b, buy, Cap(px), qty);
    var d := Step(Go, b, op);
    assert Step(Rust, b, op) == d;
    StepKeeps(Go, b, op);
    assert d.On(Own(buy))[px] == level + [Order(id, left)];
    CancelsDiffer(d, Own(buy), px, id, level, left);
    StepKeeps(Go, d, Cancel(id));
    StepKeeps(Rust, d, Cancel(id));
    var sale := SalesDiffer(Cancelled(Rust, d, id), Cancelled(Go, d, id), buy, id);
    more := [Cancel(id), sale];
  }

  lemma {:induction false} FirstNotFresh(ops: seq<Op>) returns (k: nat)
    requires !LevelFreshRun(ops)
    ensures k < |ops| && LevelFreshRun(ops[..k]) && !LevelFreshAt(ops, k)
  {
    var n := |ops| - 1;
    LevelFreshExtends(ops);
    if LevelFreshRun(ops[..n]) {
      k := n;
    } else {
      k := FirstNotFresh(ops[..n]);
      LevelFreshOfPrefix(ops, n, k);
      PrefixOfPrefix(ops, n, k);
    }
  }

  lemma LastFills(e: Engine, before: seq<Op>, op: Op, more: seq<Op>)
    requires |more| == 2
    ensures |Tape(e, before + [op] + more)| == |before| + 3
    ensures Tape(e, before + [op] + more)[|before| + 2] ==
      Fills(Step(e, Step(e, Run(e, before), op), more[0]), more[1])
  {
    var part := before + [op];
    OneMore(e, before, op, part);
    TwoMore(e, part, more[0], more[1], part + more);
    TapeLength(e, part);
  }

  lemma TellsApart(before: seq<Op>, op: Op, more: seq<Op>, ops: seq<Op>)
    requires |more| == 2 && ops == before + [op] + more && Run(Rust, before) == Run(Go, before)
    requires var b := Run(Go, before);
      Fills(Step(Rust, Step(Rust, b, op), more[0]), more[1]) != Fills(Step(Go, Step(Go, b, op), more[0]), more[1])
    ensures !SameTapes(ops)
  {
    LastFills(Rust, before, op, more);
    LastFills(Go, before, op, more);
  }

  lemma NextTells(before: seq<Op>, op: Op, part: seq<Op>) returns (more: seq<Op>)
    requires LevelFreshRun(before) && !LevelFresh(Run(Go, before), op) && part == before + [op]
    ensures NoLimits(more) && !SameTapes(part + more)
  {
    RunsEqual(Rust, before);
    RunHealthy(Go, before);
    more := NotFreshTells(Run(Go, before), op);
    TellsApart(before, op, more, part + more);
  }

  lemma TapesTell(ops: seq<Op>)
    requires !LevelFreshRun(ops)
    ensures !NeverTold(ops)
  {
    var k := FirstNotFresh(ops);
    var more := NextTells(ops[..k], ops[k], ops[..k + 1]);
  }

  /** The engines report the same fills, however the run or a part of it goes on with cancels and market orders, if and only
      if every order of the run that rests is fresh for its level. */
  lemma TapesDecide(ops: seq<Op>)
    ensures NeverTold(ops) <==> LevelFreshRun(ops)
  {
    if LevelFreshRun(ops) {
      forall k, more | 0 <= k <= |ops| && NoLimits(more) ensures SameTapes(ops[..k] + more) {
        LevelFreshRestricts(ops, k);
        StaysLevelFresh(ops[..k], more);
        forall e ensures Tape(e, ops[..k] + more) == Tape(Go, ops[..k] + more) {
          TapesAgree(e, ops[..k] + more);
        }
      }
    } else {
      TapesTell(ops);
    }
  }
}
