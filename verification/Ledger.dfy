/**
 Conservation of quantity, id by id, over whole runs of any engine and with no assumption on ids.
*/
module Ledger {
  import opened Market
  import opened BookLaws

  /** The quantity resting on a level under id. */
  function Held(level: Level, id: Id): int {
    if level == [] then 0 else (if level[0].id == id then level[0].qty else 0) + Held(level[1..], id)
  }

  ghost function HeldOn(levels: Levels, id: Id): int
    decreases |levels|
  {
    if levels.Keys == {} then 0
    else
      var p := Best(Ask, levels.Keys);
      assert |levels.Keys| == |levels|;
      Held(levels[p], id) + HeldOn(levels - {p}, id)
  }

  ghost function Resting(b: Book, id: Id): int {
    HeldOn(b.bids, id) + HeldOn(b.asks, id)
  }

  /** What id traded as a maker. */
  function Made(fills: seq<Fill>, id: Id): int {
    if fills == [] then 0 else (if fills[0].maker == id then fills[0].qty else 0) + Made(fills[1..], id)
  }

  // ---------- sums over a side ----------

  lemma {:induction false} HeldOnSplit(levels: Levels, id: Id, px: int)
    requires px in levels
    ensures HeldOn(levels, id) == Held(levels[px], id) + HeldOn(levels - {px}, id)
    decreases |levels|
  {
    var p := Best(Ask, levels.Keys);
    if p != px {
      assert |(levels - {p}).Keys| < |levels.Keys|;
      HeldOnSplit(levels - {p}, id, px);
      BestIsUnique(Ask, (levels - {px}).Keys, p);
      assert levels - {p} - {px} == levels - {px} - {p};
    }
  }

  lemma HeldOnPut(levels: Levels, id: Id, px: int, after: Level)
    ensures HeldOn(Put(levels, px, after), id) == HeldOn(levels, id) - Held(At(levels, px), id) + Held(after, id)
  {
    var others := levels - {px};
    var put := Put(levels, px, after);
    if px in levels {
      HeldOnSplit(levels, id, px);
    } else {
      assert others == levels;
    }
    if after != [] {
      HeldOnSplit(put, id, px);
      assert put - {px} == others;
    }
  }

  lemma {:induction false} HeldConcat(a: Level, c: Level, id: Id)
    ensures Held(a + c, id) == Held(a, id) + Held(c, id)
  {
    if a == [] {
      assert a + c == c;
    } else {
      assert (a + c)[1..] == a[1..] + c;
      HeldConcat(a[1..], c, id);
    }
  }

  lemma {:induction false} HeldPositive(level: Level, id: Id)
    requires GoodLevel(level)
    ensures Held(level, id) >= 0
  {
    if level != [] {
      HeldPositive(level[1..], id);
    }
  }

  lemma {:induction false} HeldOnPositive(levels: Levels, id: Id)
    requires GoodLevels(levels)
    ensures HeldOn(levels, id) >= 0
    decreases |levels|
  {
    if levels.Keys != {} {
      var p := Best(Ask, levels.Keys);
      assert |(levels - {p}).Keys| < |levels.Keys|;
      HeldPositive(levels[p], id);
      HeldOnPositive(levels - {p}, id);
    }
  }

  // ---------- operations ----------

  lemma TradeBalances(side: Side, levels: Levels, cap: Cap, qty: int, id: Id)
    requires Tradable(side, levels, cap, qty)
    ensures var t := Trade(side, levels, qty);
      && HeldOn(levels, id) == HeldOn(t.levels, id) + Made(t.fills, id)
      && qty == t.left + Volume(t.fills)
  {
    var best := Best(side, levels.Keys);
    var after := Served(levels[best], qty);
    HeldOnPut(levels, id, best, after);
    assert Trade(side, levels, qty).fills[1..] == [];
    if qty < levels[best][0].qty {
      assert after[1..] == levels[best][1..];
    }
  }

  lemma FirstFill(fill: Fill, rest: seq<Fill>, id: Id)
    ensures Made([fill] + rest, id) == Made([fill], id) + Made(rest, id)
    ensures Volume([fill] + rest) == Volume([fill]) + Volume(rest)
  {
    assert ([fill] + rest)[1..] == rest;
    assert [fill][1..] == [];
  }

  /** A match takes from each maker what it reports, and from the taker what it reports in all. */
  lemma {:induction false} MatchBalances(side: Side, levels: Levels, cap: Cap, qty: int, id: Id)
    ensures var m := Match(side, levels, cap, qty);
      && HeldOn(levels, id) == HeldOn(m.levels, id) + Made(m.fills, id)
      && qty == m.left + Volume(m.fills)
    decreases |levels|, Depth(side, levels), qty > 0
  {
    if Tradable(side, levels, cap, qty) {
      var t := Trade(side, levels, qty);
      TradeShrinks(side, levels, cap, qty);
      TradeBalances(side, levels, cap, qty, id);
      MatchBalances(side, t.levels, cap, t.left, id);
      FirstFill(t.fills[0], Match(side, t.levels, cap, t.left).fills, id);
      assert t.fills == [t.fills[0]];
    }
  }

  lemma {:induction false} MergeHolds(level: Level, id: Id, qty: int, x: Id)
    ensures Held(Merge(level, id, qty), x) == Held(level, x) + (if x == id then qty else 0)
  {
    if level != [] && level[0].id != id {
      MergeHolds(level[1..], id, qty, x);
      assert Merge(level, id, qty)[1..] == Merge(level[1..], id, qty);
    }
  }

  lemma EnqueueHolds(e: Engine, level: Level, id: Id, qty: int, x: Id)
    ensures Held(Enqueue(e, level, id, qty), x) == Held(level, x) + (if x == id then qty else 0)
  {
    MergeHolds(level, id, qty, x);
    HeldConcat(level, [Order(id, qty)], x);
    assert [Order(id, qty)][1..] == [];
  }

  lemma {:induction false} PurgeHolds(level: Level, id: Id, x: Id)
    ensures Held(Purge(level, id), x) == if x == id then 0 else Held(level, x)
  {
    if level != [] {
      PurgeHolds(level[1..], id, x);
      if level[0].id != id {
        assert Purge(level, id)[1..] == Purge(level[1..], id);
      }
    }
  }

  lemma DropHolds(level: Level, k: nat, x: Id)
    requires k < |level|
    ensures Held(DropAt(level, k), x) == Held(level, x) - (if level[k].id == x then level[k].qty else 0)
  {
    assert level == level[..k] + level[k..];
    HeldConcat(level[..k], level[k..], x);
    assert level[k..][1..] == level[k + 1..];
    HeldConcat(level[..k], level[k + 1..], x);
  }

  /** The quantity a cancel withdraws: the indexed order in Go and C++, all of that id on the level in the
      others. */
  function Withdrawn(e: Engine, b: Book, target: Id): int {
    if target !in b.index then 0
    else
      var level := At(b.On(b.index[target].side), b.index[target].px);
      if e in {Rust, Python} then Held(level, target)
      else if target in Ids(level) then level[Youngest(level, target)].qty
      else 0
  }

  lemma CancelBalances(e: Engine, b: Book, target: Id, id: Id)
    requires Healthy(b)
    ensures Resting(Cancelled(e, b, target), id) == Resting(b, id) - (if id == target then Withdrawn(e, b, target) else 0)
  {
    if target in b.index {
      var Spot(side, px) := b.index[target];
      var level := b.On(side)[px];
      HeldOnPut(b.On(side), id, px, Dequeue(e, level, target));
      PurgeHolds(level, target, id);
      DropHolds(level, Youngest(level, target), id);
    }
  }

  /** What has become, so far, of the quantity submitted under one id. */
  datatype Account = Account(submitted: int, taken: int, made: int, withdrawn: int, dropped: int) {
    function Plus(a: Account): Account {
      Account(submitted + a.submitted, taken + a.taken, made + a.made, withdrawn + a.withdrawn, dropped + a.dropped)
    }
  }

  function Max0(x: int): int {
    if x > 0 then x else 0
  }

  ghost function Entry(e: Engine, b: Book, op: Op, id: Id): Account {
    match op
    case Limit(taker, buy, px, qty) =>
      var m := Taken(b, buy, Cap(px), qty);
      var own := taker == id;
      Account(if own then Max0(qty) else 0, if own then Volume(m.fills) else 0, Made(m.fills, id), 0, 0)
    case Market(taker, buy, qty) =>
      var m := Taken(b, buy, NoCap, qty);
      var own := taker == id;
      Account(if own then Max0(qty) else 0, if own then Volume(m.fills) else 0, Made(m.fills, id), 0,
              if own then Max0(m.left) else 0)
    case Cancel(target) => Account(0, 0, 0, if target == id then Withdrawn(e, b, target) else 0, 0)
  }

  lemma NothingTaken(side: Side, levels: Levels, cap: Cap, qty: int)
    requires qty <= 0
    ensures Match(side, levels, cap, qty) == Outcome([], qty, levels, {})
  {
  }

  lemma {:induction false} LeftNonNegative(side: Side, levels: Levels, cap: Cap, qty: int)
    requires qty >= 0
    ensures Match(side, levels, cap, qty).left >= 0
    decreases |levels|, Depth(side, levels), qty > 0
  {
    if Tradable(side, levels, cap, qty) {
      TradeShrinks(side, levels, cap, qty);
      LeftNonNegative(side, Trade(side, levels, qty).levels, cap, Trade(side, levels, qty).left);
    }
  }

  lemma MatchedBalances(b: Book, buy: bool, cap: Cap, qty: int, id: Id)
    ensures var m := Taken(b, buy, cap, qty);
      && Resting(b, id) == Resting(Matched(b, buy, cap, qty), id) + Made(m.fills, id)
      && Max0(qty) == Volume(m.fills) + Max0(m.left)
  {
    var side := Opposite(buy);
    MatchBalances(side, b.On(side), cap, qty, id);
    if qty >= 0 {
      LeftNonNegative(side, b.On(side), cap, qty);
    } else {
      NothingTaken(side, b.On(side), cap, qty);
    }
  }

  lemma RestedBalances(e: Engine, b: Book, taker: Id, buy: bool, px: int, qty: int, id: Id)
    ensures Resting(Rested(e, b, taker, buy, px, qty), id) == Resting(b, id) + (if taker == id then qty else 0)
  {
    var levels := b.On(Own(buy));
    var level := Enqueue(e, At(levels, px), taker, qty);
    EnqueueNonEmpty(e, At(levels, px), taker, qty);
    EnqueueHolds(e, At(levels, px), taker, qty, id);
    HeldOnPut(levels, id, px, level);
    assert Put(levels, px, level) == levels[px := level];
  }

  /** One operation accounts for every unit of every id. */
  lemma StepBalances(e: Engine, b: Book, op: Op, id: Id)
    requires Healthy(b)
    ensures var a := Entry(e, b, op, id);
      Resting(b, id) + a.submitted == a.taken + a.made + a.withdrawn + a.dropped + Resting(Step(e, b, op), id)
  {
    match op
    case Limit(taker, buy, px, qty) =>
      MatchedBalances(b, buy, Cap(px), qty, id);
      var left := Taken(b, buy, Cap(px), qty).left;
      RestedBalances(e, Matched(b, buy, Cap(px), qty), taker, buy, px, left, id);
    case Market(taker, buy, qty) => MatchedBalances(b, buy, NoCap, qty, id);
    case Cancel(target) => CancelBalances(e, b, target, id);
  }

  lemma EnqueueNonEmpty(e: Engine, level: Level, id: Id, qty: int)
    ensures Enqueue(e, level, id, qty) != []
  {
  }

  ghost function AccountOf(e: Engine, ops: seq<Op>, id: Id): Account {
    if ops == [] then Account(0, 0, 0, 0, 0)
    else
      var before := ops[..|ops| - 1];
      AccountOf(e, before, id).Plus(Entry(e, Run(e, before), ops[|ops| - 1], id))
  }

  /** In every run of every engine, and for every id however often it is reused: what was submitted under the
      id was taken, made, withdrawn or dropped, or still rests; and no more is made than came to rest. */
  lemma {:induction false} RunBalances(e: Engine, ops: seq<Op>, id: Id)
    ensures var a := AccountOf(e, ops, id);
      && a.submitted == a.taken + a.made + a.withdrawn + a.dropped + Resting(Run(e, ops), id)
      && Resting(Run(e, ops), id) >= 0
      && a.made <= a.submitted - a.taken - a.withdrawn - a.dropped
  {
    RunHealthy(e, ops);
    HeldOnPositive(Run(e, ops).bids, id);
    HeldOnPositive(Run(e, ops).asks, id);
    if ops != [] {
      var before := ops[..|ops| - 1];
      RunBalances(e, before, id);
      RunHealthy(e, before);
      StepBalances(e, Run(e, before), ops[|ops| - 1], id);
    }
  }

  // ---------- each fill ----------

  /** Every fill is at the price of a level that held its maker, crosses the taker's cap and moves quantity. */
  lemma {:induction false} FillsAreFair(side: Side, levels: Levels, cap: Cap, qty: int)
    requires GoodLevels(levels)
    ensures forall f | f in Match(side, levels, cap, qty).fills ::
      && 0 < f.qty <= qty
      && (cap.Cap? ==> if side == Ask then f.px <= cap.px else f.px >= cap.px)
      && Crosses(side, f.px, cap)
      && f.px in levels && f.maker in Ids(levels[f.px])
    decreases |levels|, Depth(side, levels), qty > 0
  {
    if Tradable(side, levels, cap, qty) {
      var t := Trade(side, levels, qty);
      TradeShrinks(side, levels, cap, qty);
      TradeConsumes(side, levels, cap, qty);
      FillsAreFair(side, t.levels, cap, t.left);
      var best := Best(side, levels.Keys);
      assert levels[best][0] in levels[best];
    }
  }

  // ---------- the limit, in plain prices ----------

  /** A limit order never trades at a price worse than its limit; and if it is not filled, every price left on the opposite
      side is worse than that. */
  lemma LimitIsKept(e: Engine, b: Book, id: Id, buy: bool, px: int, qty: int)
    requires Good(b)
    ensures var op := Limit(id, buy, px, qty);
      && (forall f | f in Fills(b, op) :: if buy then f.px <= px else f.px >= px)
      && (Volume(Fills(b, op)) < qty ==>
            forall p | p in Step(e, b, op).On(Opposite(buy)) :: if buy then p > px else p < px)
  {
    var side := Opposite(buy);
    FillsAreFair(side, b.On(side), Cap(px), qty);
    MatchConsumes(side, b.On(side), Cap(px), qty);
    MatchBalances(side, b.On(side), Cap(px), qty, id);
  }

  /** A market order that is not filled leaves nothing on the opposite side. */
  lemma MarketTakesAll(e: Engine, b: Book, id: Id, buy: bool, qty: int)
    requires Good(b)
    ensures var op := Op.Market(id, buy, qty);
      Volume(Fills(b, op)) < qty ==> Step(e, b, op).On(Opposite(buy)).Keys == {}
  {
    var side := Opposite(buy);
    MatchConsumes(side, b.On(side), NoCap, qty);
    MatchBalances(side, b.On(side), NoCap, qty, id);
  }

  /** A buyer's fills never get cheaper, a seller's never dearer. */
  predicate InPriceOrder(buy: bool, fills: seq<Fill>) {
    forall j, k | 0 <= j < k < |fills| :: if buy then fills[j].px <= fills[k].px else fills[j].px >= fills[k].px
  }

  lemma OneFirst(buy: bool, first: Fill, later: seq<Fill>)
    requires InPriceOrder(buy, later) && forall f | f in later :: if buy then first.px <= f.px else first.px >= f.px
    ensures InPriceOrder(buy, [first] + later)
  {
  }

  /** Better prices are taken first. */
  lemma {:induction false} BestPricesFirst(buy: bool, levels: Levels, cap: Cap, qty: int)
    requires GoodLevels(levels)
    ensures InPriceOrder(buy, Match(Opposite(buy), levels, cap, qty).fills)
    decreases |levels|, Depth(Opposite(buy), levels), qty > 0
  {
    var side := Opposite(buy);
    if Tradable(side, levels, cap, qty) {
      var t := Trade(side, levels, qty);
      TradeShrinks(side, levels, cap, qty);
      TradeConsumes(side, levels, cap, qty);
      MatchOnce(side, levels, cap, qty);
      BestPricesFirst(buy, t.levels, cap, t.left);
      FillsAreFair(side, t.levels, cap, t.left);
      OneFirst(buy, t.fills[0], Match(side, t.levels, cap, t.left).fills);
      assert t.fills == [t.fills[0]];
    }
  }

  lemma {:induction false} TapeAt(e: Engine, ops: seq<Op>, k: nat)
    requires k < |ops|
    ensures |Tape(e, ops)| == |ops| && Tape(e, ops)[k] == Fills(Run(e, ops[..k]), ops[k])
  {
    var before := ops[..|ops| - 1];
    TapeLength(e, before);
    if k < |before| {
      TapeAt(e, before, k);
      assert before[..k] == ops[..k];
    }
  }

  /** In every run of every engine no limit order trades at a price worse than its limit, and its fills come in the order
      of their prices. */
  lemma TapeKeepsLimits(e: Engine, ops: seq<Op>, k: nat)
    requires k < |ops| && ops[k].Limit?
    ensures |Tape(e, ops)| == |ops|
    ensures var fills, buy := Tape(e, ops)[k], ops[k].buy;
      && (forall f | f in fills :: if buy then f.px <= ops[k].px else f.px >= ops[k].px)
      && InPriceOrder(buy, fills)
  {
    var Limit(id, buy, px, qty) := ops[k];
    var b := Run(e, ops[..k]);
    TapeAt(e, ops, k);
    RunHealthy(e, ops[..k]);
    LimitIsKept(e, b, id, buy, px, qty);
    BestPricesFirst(buy, b.On(Opposite(buy)), Cap(px), qty);
  }
}
