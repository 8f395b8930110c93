/**
 Short runs with a repeated id: two on which the reference engines report different fills, one on which they do not, and
 one after which the id index is incomplete. So the freshness conditions of modules Identity and Directory cannot be dropped.
*/
module Divergence {
  import opened Market
  import opened BookLaws
  import opened Directory
  import opened Identity

  /** Two bids under one id at one price, a cancel of that id, and a sale. */
  function Swept(): seq<Op> {
    [Limit(1, true, 100, 5), Limit(1, true, 100, 5), Cancel(1), Op.Market(2, false, 5)]
  }

  /** A bid under the id of an older bid at the same price, with another bid in between, and a sale. */
  function Merged(): seq<Op> {
    [Limit(1, true, 100, 5), Limit(2, true, 100, 5), Limit(1, true, 100, 5), Op.Market(3, false, 6)]
  }

  lemma SaleMeets(level: Level, index: map<Id, Spot>, qty: int)
    requires level != [] && qty > 0 && GoodLevel(level)
    ensures var b, maker := BidsAt(100, level, index), level[0];
      Taken(b, false, NoCap, qty).fills ==
      [Fill(100, Min(qty, maker.qty), maker.id)] +
      (if maker.qty < qty then Taken(BidsAt(100, level[1..], index), false, NoCap, qty - maker.qty).fills else [])
  {
    var b := BidsAt(100, level, index);
    BestIsUnique(Bid, b.bids.Keys, 100);
    assert b.bids.Keys == {100};
    var t := Trade(Bid, b.bids, qty);
    TradeShrinks(Bid, b.bids, NoCap, qty);
    assert level[0] in level;
    if level[0].qty < qty {
      assert t.levels == BidsAt(100, level[1..], index).bids;
    } else {
      MatchStops(Bid, t.levels, NoCap, t.left, [], {});
    }
  }

  lemma TwoOps(e: Engine, a: Op, b: Op, ops: seq<Op>)
    requires ops == [a, b]
    ensures Run(e, ops) == Step(e, Step(e, EMPTY, a), b)
    ensures Tape(e, ops) == [Fills(EMPTY, a), Fills(Step(e, EMPTY, a), b)]
  {
    OneMore(e, [], a, [a]);
    OneMore(e, [a], b, ops);
  }

  lemma FourOps(e: Engine, a: Op, b: Op, c: Op, d: Op)
    ensures var s2 := Step(e, Step(e, EMPTY, a), b);
      && Run(e, [a, b, c, d]) == Step(e, Step(e, s2, c), d)
      && Tape(e, [a, b, c, d]) ==
        [Fills(EMPTY, a), Fills(Step(e, EMPTY, a), b), Fills(s2, c), Fills(Step(e, s2, c), d)]
  {
    var two := [a, b];
    TwoOps(e, a, b, two);
    TwoMore(e, two, c, d, [a, b, c, d]);
  }

  const ONE: Level := [Order(1, 5)]

  const AT_100: map<Id, Spot> := map[1 := Spot(Bid, 100)]

  lemma FirstBid(e: Engine)
    ensures Step(e, EMPTY, Limit(1, true, 100, 5)) == BidsAt(100, ONE, AT_100)
  {
    assert EMPTY == BidsAt(100, [], map[]);
    BidJoins(e, 100, [], map[], 1, 5);
    assert Enqueue(e, [], 1, 5) == ONE;
    assert map[][1 := Spot(Bid, 100)] == AT_100;
  }

  /** After the sweep Rust has nothing left to sell to, while Go still fills the older bid. */
  lemma RustSweepsWhatGoKeeps()
    ensures |Tape(Go, Swept())| == 4 && Tape(Go, Swept())[3] == [Fill(100, 5, 1)]
    ensures |Tape(Rust, Swept())| == 4 && Tape(Rust, Swept())[3] == []
  {
    GoKeeps();
    RustSweeps();
  }

  lemma SecondOfOne(e: Engine)
    requires e != Python
    ensures Step(e, BidsAt(100, ONE, AT_100), Limit(1, true, 100, 5)) == BidsAt(100, ONE + [Order(1, 5)], AT_100)
  {
    BidJoins(e, 100, ONE, AT_100, 1, 5);
    assert AT_100[1 := Spot(Bid, 100)] == AT_100;
  }

  lemma GoCancels(two: Level)
    requires two == ONE + [Order(1, 5)]
    ensures Cancelled(Go, BidsAt(100, two, AT_100), 1) == BidsAt(100, ONE, map[])
  {
    assert two[0] in two && 1 in Ids(two);
    assert DropAt(two, Youngest(two, 1)) == ONE;
  }

  lemma GoKeeps()
    ensures |Tape(Go, Swept())| == 4 && Tape(Go, Swept())[3] == [Fill(100, 5, 1)]
  {
    var two := ONE + [Order(1, 5)];
    FirstBid(Go);
    SecondOfOne(Go);
    GoCancels(two);
    SaleMeets(ONE, map[], 5);
    FourOps(Go, Swept()[0], Swept()[1], Swept()[2], Swept()[3]);
  }

  lemma RustSweeps()
    ensures |Tape(Rust, Swept())| == 4 && Tape(Rust, Swept())[3] == []
  {
    var two := ONE + [Order(1, 5)];
    FirstBid(Rust);
    SecondOfOne(Rust);
    assert Purge(two[1..], 1) == [] && Purge(two, 1) == [];
    assert Cancelled(Rust, BidsAt(100, two, AT_100), 1) == BidsAt(100, [], map[]);
    MatchStops(Bid, map[], NoCap, 5, [], {});
    FourOps(Rust, Swept()[0], Swept()[1], Swept()[2], Swept()[3]);
  }

  const TWO: Level := [Order(1, 5), Order(2, 5)]

  const BOTH_AT_100: map<Id, Spot> := map[1 := Spot(Bid, 100), 2 := Spot(Bid, 100)]

  lemma SecondBid(e: Engine)
    ensures Step(e, BidsAt(100, ONE, AT_100), Limit(2, true, 100, 5)) == BidsAt(100, TWO, BOTH_AT_100)
  {
    BidJoins(e, 100, ONE, AT_100, 2, 5);
    assert Merge(ONE[1..], 2, 5) == [Order(2, 5)];
    assert Merge(ONE, 2, 5) == TWO && ONE + [Order(2, 5)] == TWO;
    assert AT_100[2 := Spot(Bid, 100)] == BOTH_AT_100;
  }

  /** Python's merged bid keeps the older bid's place, so it takes the whole sale that Go splits. */
  lemma PythonMergesWhatGoQueues()
    ensures |Tape(Go, Merged())| == 4 && Tape(Go, Merged())[3] == [Fill(100, 5, 1), Fill(100, 1, 2)]
    ensures |Tape(Python, Merged())| == 4 && Tape(Python, Merged())[3] == [Fill(100, 6, 1)]
  {
    GoQueues();
    PythonMerges();
  }

  lemma GoSale(index: map<Id, Spot>)
    ensures Taken(BidsAt(100, TWO + [Order(1, 5)], index), false, NoCap, 6).fills == [Fill(100, 5, 1), Fill(100, 1, 2)]
  {
    var level := TWO + [Order(1, 5)];
    assert level[1..] == [Order(2, 5), Order(1, 5)];
    SaleMeets(level, index, 6);
    SaleMeets(level[1..], index, 1);
  }

  lemma GoQueues()
    ensures |Tape(Go, Merged())| == 4 && Tape(Go, Merged())[3] == [Fill(100, 5, 1), Fill(100, 1, 2)]
  {
    FirstBid(Go);
    SecondBid(Go);
    BidJoins(Go, 100, TWO, BOTH_AT_100, 1, 5);
    GoSale(BOTH_AT_100[1 := Spot(Bid, 100)]);
    FourOps(Go, Merged()[0], Merged()[1], Merged()[2], Merged()[3]);
  }

  lemma PythonMerges()
    ensures |Tape(Python, Merged())| == 4 && Tape(Python, Merged())[3] == [Fill(100, 6, 1)]
  {
    var level := [Order(1, 10), Order(2, 5)];
    FirstBid(Python);
    SecondBid(Python);
    BidJoins(Python, 100, TWO, BOTH_AT_100, 1, 5);
    assert Merge(TWO, 1, 5) == level;
    SaleMeets(level, BOTH_AT_100[1 := Spot(Bid, 100)], 6);
    FourOps(Python, Merged()[0], Merged()[1], Merged()[2], Merged()[3]);
  }

  // ---------- an incomplete index ----------

  /** Two bids under one id at two prices: the index knows the second only, so no engine's cancel finds the first. */
  lemma CancelMissesTheOlderBid(e: Engine)
    ensures var b := Run(e, [Limit(1, true, 100, 5), Limit(1, true, 101, 5)]);
      Healthy(b) && !Complete(b) && !CancelScans(e, b)
  {
    var first, second := Limit(1, true, 100, 5), Limit(1, true, 101, 5);
    assert [first, second][..1] == [first] && [first][..0] == [];
    assert Run(e, [first]) == Step(e, Run(e, []), first);
    FirstBid(e);
    var a := BidsAt(100, ONE, AT_100);
    BidRests(e, a, 1, 101, 5);
    var b := Run(e, [first, second]);
    assert b.bids[100] == ONE && ONE[0] in ONE;
    assert Lives(b, Bid, 100, 1) && b.index[1] == Spot(Bid, 101);
    RunHealthy(e, [first, second]);
    CancelIsScan(e, b);
  }

  // ---------- a difference that does not show ----------

  /** Two bids under one id at one price, and two sales that fill one after the other. */
  function Hidden(): seq<Op> {
    [Limit(1, true, 100, 5), Limit(1, true, 100, 7), Op.Market(2, false, 5), Op.Market(3, false, 7)]
  }

  /** One sale that fills the oldest bid, of which `rest` is left. */
  lemma SaleOfOne(e: Engine, level: Level, index: map<Id, Spot>, taker: Id, qty: int)
    requires level != [] && 0 < qty <= level[0].qty && level[0].id == 1 && GoodLevel(level)
    ensures var b, op := BidsAt(100, level, index), Op.Market(taker, false, qty);
      && Fills(b, op) == [Fill(100, qty, 1)]
      && Step(e, b, op) == BidsAt(100, Served(level, qty), if qty == level[0].qty then index - {1} else index)
  {
    var b := BidsAt(100, level, index);
    BestIsUnique(Bid, b.bids.Keys, 100);
    assert b.bids.Keys == {100};
    var t := Trade(Bid, b.bids, qty);
    MatchOnce(Bid, b.bids, NoCap, qty);
    MatchStops(Bid, t.levels, NoCap, t.left, t.fills, t.gone);
    assert t.levels == BidsAt(100, Served(level, qty), index).bids;
  }

  /** All four engines report the same fills although an order rested that was not fresh for its level: the difference has
      gone again before an operation could show it. */
  lemma DifferenceMayNotShow(e: Engine)
    ensures Tape(e, Hidden()) == Tape(Go, Hidden()) && Run(e, Hidden()) == EMPTY && !LevelFreshRun(Hidden())
  {
    HiddenRun(e);
    HiddenRun(Go);
    var first := Hidden()[..1];
    assert first == [Hidden()[0]] && first[..0] == [];
    assert Run(Go, first) == Step(Go, Run(Go, []), Hidden()[0]);
    FirstBid(Go);
    BidJoins(Go, 100, ONE, AT_100, 1, 7);
    BidRests(Go, BidsAt(100, ONE, AT_100), 1, 100, 7);
    assert ONE[0] in ONE;
    assert !LevelFreshAt(Hidden(), 1);
  }

  lemma HiddenSales(e: Engine, level: Level)
    requires level == if e == Python then [Order(1, 12)] else [Order(1, 5), Order(1, 7)]
    ensures var b := BidsAt(100, level, AT_100);
      var c := Step(e, b, Hidden()[2]);
      && Fills(b, Hidden()[2]) == [Fill(100, 5, 1)] && Fills(c, Hidden()[3]) == [Fill(100, 7, 1)]
      && Step(e, c, Hidden()[3]) == EMPTY
  {
    var index := if e == Python then AT_100 else map[];
    var one := [Order(1, 7)];
    assert AT_100 - {1} == map[] && index - {1} == map[];
    assert level[1..] == if e == Python then [] else one;
    SaleOfOne(e, level, AT_100, 2, 5);
    assert Served(level, 5) == one;
    SaleOfOne(e, one, index, 3, 7);
    assert Served(one, 7) == [];
  }

  lemma HiddenRun(e: Engine)
    ensures Tape(e, Hidden()) == [[], [], [Fill(100, 5, 1)], [Fill(100, 7, 1)]] && Run(e, Hidden()) == EMPTY
  {
    var level := if e == Python then [Order(1, 12)] else [Order(1, 5), Order(1, 7)];
    FirstBid(e);
    assert ONE[1..] == [];
    assert Enqueue(e, ONE, 1, 7) == level;
    BidJoins(e, 100, ONE, AT_100, 1, 7);
    assert AT_100[1 := Spot(Bid, 100)] == AT_100;
    HiddenSales(e, level);
    BidRests(e, EMPTY, 1, 100, 5);
    FourOps(e, Hidden()[0], Hidden()[1], Hidden()[2], Hidden()[3]);
  }
}
