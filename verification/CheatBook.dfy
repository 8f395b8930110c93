/**
 The book of the adversarial submission: it keeps price priority but serves the newest order of a level
 first, and its cancel leaves emptied levels and their prices behind. A later match walks through such empty
 levels, so its termination needs the number of levels as well as the depth of the best one.
*/
module CheatBook {
  import opened Market
  import opened BookLaws
  import opened Ledger
  import opened Slices
  import PythonEngine

  ghost predicate CanWalk(side: Side, levels: Levels, cap: Cap, qty: int) {
    qty > 0 && levels.Keys != {} && Crosses(side, Best(side, levels.Keys), cap)
  }

  /** The level after its newest order has traded with a taker of qty. */
  function ServedNewest(level: Level, qty: int): Level
    requires level != []
  {
    var n := |level| - 1;
    if qty < level[n].qty then level[..n] + [level[n].(qty := level[n].qty - qty)] else level[..n]
  }

  /** Drop an empty best level, or trade with the newest order of the best level. */
  ghost function Walk(side: Side, levels: Levels, qty: int): Outcome
    requires levels.Keys != {}
  {
    var best := Best(side, levels.Keys);
    var level := levels[best];
    if level == [] then
      Outcome([], qty, levels - {best}, {})
    else
      var maker := level[|level| - 1];
      var amount := Min(qty, maker.qty);
      Outcome([Fill(best, amount, maker.id)], qty - amount, Put(levels, best, ServedNewest(level, qty)),
              if amount == maker.qty then {maker.id} else {})
  }

  lemma WalkShrinks(side: Side, levels: Levels, cap: Cap, qty: int)
    requires CanWalk(side, levels, cap, qty)
    ensures var t := Walk(side, levels, qty);
      || |t.levels| < |levels|
      || (|t.levels| == |levels| && Depth(side, t.levels) < Depth(side, levels))
      || (|t.levels| == |levels| && Depth(side, t.levels) == Depth(side, levels) && t.left <= 0)
  {
    var best := Best(side, levels.Keys);
    var t := Walk(side, levels, qty);
    if levels[best] == [] || ServedNewest(levels[best], qty) == [] {
      assert t.levels.Keys == levels.Keys - {best};
    } else {
      assert t.levels.Keys == levels.Keys;
    }
    assert |t.levels.Keys| == |t.levels| && |levels.Keys| == |levels|;
  }

  ghost function MatchNewest(side: Side, levels: Levels, cap: Cap, qty: int): Outcome
    decreases |levels|, Depth(side, levels), qty > 0
  {
    if !CanWalk(side, levels, cap, qty) then
      Outcome([], qty, levels, {})
    else
      var t := Walk(side, levels, qty);
      WalkShrinks(side, levels, cap, qty);
      MatchNewest(side, t.levels, cap, t.left).After(t.fills, t.gone)
  }

  lemma WalkOnce(side: Side, levels: Levels, cap: Cap, qty: int)
    requires CanWalk(side, levels, cap, qty)
    ensures var t := Walk(side, levels, qty);
      MatchNewest(side, levels, cap, qty) == MatchNewest(side, t.levels, cap, t.left).After(t.fills, t.gone)
  {
    WalkShrinks(side, levels, cap, qty);
  }

  lemma WalkUnfolds(side: Side, levels: Levels, cap: Cap, qty: int, fills: seq<Fill>, gone: set<Id>)
    requires CanWalk(side, levels, cap, qty)
    ensures var t := Walk(side, levels, qty);
      MatchNewest(side, levels, cap, qty).After(fills, gone) ==
      MatchNewest(side, t.levels, cap, t.left).After(fills + t.fills, gone + t.gone)
  {
    WalkOnce(side, levels, cap, qty);
    var t := Walk(side, levels, qty);
    AfterTwice(MatchNewest(side, t.levels, cap, t.left), fills, t.fills, gone, t.gone);
  }

  ghost function CheatTaken(b: Book, buy: bool, cap: Cap, qty: int): Outcome {
    MatchNewest(Opposite(buy), b.On(Opposite(buy)), cap, qty)
  }

  ghost function CheatMatched(b: Book, buy: bool, cap: Cap, qty: int): Book {
    var m := CheatTaken(b, buy, cap, qty);
    b.With(Opposite(buy), m.levels).(index := b.index - m.gone)
  }

  /** The level loses the order but is not dropped. */
  ghost function CheatCancelled(b: Book, target: Id): Book {
    if target !in b.index then b
    else
      var Spot(side, px) := b.index[target];
      var c := b.(index := b.index - {target});
      if px !in b.On(side) then c else c.With(side, b.On(side)[px := Purge(b.On(side)[px], target)])
  }

  ghost function CheatStep(b: Book, op: Op): Book {
    match op
    case Limit(id, buy, px, qty) =>
      var left := CheatTaken(b, buy, Cap(px), qty).left;
      var c := CheatMatched(b, buy, Cap(px), qty);
      if left > 0 then Rested(Python, c, id, buy, px, left) else c
    case Market(id, buy, qty) => CheatMatched(b, buy, NoCap, qty)
    case Cancel(target) => CheatCancelled(b, target)
  }

  ghost function CheatFills(b: Book, op: Op): seq<Fill> {
    match op
    case Limit(id, buy, px, qty) => CheatTaken(b, buy, Cap(px), qty).fills
    case Market(id, buy, qty) => CheatTaken(b, buy, NoCap, qty).fills
    case Cancel(target) => []
  }

  // ---------- what is wrong with it ----------

  function Reversed(level: Level): Level {
    if level == [] then [] else Reversed(level[1..]) + [level[0]]
  }

  /** Every level upside down, without the empty ones that the cheat's cancel leaves behind. */
  function ReversedSide(levels: Levels): Levels {
    map p | p in levels && levels[p] != [] :: Reversed(levels[p])
  }

  lemma {:induction false} ReversedAppend(level: Level, o: Order)
    ensures Reversed(level + [o]) == [o] + Reversed(level)
  {
    if level == [] {
      assert [] + [o] == [o];
    } else {
      assert (level + [o])[1..] == level[1..] + [o];
      ReversedAppend(level[1..], o);
    }
  }

  lemma {:induction false} ReversedSize(level: Level)
    ensures |Reversed(level)| == |level|
  {
    if level != [] {
      ReversedSize(level[1..]);
    }
  }

  lemma ServedFirst(maker: Order, rest: Level, qty: int)
    ensures Served([maker] + rest, qty) ==
      if qty < maker.qty then [maker.(qty := maker.qty - qty)] + rest else rest
  {
    assert ([maker] + rest)[1..] == rest;
  }

  lemma ReversedServed(older: Level, maker: Order, qty: int)
    ensures Reversed(older + [maker]) != [] && Reversed(older + [maker])[0] == maker
    ensures Reversed(ServedNewest(older + [maker], qty)) == Served(Reversed(older + [maker]), qty)
  {
    ReversedAppend(older, maker);
    ReversedAppend(older, maker.(qty := maker.qty - qty));
    ServedFirst(maker, Reversed(older), qty);
    assert (older + [maker])[..|older|] == older;
  }

  lemma ReversedPut(levels: Levels, px: int, level: Level)
    ensures ReversedSide(Put(levels, px, level)) == Put(ReversedSide(levels), px, Reversed(level))
  {
    ReversedSize(level);
  }

  /** The best level that is not empty is the best level of the reversed side. */
  lemma ReversedBest(side: Side, levels: Levels)
    requires levels.Keys != {} && levels[Best(side, levels.Keys)] != []
    ensures ReversedSide(levels).Keys != {} && Best(side, ReversedSide(levels).Keys) == Best(side, levels.Keys)
  {
    var best := Best(side, levels.Keys);
    assert best in ReversedSide(levels);
    assert IsBest(side, best, ReversedSide(levels).Keys);
    BestIsUnique(side, ReversedSide(levels).Keys, best);
  }

  /** The same fills and remainder, and sides that are each other upside down. */
  ghost predicate Mirrors(m: Outcome, r: Outcome) {
    m.fills == r.fills && m.left == r.left && m.gone == r.gone && ReversedSide(m.levels) == r.levels
  }

  lemma WalkIsReversedTrade(side: Side, levels: Levels, cap: Cap, qty: int)
    requires CanWalk(side, levels, cap, qty) && levels[Best(side, levels.Keys)] != []
    ensures Tradable(side, ReversedSide(levels), cap, qty)
    ensures Mirrors(Walk(side, levels, qty), Trade(side, ReversedSide(levels), qty))
  {
    var best := Best(side, levels.Keys);
    ReversedBest(side, levels);
    var level := levels[best];
    var n := |level| - 1;
    assert level == level[..n] + [level[n]];
    ReversedServed(level[..n], level[n], qty);
    ReversedPut(levels, best, ServedNewest(levels[best], qty));
  }

  /** Where the cheat stops, so does an honest engine on the reversed side. */
  lemma StopsReversed(side: Side, levels: Levels, cap: Cap, qty: int)
    requires !CanWalk(side, levels, cap, qty)
    ensures !Tradable(side, ReversedSide(levels), cap, qty)
  {
    var back := ReversedSide(levels);
    if qty > 0 && back.Keys != {} {
      assert Best(side, back.Keys) in levels.Keys;
    }
  }

  lemma AfterMirrors(m: Outcome, r: Outcome, fills: seq<Fill>, gone: set<Id>)
    requires Mirrors(m, r)
    ensures Mirrors(m.After(fills, gone), r.After(fills, gone))
  {
  }

  lemma EmptyBestDropped(side: Side, levels: Levels, qty: int)
    requires levels.Keys != {} && levels[Best(side, levels.Keys)] == []
    ensures var t := Walk(side, levels, qty);
      t.fills == [] && t.gone == {} && t.left == qty && ReversedSide(t.levels) == ReversedSide(levels)
  {
  }

  /** The cheat matches as an honest engine would if every level were upside down and no empty level were left behind:
      same prices and same quantities, only time priority is inverted. */
  lemma {:induction false} CheatIsUpsideDown(side: Side, levels: Levels, cap: Cap, qty: int)
    ensures Mirrors(MatchNewest(side, levels, cap, qty), Match(side, ReversedSide(levels), cap, qty))
    decreases |levels|, Depth(side, levels), qty > 0
  {
    if !CanWalk(side, levels, cap, qty) {
      StopsReversed(side, levels, cap, qty);
    } else {
      var t, back := Walk(side, levels, qty), ReversedSide(levels);
      WalkShrinks(side, levels, cap, qty);
      WalkOnce(side, levels, cap, qty);
      CheatIsUpsideDown(side, t.levels, cap, t.left);
      var m, r := MatchNewest(side, t.levels, cap, t.left), Match(side, ReversedSide(t.levels), cap, t.left);
      if levels[Best(side, levels.Keys)] == [] {
        EmptyBestDropped(side, levels, qty);
        AfterNothing(m);
      } else {
        WalkIsReversedTrade(side, levels, cap, qty);
        MatchOnce(side, back, cap, qty);
        AfterMirrors(m, r, t.fills, t.gone);
      }
    }
  }

  lemma {:induction false} ReversedHolds(level: Level)
    ensures forall o :: o in Reversed(level) <==> o in level
  {
    if level != [] {
      ReversedHolds(level[1..]);
    }
  }

  lemma ReversedIsGood(levels: Levels)
    requires forall p | p in levels :: GoodLevel(levels[p])
    ensures GoodLevels(ReversedSide(levels))
  {
    forall p | p in ReversedSide(levels) ensures ReversedSide(levels)[p] != [] && GoodLevel(ReversedSide(levels)[p]) {
      ReversedHolds(levels[p]);
      ReversedSize(levels[p]);
    }
  }

  /** The cheat, too, keeps to the limit and to the order of prices: it only inverts time priority. */
  lemma CheatKeepsLimits(buy: bool, levels: Levels, px: int, qty: int)
    requires forall p | p in levels :: GoodLevel(levels[p])
    ensures var fills := MatchNewest(Opposite(buy), levels, Cap(px), qty).fills;
      && (forall f | f in fills :: if buy then f.px <= px else f.px >= px)
      && InPriceOrder(buy, fills)
  {
    var back := ReversedSide(levels);
    ReversedIsGood(levels);
    CheatIsUpsideDown(Opposite(buy), levels, Cap(px), qty);
    FillsAreFair(Opposite(buy), back, Cap(px), qty);
    BestPricesFirst(buy, back, Cap(px), qty);
  }

  /** A cancel of the only order of a level leaves the level behind, empty. */
  lemma EmptiedLevelStays(b: Book, id: Id, side: Side, px: int, qty: int)
    requires id in b.index && b.index[id] == Spot(side, px) && px in b.On(side) && b.On(side)[px] == [Order(id, qty)]
    ensures px in CheatCancelled(b, id).On(side) && CheatCancelled(b, id).On(side)[px] == []
    ensures id !in CheatCancelled(b, id).index
  {
    assert [Order(id, qty)][1..] == [];
    assert Purge([], id) == [] && Purge([Order(id, qty)], id) == [];
  }

  // ---------- the class ----------

  ghost predicate Half(levels: Levels, prices: seq<int>) {
    && Ascending(prices) && Members(prices) == levels.Keys
    && forall p | p in levels :: GoodLevel(levels[p]) && DistinctIds(levels[p])
  }

  /** The newest key of a dict: what it holds, what is left without it, and what an update makes of it. */
  lemma {:induction false} NewestKey(level: Level, qty: int)
    requires level != [] && GoodLevel(level) && DistinctIds(level)
    ensures var n := |level| - 1;
      && level[n].id in Ids(level) && PythonEngine.Get(level, level[n].id) == level[n].qty
      && Purge(level, level[n].id) == level[..n]
      && PythonEngine.Set(level, level[n].id, qty) == level[..n] + [Order(level[n].id, qty)]
  {
    var n := |level| - 1;
    assert level[n] in level;
    if n == 0 {
      PythonEngine.OldestKey(level, qty);
    } else {
      var rest := level[1..];
      IdsHead(level);
      NewestKey(rest, qty);
      assert rest[n - 1] == level[n] && level[0].id != level[n].id;
      assert level[..n] == [level[0]] + rest[..n - 1];
    }
  }

  lemma ServedNewestKeeps(level: Level, want: int)
    requires level != [] && GoodLevel(level) && DistinctIds(level) && want > 0
    ensures GoodLevel(ServedNewest(level, want)) && DistinctIds(ServedNewest(level, want))
  {
    var n := |level| - 1;
    assert level == level[..n] + [level[n]];
    DistinctConcat(level[..n], [level[n]]);
    var served := ServedNewest(level, want);
    if served != level[..n] {
      assert served == level[..n] + [served[n]] && served[n].id == level[n].id;
      IdsOne(level[n]);
      IdsOne(served[n]);
      DistinctConcat(level[..n], [served[n]]);
      assert level[n] in level;
    }
  }

  /** Trade with one key of a level. */
  method TradeWith(mid: Id, best: int, want: int, dict: Level, directory: map<Id, Spot>)
    returns (fill: Fill, qty: int, lvl: Level, resting: map<Id, Spot>)
    requires dict != [] && GoodLevel(dict) && DistinctIds(dict) && mid == dict[|dict| - 1].id && want > 0
    ensures var maker := dict[|dict| - 1];
      var amount := Min(want, maker.qty);
      && fill == Fill(best, amount, mid) && qty == want - amount
      && lvl == ServedNewest(dict, want) && GoodLevel(lvl) && DistinctIds(lvl)
      && resting == directory - (if amount == maker.qty then {mid} else {})
  {
    NewestKey(dict, dict[|dict| - 1].qty - Min(want, dict[|dict| - 1].qty));
    ServedNewestKeeps(dict, want);
    var trade := Min(want, PythonEngine.Get(dict, mid));
    fill := Fill(best, trade, mid);
    qty := want - trade;
    var left := PythonEngine.Get(dict, mid) - trade;
    if left == 0 {
      lvl := Purge(dict, mid);
      resting := directory - {mid};
    } else {
      lvl := PythonEngine.Set(dict, mid, left);
      resting := directory;
    }
  }

  lemma WalkStops(side: Side, levels: Levels, cap: Cap, qty: int, fills: seq<Fill>, gone: set<Id>)
    requires !CanWalk(side, levels, cap, qty)
    ensures MatchNewest(side, levels, cap, qty).After(fills, gone) == Outcome(fills, qty, levels, gone)
  {
  }

  lemma AfterNothing(o: Outcome)
    ensures o.After([], {}) == o
  {
    assert [] + o.fills == o.fills;
  }

  /** An empty best level is dropped without a trade. */
  lemma WalkStarts(side: Side, levels: Levels, cap: Cap, qty: int)
    requires CanWalk(side, levels, cap, qty)
    ensures var best := Best(side, levels.Keys);
      MatchNewest(side, levels, cap, qty) == MatchNewest(side, Put(levels, best, levels[best]), cap, qty)
  {
    var best := Best(side, levels.Keys);
    if levels[best] == [] {
      WalkShrinks(side, levels, cap, qty);
      AfterNothing(MatchNewest(side, levels - {best}, cap, qty));
    } else {
      assert Put(levels, best, levels[best]) == levels;
    }
  }

  lemma WalkOn(side: Side, all: Levels, best: int, lvl: Level, cap: Cap, qty: int, fills: seq<Fill>, gone: set<Id>)
    returns (used: set<Id>)
    requires lvl != [] && qty > 0 && best in all && best == Best(side, all.Keys) && Crosses(side, best, cap)
    ensures var maker := lvl[|lvl| - 1];
      var amount := Min(qty, maker.qty);
      && used == (if amount == maker.qty then {maker.id} else {})
      && MatchNewest(side, Put(all, best, lvl), cap, qty).After(fills, gone) ==
         MatchNewest(side, Put(all, best, ServedNewest(lvl, qty)), cap, qty - amount)
           .After(fills + [Fill(best, amount, maker.id)], gone + used)
  {
    var now := Put(all, best, lvl);
    assert now.Keys == all.Keys;
    WalkUnfolds(side, now, cap, qty, fills, gone);
    PutTwice(all, best, lvl, ServedNewest(lvl, qty));
    used := Walk(side, now, qty).gone;
  }

  /** Trade with the newest key of a level; `used` are the makers used up so far out of the dict `origin`. */
  method TradeOn(mid: Id, best: int, want: int, dict: Level, sofar: seq<Fill>, directory: map<Id, Spot>,
                 ghost all: Levels, ghost side: Side, ghost cap: Cap, ghost origin: map<Id, Spot>, ghost used: set<Id>)
    returns (fills: seq<Fill>, qty: int, lvl: Level, resting: map<Id, Spot>, ghost gone: set<Id>)
    requires dict != [] && GoodLevel(dict) && DistinctIds(dict) && mid == dict[|dict| - 1].id
    requires best in all && best == Best(side, all.Keys) && Crosses(side, best, cap) && want > 0
    requires directory == origin - used
    ensures qty >= 0 && GoodLevel(lvl) && DistinctIds(lvl) && (qty > 0 ==> lvl == dict[..|dict| - 1])
    ensures resting == origin - gone
    ensures MatchNewest(side, Put(all, best, dict), cap, want).After(sofar, used) ==
      MatchNewest(side, Put(all, best, lvl), cap, qty).After(fills, gone)
  {
    ghost var spent := WalkOn(side, all, best, dict, cap, want, sofar, used);
    MinusTwice(origin, used, spent);
    var fill;
    fill, qty, lvl, resting := TradeWith(mid, best, want, dict, directory);
    fills, gone := sofar + [fill], used + spent;
  }

  /** Walk one level, newest key first, appending to the fills `sofar` of the levels before. */
  method MatchLevel(best: int, want: int, start: Level, sofar: seq<Fill>, directory: map<Id, Spot>,
                    ghost all: Levels, ghost side: Side, ghost cap: Cap, ghost origin: map<Id, Spot>, ghost used: set<Id>)
    returns (fills: seq<Fill>, qty: int, lvl: Level, resting: map<Id, Spot>, ghost gone: set<Id>)
    requires best in all && GoodLevel(start) && DistinctIds(start)
    requires best == Best(side, all.Keys) && Crosses(side, best, cap) && want > 0
    requires directory == origin - used
    ensures qty >= 0 && (lvl == [] || qty == 0)
    ensures GoodLevel(lvl) && DistinctIds(lvl)
    ensures resting == origin - gone
    ensures MatchNewest(side, Put(all, best, start), cap, want).After(sofar, used) ==
      MatchNewest(side, Put(all, best, lvl), cap, qty).After(fills, gone)
  {
    fills, qty, lvl, resting, gone := sofar, want, start, directory, used;
    ghost var whole := MatchNewest(side, Put(all, best, start), cap, want).After(sofar, used);
    var i := |start|;
    while i > 0
      invariant 0 <= i <= |start| && lvl == start[..i] && qty > 0
      invariant GoodLevel(lvl) && DistinctIds(lvl)
      invariant resting == origin - gone
      invariant whole == MatchNewest(side, Put(all, best, lvl), cap, qty).After(fills, gone)
    {
      fills, qty, lvl, resting, gone :=
        TradeOn(start[i - 1].id, best, qty, lvl, fills, resting, all, side, cap, origin, gone);
      if qty == 0 {
        break;
      }
      i := i - 1;
    }
  }

  /** Match against one side of the book, best level after best level. */
  method MatchSide(buy: bool, cap: Cap, want: int, start: Levels, sorted: seq<int>, directory: map<Id, Spot>)
    returns (fills: seq<Fill>, qty: int, levels: Levels, prices: seq<int>, resting: map<Id, Spot>)
    requires Half(start, sorted)
    ensures var m := MatchNewest(Opposite(buy), start, cap, want);
      fills == m.fills && qty == m.left && levels == m.levels && resting == directory - m.gone
    ensures Half(levels, prices)
  {
    ghost var side := Opposite(buy);
    ghost var whole := MatchNewest(side, start, cap, want);
    ghost var gone: set<Id> := {};
    fills, qty, levels, prices, resting := [], want, start, sorted, directory;
    while qty > 0
      invariant Half(levels, prices)
      invariant whole == MatchNewest(side, levels, cap, qty).After(fills, gone)
      invariant resting == directory - gone
      decreases |prices|, qty
    {
      if prices == [] {
        break;
      }
      var best := BestPrice(buy, prices);
      if cap.Cap? && (if buy then best > cap.px else best < cap.px) {
        break;
      }
      var lvl;
      WalkStarts(side, levels, cap, qty);
      fills, qty, lvl, resting, gone :=
        MatchLevel(best, qty, levels[best], fills, resting, levels, side, cap, directory, gone);
      levels, prices := PopIfEmpty(levels, prices, best, lvl);
    }
    WalkStops(side, levels, cap, qty, fills, gone);
  }

  method PopIfEmpty(all: Levels, sorted: seq<int>, price: int, lvl: Level) returns (levels: Levels, prices: seq<int>)
    requires Half(all, sorted) && price in all && GoodLevel(lvl) && DistinctIds(lvl)
    ensures levels == Put(all, price, lvl) && Half(levels, prices)
    ensures if lvl == [] then |prices| < |sorted| else prices == sorted
  {
    levels, prices := all[price := lvl], sorted;
    assert levels.Keys == all.Keys;
    if lvl == [] {
      assert price in Members(sorted);
      levels := levels - {price};
      assert levels == all - {price};
      prices := PythonEngine.Remove(prices, price);
    }
  }

  method Enter(all: Levels, sorted: seq<int>, px: int, id: Id, qty: int) returns (levels: Levels, prices: seq<int>)
    requires Half(all, sorted) && qty > 0
    ensures levels == all[px := Merge(At(all, px), id, qty)] && Half(levels, prices)
  {
    levels, prices := all, sorted;
    if px !in levels {
      assert px !in Members(sorted);
      levels := levels[px := []];
      prices := PythonEngine.Insort(prices, px);
    }
    EnqueueLevel(Python, At(all, px), id, qty);
    levels := levels[px := Merge(levels[px], id, qty)];
    assert levels == all[px := Merge(At(all, px), id, qty)];
    assert levels.Keys == all.Keys + {px};
  }

  class CheatBook {
    var bidLevels: Levels
    var askLevels: Levels
    var bidPrices: seq<int>  // ascending; the best bid is last
    var askPrices: seq<int>  // ascending; the best ask is first
    var resting: map<Id, Spot>

    function View(): Book
      reads this
    {
      Book(bidLevels, askLevels, resting)
    }

    ghost predicate Valid()
      reads this
    {
      Half(bidLevels, bidPrices) && Half(askLevels, askPrices)
    }

    constructor ()
      ensures Valid() && View() == EMPTY
    {
      bidLevels, askLevels, bidPrices, askPrices, resting := map[], map[], [], [], map[];
    }

    method MatchOrder(buy: bool, cap: Cap, want: int) returns (fills: seq<Fill>, qty: int)
      requires Valid()
      modifies this
      ensures Valid() && View() == CheatMatched(old(View()), buy, cap, want)
      ensures fills == CheatTaken(old(View()), buy, cap, want).fills && qty == CheatTaken(old(View()), buy, cap, want).left
    {
      var levels, prices, rest;
      if buy {
        fills, qty, levels, prices, rest := MatchSide(buy, cap, want, askLevels, askPrices, resting);
        askLevels, askPrices, resting := levels, prices, rest;
      } else {
        fills, qty, levels, prices, rest := MatchSide(buy, cap, want, bidLevels, bidPrices, resting);
        bidLevels, bidPrices, resting := levels, prices, rest;
      }
    }

    method RestOrder(buy: bool, px: int, id: Id, qty: int)
      requires Valid() && qty > 0
      modifies this
      ensures Valid() && View() == Rested(Python, old(View()), id, buy, px, qty)
    {
      if buy {
        var levels, prices := Enter(bidLevels, bidPrices, px, id, qty);
        bidLevels, bidPrices := levels, prices;
      } else {
        var levels, prices := Enter(askLevels, askPrices, px, id, qty);
        askLevels, askPrices := levels, prices;
      }
      resting := resting[id := Spot(Own(buy), px)];
    }

    method LimitOrder(id: Id, buy: bool, px: int, qty: int) returns (fills: seq<Fill>)
      requires Valid()
      modifies this
      ensures Valid() && View() == CheatStep(old(View()), Limit(id, buy, px, qty))
      ensures fills == CheatFills(old(View()), Limit(id, buy, px, qty))
    {
      var rem;
      fills, rem := MatchOrder(buy, Cap(px), qty);
      if rem > 0 {
        RestOrder(buy, px, id, rem);
      }
    }

    method MarketOrder(id: Id, buy: bool, qty: int) returns (fills: seq<Fill>)
      requires Valid()
      modifies this
      ensures Valid() && View() == CheatStep(old(View()), Op.Market(id, buy, qty))
      ensures fills == CheatFills(old(View()), Op.Market(id, buy, qty))
    {
      var rem;
      fills, rem := MatchOrder(buy, NoCap, qty);
    }

    method CancelOrder(target: Id)
      requires Valid()
      modifies this
      ensures Valid() && View() == CheatStep(old(View()), Cancel(target))
    {
      if target !in resting {
        return;
      }
      var Spot(side, price) := resting[target];
      resting := resting - {target};
      var levels := if side == Bid then bidLevels else askLevels;
      if price in levels {
        PurgeLevel(levels[price], target);
        if target in Ids(levels[price]) {
          levels := levels[price := Purge(levels[price], target)];
          assert levels.Keys == (if side == Bid then bidLevels else askLevels).Keys;
        } else {
          assert levels[price := levels[price]] == levels;
        }
        if side == Bid {
          bidLevels := levels;
        } else {
          askLevels := levels;
        }
      }
    }
  }
}