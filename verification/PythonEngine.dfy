/**
 The Python book: insertion-ordered dicts as levels, sorted price lists, and a dict of resting ids.

 A level dict is the sequence of its items with pairwise distinct keys. Each operation is proved to be one
 `Step` of the Python engine, for arbitrary ids.
*/
module PythonEngine {
  import opened Market
  import opened BookLaws
  import opened Slices

  /** Insert v into a sorted list, after every element that is not larger. */
  method Insort(s: seq<int>, v: int) returns (r: seq<int>)
    requires Rising(s)
    ensures Rising(r) && multiset(r) == multiset(s) + multiset{v}
    ensures Ascending(s) && v !in s ==> Ascending(r) && Members(r) == Members(s) + {v}
  {
    var lo, hi := 0, |s|;
    while lo < hi
      invariant 0 <= lo <= hi <= |s|
      invariant forall j | 0 <= j < lo :: s[j] <= v
      invariant forall j | hi <= j < |s| :: v < s[j]
    {
      var mid := (lo + hi) / 2;
      if v < s[mid] {
        hi := mid;
      } else {
        lo := mid + 1;
      }
    }
    InsertedHolds(s, lo, v);
    InsertedSorted(s, lo, v);
    r := s[..lo] + [v] + s[lo..];
  }

  /** Remove the first occurrence of v, if there is one. */
  method Remove(s: seq<int>, v: int) returns (r: seq<int>)
    ensures multiset(r) == multiset(s) - multiset{v} && (Rising(s) ==> Rising(r))
    ensures Ascending(s) ==> Ascending(r) && Members(r) == Members(s) - {v}
    ensures |r| == if v in s then |s| - 1 else |s|
  {
    var i := 0;
    while i < |s| && s[i] != v
      invariant 0 <= i <= |s| && v !in s[..i]
    {
      i := i + 1;
    }
    if i < |s| {
      RemovedHolds(s, i);
      RemovedSorted(s, i);
      r := s[..i] + s[i + 1..];
    } else {
      assert s[..i] == s;
      r := s;
    }
  }

  // ---------- level dicts ----------

  function Get(level: Level, id: Id): int
    requires id in Ids(level)
  {
    if level[0].id == id then level[0].qty else IdsHead(level); Get(level[1..], id)
  }

  /** The dict with a new value under a key it has. */
  function Set(level: Level, id: Id, qty: int): Level {
    if level == [] then []
    else if level[0].id == id then [Order(id, qty)] + level[1..]
    else [level[0]] + Set(level[1..], id, qty)
  }

  /** The oldest key of a dict: what it holds, what is left without it, and what an update makes of it. */
  lemma OldestKey(level: Level, qty: int)
    requires level != [] && GoodLevel(level) && DistinctIds(level)
    ensures level[0].id in Ids(level) && Get(level, level[0].id) == level[0].qty
    ensures Purge(level, level[0].id) == level[1..]
    ensures Set(level, level[0].id, qty) == [Order(level[0].id, qty)] + level[1..]
  {
    assert level[0] in level;
    IdsHead(level);
    PurgeLevel(level[1..], level[0].id);
  }

  /** Trade with the oldest key of a level. */
  method TradeWith(makerId: Id, best: int, want: int, dict: Level, directory: map<Id, Spot>)
    returns (fill: Fill, qty: int, level: Level, resting: map<Id, Spot>)
    requires dict != [] && GoodLevel(dict) && DistinctIds(dict) && makerId == dict[0].id && want > 0
    ensures var amount := Min(want, dict[0].qty);
      && fill == Fill(best, amount, makerId) && qty == want - amount
      && level == Served(dict, want) && GoodLevel(level) && DistinctIds(level)
      && resting == directory - (if amount == dict[0].qty then {makerId} else {})
  {
    OldestKey(dict, dict[0].qty - want);
    ServedLevel(dict, want);
    var makerQty := Get(dict, makerId);
    var trade := if want < makerQty then want else makerQty;
    fill := Fill(best, trade, makerId);
    qty := want - trade;
    makerQty := makerQty - trade;
    if makerQty == 0 {
      level := Purge(dict, makerId);
      resting := directory - {makerId};
    } else {
      level := Set(dict, makerId, makerQty);
      resting := directory;
    }
  }

  /** Walk one level in insertion order, appending to the fills `sofar` of the levels before; `used` are the
      makers they used up out of the dict `origin`. */
  method MatchLevel(best: int, want: int, start: Level, sofar: seq<Fill>, directory: map<Id, Spot>,
                    ghost side: Side, ghost levels: Levels, ghost cap: Cap, ghost origin: map<Id, Spot>, ghost used: set<Id>)
    returns (fills: seq<Fill>, qty: int, level: Level, resting: map<Id, Spot>, ghost gone: set<Id>)
    requires best in levels && GoodLevel(start) && DistinctIds(start)
    requires best == Best(side, levels.Keys) && Crosses(side, best, cap) && want > 0
    requires directory == origin - used
    ensures qty >= 0 && (level == [] || qty == 0)
    ensures GoodLevel(level) && DistinctIds(level)
    ensures resting == origin - gone
    ensures Match(side, Put(levels, best, start), cap, want).After(sofar, used) ==
      Match(side, Put(levels, best, level), cap, qty).After(fills, gone)
  {
    fills, qty, level, resting, gone := sofar, want, start, directory, used;
    ghost var whole := Match(side, Put(levels, best, start), cap, want).After(sofar, used);
    var i := 0;
    while i < |start|
      invariant 0 <= i <= |start| && level == start[i..] && qty > 0
      invariant GoodLevel(level) && DistinctIds(level)
      invariant resting == origin - gone
      invariant whole == Match(side, Put(levels, best, level), cap, qty).After(fills, gone)
    {
      ghost var spent := ServeOn(side, levels, level, cap, qty, fills, gone);
      MinusTwice(origin, gone, spent);
      var fill;
      fill, qty, level, resting := TradeWith(start[i].id, best, qty, level, resting);
      fills := fills + [fill];
      gone := gone + spent;
      if qty == 0 {
        break;
      }
      i := i + 1;
    }
  }

  /** One side of the book: levels and the sorted list of their prices. */
  ghost predicate Half(levels: Levels, prices: seq<int>) {
    Ascending(prices) && Members(prices) == levels.Keys && GoodLevels(levels) && DistinctLevels(levels)
  }

  /** Put a level back, or drop it and its price if it is empty. */
  method RemoveLevelIfEmpty(all: Levels, sorted: seq<int>, price: int, level: Level)
    returns (levels: Levels, prices: seq<int>)
    requires Half(all, sorted) && price in all && GoodLevel(level) && DistinctIds(level)
    ensures levels == Put(all, price, level) && Half(levels, prices)
    ensures if level == [] then |prices| < |sorted| else prices == sorted
  {
    ReplaceKeeps(all, price, level);
    levels, prices := all[price := level], sorted;
    assert levels.Keys == all.Keys;
    if level == [] {
      assert price in Members(sorted);
      levels := levels - {price};
      assert levels == all - {price};
      prices := Remove(prices, price);
    }
  }

  /** Match against one side of the book, best level after best level. */
  method MatchSide(buy: bool, cap: Cap, want: int, start: Levels, sorted: seq<int>, directory: map<Id, Spot>)
    returns (fills: seq<Fill>, qty: int, levels: Levels, prices: seq<int>, resting: map<Id, Spot>)
    requires Half(start, sorted)
    ensures var m := Match(Opposite(buy), start, cap, want);
      fills == m.fills && qty == m.left && levels == m.levels && resting == directory - m.gone
    ensures Half(levels, prices)
  {
    ghost var side := Opposite(buy);
    ghost var gone: set<Id> := {};
    ghost var whole := Match(side, start, cap, want);
    fills, qty, levels, prices, resting := [], want, start, sorted, directory;
    while qty > 0
      invariant Half(levels, prices)
      invariant whole == Match(side, levels, cap, qty).After(fills, gone)
      invariant resting == directory - gone
      decreases |prices|, qty
    {
      if prices == [] {
        break;
      }
      var best := BestPrice(buy, prices);
      if cap.Cap? && (if buy then best > cap.px else best < cap.px) {
        break;
      }
      PutSame(levels, best);
      var level;
      fills, qty, level, resting, gone :=
        MatchLevel(best, qty, levels[best], fills, resting, side, levels, cap, directory, gone);
      levels, prices := RemoveLevelIfEmpty(levels, prices, best, level);
    }
    MatchStops(side, levels, cap, qty, fills, gone);
  }

  /** Add quantity under a key of a level, making the level and inserting its price if need be. */
  method Enter(all: Levels, sorted: seq<int>, px: int, id: Id, qty: int) returns (levels: Levels, prices: seq<int>)
    requires Half(all, sorted) && qty > 0
    ensures levels == all[px := Merge(At(all, px), id, qty)] && Half(levels, prices)
  {
    levels, prices := all, sorted;
    if px !in levels {
      assert px !in Members(sorted);
      levels := levels[px := []];
      prices := Insort(prices, px);
    }
    EnqueueLevel(Python, At(all, px), id, qty);
    levels := levels[px := Merge(levels[px], id, qty)];
    assert levels == all[px := Merge(At(all, px), id, qty)];
    assert levels.Keys == all.Keys + {px};
  }

  /** Delete a key from a level, and the level with its price if that empties it. */
  method Leave(all: Levels, sorted: seq<int>, px: int, id: Id) returns (levels: Levels, prices: seq<int>)
    requires Half(all, sorted)
    ensures levels == (if px in all then Put(all, px, Purge(all[px], id)) else all) && Half(levels, prices)
  {
    levels, prices := all, sorted;
    if px in all {
      PurgeLevel(all[px], id);
      if id in Ids(all[px]) {
        levels, prices := RemoveLevelIfEmpty(all, sorted, px, Purge(all[px], id));
      } else {
        assert all[px := all[px]] == all;
      }
    }
  }

  class OrderBook {
    var bidLevels: Levels
    var askLevels: Levels
    var bidPrices: seq<int>  // ascending; the best bid is last
    var askPrices: seq<int>  // ascending; the best ask is first
    var resting: map<Id, Spot>

    function View(): Book
      reads this
    {
      Book(bidLevels, askLevels, resting)
    }

    ghost predicate Valid()
      reads this
    {
      Half(bidLevels, bidPrices) && Half(askLevels, askPrices)
    }

    constructor ()
      ensures Valid() && View() == EMPTY
    {
      bidLevels, askLevels, bidPrices, askPrices, resting := map[], map[], [], [], map[];
    }

    method MatchOrder(buy: bool, cap: Cap, want: int) returns (fills: seq<Fill>, qty: int)
      requires Valid()
      modifies this
      ensures Valid() && View() == Matched(old(View()), buy, cap, want)
      ensures fills == Taken(old(View()), buy, cap, want).fills && qty == Taken(old(View()), buy, cap, want).left
    {
      var levels, prices, rest;
      if buy {
        fills, qty, levels, prices, rest := MatchSide(buy, cap, want, askLevels, askPrices, resting);
        askLevels, askPrices, resting := levels, prices, rest;
      } else {
        fills, qty, levels, prices, rest := MatchSide(buy, cap, want, bidLevels, bidPrices, resting);
        bidLevels, bidPrices, resting := levels, prices, rest;
      }
    }

    method RestOrder(buy: bool, px: int, id: Id, qty: int)
      requires Valid() && qty > 0
      modifies this
      ensures Valid() && View() == Rested(Python, old(View()), id, buy, px, qty)
    {
      if buy {
        var levels, prices := Enter(bidLevels, bidPrices, px, id, qty);
        bidLevels, bidPrices := levels, prices;
      } else {
        var levels, prices := Enter(askLevels, askPrices, px, id, qty);
        askLevels, askPrices := levels, prices;
      }
      resting := resting[id := Spot(Own(buy), px)];
    }

    method LimitOrder(id: Id, buy: bool, px: int, qty: int) returns (fills: seq<Fill>)
      requires Valid()
      modifies this
      ensures Valid() && View() == Step(Python, old(View()), Limit(id, buy, px, qty))
      ensures fills == Fills(old(View()), Limit(id, buy, px, qty))
    {
      var remaining;
      fills, remaining := MatchOrder(buy, Cap(px), qty);
      if remaining > 0 {
        RestOrder(buy, px, id, remaining);
      }
    }

    method MarketOrder(id: Id, buy: bool, qty: int) returns (fills: seq<Fill>)
      requires Valid()
      modifies this
      ensures Valid() && View() == Step(Python, old(View()), Op.Market(id, buy, qty))
      ensures fills == Fills(old(View()), Op.Market(id, buy, qty))
    {
      var remaining;
      fills, remaining := MatchOrder(buy, NoCap, qty);
    }

    /** Returns whether target was resting. */
    method CancelOrder(target: Id) returns (known: bool)
      requires Valid()
      modifies this
      ensures Valid() && View() == Step(Python, old(View()), Cancel(target))
      ensures known <==> target in old(resting)
    {
      if target !in resting {
        return false;
      }
      var Spot(side, price) := resting[target];
      resting := resting - {target};
      if side == Bid {
        var levels, prices := Leave(bidLevels, bidPrices, price, target);
        bidLevels, bidPrices := levels, prices;
      } else {
        var levels, prices := Leave(askLevels, askPrices, price, target);
        askLevels, askPrices := levels, prices;
      }
      return true;
    }
  }
}
