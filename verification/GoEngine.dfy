/**
 The Go book: sorted price slices, FIFO lists of shared elements, and an index that points into the lists.
 Each operation is proved to be one `Step` of the Go engine, for arbitrary ids.
*/
module GoEngine {
  import opened Market
  import opened BookLaws
  import opened Elements
  import opened Slices

  // ---------- sorted price slices ----------

  method SearchInts(s: seq<int>, v: int) returns (i: nat)
    requires Rising(s)
    ensures i <= |s|
    ensures forall j | 0 <= j < i :: s[j] < v
    ensures forall j | i <= j < |s| :: v <= s[j]
  {
    i := 0;
    var hi := |s|;
    while i < hi
      invariant 0 <= i <= hi <= |s|
      invariant forall j | 0 <= j < i :: s[j] < v
      invariant forall j | hi <= j < |s| :: v <= s[j]
    {
      var mid := (i + hi) / 2;
      if s[mid] < v {
        i := mid + 1;
      } else {
        hi := mid;
      }
    }
  }

  /** Insert v into a sorted slice where it keeps it sorted. */
  method Insort(s: seq<int>, v: int) returns (r: seq<int>)
    requires Rising(s)
    ensures Rising(r) && multiset(r) == multiset(s) + multiset{v}
    ensures Ascending(s) && v !in s ==> Ascending(r) && Members(r) == Members(s) + {v}
  {
    var i := SearchInts(s, v);
    InsertedHolds(s, i, v);
    InsertedSorted(s, i, v);
    r := s[..i] + [v] + s[i..];
  }

  /** Remove v from a sorted slice, once, if it is there. */
  method Remove(s: seq<int>, v: int) returns (r: seq<int>)
    requires Rising(s)
    ensures multiset(r) == multiset(s) - multiset{v} && Rising(r)
    ensures Ascending(s) ==> Ascending(r) && Members(r) == Members(s) - {v}
    ensures |r| == if v in s then |s| - 1 else |s|
  {
    var i := SearchInts(s, v);
    if i < |s| && s[i] == v {
      RemovedHolds(s, i);
      RemovedSorted(s, i);
      r := s[..i] + s[i + 1..];
    } else {
      r := s;
    }
  }

  /** After a level has been served: drop it and its price if it is exhausted. */
  method PutBack(lists: Lists, sorted: seq<int>, best: int, l: seq<Element>) returns (opp: Lists, prices: seq<int>)
    requires Ascending(sorted) && Members(sorted) == lists.Keys && best in lists
    ensures opp == PutList(lists, best, l)
    ensures Ascending(prices) && Members(prices) == opp.Keys
    ensures if l == [] then |prices| < |sorted| else prices == sorted
  {
    opp, prices := lists, sorted;
    if |l| == 0 {
      assert best in Members(sorted);
      opp := opp - {best};
      prices := Remove(prices, best);
    } else {
      opp := opp[best := l];
      assert opp.Keys == lists.Keys;
    }
  }

  /** One side of the book: lists that hold the levels, the sorted slice of their prices, and index entries
      that point into the lists. */
  ghost predicate Half(lists: Lists, prices: seq<int>, index: map<Id, Loc>, side: Side, levels: Levels, qtys: Quantities)
  {
    && MirrorsSide(lists, levels, qtys) && GoodLevels(levels)
    && Ascending(prices) && Members(prices) == lists.Keys
    && Linked(index, side, lists)
  }

  lemma HalfForgets(lists: Lists, prices: seq<int>, index: map<Id, Loc>, side: Side, levels: Levels,
                    qtys: Quantities, gone: set<Id>)
    requires Half(lists, prices, index, side, levels, qtys)
    ensures Half(lists, prices, index - gone, side, levels, qtys)
  {
  }

  lemma HalfRedirects(lists: Lists, prices: seq<int>, index: map<Id, Loc>, side: Side, levels: Levels,
                      qtys: Quantities, id: Id, loc: Loc)
    requires Half(lists, prices, index, side, levels, qtys) && loc.side != side
    ensures Half(lists, prices, index[id := loc], side, levels, qtys)
  {
  }

  /** Append an element to the list of its price, making the list and inserting its price if need be. */
  method PushBack(lists: Lists, sorted: seq<int>, px: int, el: Element, ghost side: Side, ghost before: Levels,
                  ghost qtys: Quantities, ghost index: map<Id, Loc>, ghost qty: int)
    returns (levels: Lists, prices: seq<int>)
    requires Half(lists, sorted, index, side, before, qtys)
    requires el !in qtys && el.px == px && qty > 0
    ensures Half(levels, prices, index[el.id := Loc(side, px, el)], side,
                 before[px := At(before, px) + [Order(el.id, qty)]], qtys[el := qty])
  {
    RestedLists(lists, before, qtys, index, side, px, el, qty);
    levels, prices := lists, sorted;
    if px !in levels {
      assert px !in Members(sorted);
      levels := levels[px := []];
      prices := Insort(prices, px);
    }
    levels := levels[px := levels[px] + [el]];
    assert levels == lists[px := ListAt(lists, px) + [el]];
    assert levels.Keys == lists.Keys + {px};
  }

  method Unhook(lists: Lists, sorted: seq<int>, target: Id, index: map<Id, Loc>, ghost side: Side,
                ghost before: Levels, ghost qtys: Quantities)
    returns (levels: Lists, prices: seq<int>)
    requires Half(lists, sorted, index, side, before, qtys)
    requires target in index && index[target].side == side
    ensures index[target].px in before
    ensures var px := index[target].px;
      Half(levels, prices, index - {target}, side, Put(before, px, Dequeue(Go, before[px], target)), qtys)
  {
    var loc := index[target];
    UnhookedLists(lists, before, qtys, index, side, target);
    levels, prices := PutBack(lists, sorted, loc.px, Unlink(lists[loc.px], loc.el));
  }

  /** Serve the taker from the best level, and drop the level and its price if that exhausts it. */
  method SweepLevel(best: int, want: int, sofar: seq<Fill>, lists: Lists, sorted: seq<int>, pointers: map<Id, Loc>,
                    ghost side: Side, ghost levels: Levels, ghost cap: Cap, ghost elems: set<Element>,
                    ghost origin: map<Id, Loc>, ghost used: set<Id>)
    returns (fills: seq<Fill>, qty: int, opp: Lists, prices: seq<int>, index: map<Id, Loc>,
             ghost left: Levels, ghost gone: set<Id>)
    requires Half(lists, sorted, pointers, side, levels, Now(elems)) && pointers == origin - used
    requires best in sorted && levels.Keys != {} && best == Best(side, levels.Keys) && Crosses(side, best, cap) && want > 0
    modifies elems
    ensures Half(opp, prices, index, side, left, Now(elems)) && index == origin - gone
    ensures |prices| < |sorted| || (|prices| == |sorted| && qty <= 0)
    ensures Match(side, levels, cap, want).After(sofar, used) == Match(side, left, cap, qty).After(fills, gone)
  {
    assert best in Members(sorted);
    var l;
    fills, qty, l, index, left, gone :=
      MatchLevel(best, want, sofar, pointers, lists, side, levels, cap, elems, origin, used);
    opp, prices := PutBack(lists, sorted, best, l);
  }

  /** Match against one side of the book, best level after best level. */
  method MatchSide(buy: bool, cap: Cap, want: int, lists: Lists, sorted: seq<int>, directory: map<Id, Loc>,
                   ghost start: Levels, ghost elems: set<Element>)
    returns (fills: seq<Fill>, qty: int, opp: Lists, prices: seq<int>, index: map<Id, Loc>)
    requires Half(lists, sorted, directory, Opposite(buy), start, Now(elems))
    modifies elems
    ensures var m := Match(Opposite(buy), start, cap, want);
      && fills == m.fills && qty == m.left && index == directory - m.gone
      && Half(opp, prices, index, Opposite(buy), m.levels, Now(elems))
  {
    ghost var side := Opposite(buy);
    ghost var levels, gone: set<Id> := start, {};
    ghost var whole := Match(side, start, cap, want);
    fills, qty, opp, prices, index := [], want, lists, sorted, directory;
    while qty > 0 && |prices| > 0
      invariant Half(opp, prices, index, side, levels, Now(elems))
      invariant whole == Match(side, levels, cap, qty).After(fills, gone)
      invariant index == directory - gone
      decreases |prices|, qty
    {
      var best := BestPrice(buy, prices);
      assert levels.Keys == opp.Keys == Members(prices);
      if cap.Cap? && (if buy then best > cap.px else best < cap.px) {
        break;
      }
      fills, qty, opp, prices, index, levels, gone :=
        SweepLevel(best, qty, fills, opp, prices, index, side, levels, cap, elems, directory, gone);
    }
    MatchStops(side, levels, cap, qty, fills, gone);
  }

  class Book {
    var bidLevels: Lists
    var askLevels: Lists
    var bidPrices: seq<int>  // ascending; the best bid is last
    var askPrices: seq<int>  // ascending; the best ask is first
    var index: map<Id, Loc>

    ghost var bidElems: set<Element>
    ghost var askElems: set<Element>
    ghost var view: Market.Book

    ghost predicate Valid()
      reads this, bidElems, askElems
    {
      && bidElems !! askElems
      && Half(bidLevels, bidPrices, index, Bid, view.bids, Now(bidElems))
      && Half(askLevels, askPrices, index, Ask, view.asks, Now(askElems))
      && view.index == Spots(index)
    }

    constructor ()
      ensures Valid() && bidElems == {} && askElems == {} && view == EMPTY
    {
      bidLevels, askLevels, bidPrices, askPrices, index := map[], map[], [], [], map[];
      bidElems, askElems, view := {}, {}, EMPTY;
    }

    /** Write the fields of the book back at the end of an operation. */
    method Install(bids: Lists, bidSlice: seq<int>, asks: Lists, askSlice: seq<int>, directory: map<Id, Loc>,
                   ghost after: Market.Book, ghost bidSet: set<Element>, ghost askSet: set<Element>)
      requires bidSet !! askSet
      requires Half(bids, bidSlice, directory, Bid, after.bids, Now(bidSet))
      requires Half(asks, askSlice, directory, Ask, after.asks, Now(askSet))
      requires after.index == Spots(directory)
      modifies this
      ensures Valid() && view == after && bidElems == bidSet && askElems == askSet
    {
      bidLevels, bidPrices, askLevels, askPrices := bids, bidSlice, asks, askSlice;
      index, view, bidElems, askElems := directory, after, bidSet, askSet;
      assert Now(bidElems) == old(Now(bidSet)) && Now(askElems) == old(Now(askSet));
    }

    method MatchOrder(buy: bool, cap: Cap, want: int) returns (fills: seq<Fill>, qty: int)
      requires Valid()
      modifies this, bidElems, askElems
      ensures Valid() && bidElems == old(bidElems) && askElems == old(askElems)
      ensures view == Matched(old(view), buy, cap, want)
      ensures fills == Taken(old(view), buy, cap, want).fills && qty == Taken(old(view), buy, cap, want).left
    {
      var opp, prices, directory;
      ghost var bidsNow, asksNow := Now(bidElems), Now(askElems);
      ghost var m := Match(Opposite(buy), view.On(Opposite(buy)), cap, want);
      HalfForgets(bidLevels, bidPrices, index, Bid, view.bids, bidsNow, m.gone);
      HalfForgets(askLevels, askPrices, index, Ask, view.asks, asksNow, m.gone);
      assert Spots(index - m.gone) == view.index - m.gone;
      if buy {
        fills, qty, opp, prices, directory := MatchSide(buy, cap, want, askLevels, askPrices, index, view.asks, askElems);
        assert Now(bidElems) == bidsNow;
        Install(bidLevels, bidPrices, opp, prices, directory, Matched(view, buy, cap, want), bidElems, askElems);
      } else {
        fills, qty, opp, prices, directory := MatchSide(buy, cap, want, bidLevels, bidPrices, index, view.bids, bidElems);
        assert Now(askElems) == asksNow;
        Install(opp, prices, askLevels, askPrices, directory, Matched(view, buy, cap, want), bidElems, askElems);
      }
    }

    method RestOrder(id: Id, buy: bool, px: int, qty: int)
      requires Valid() && qty > 0
      modifies this
      ensures Valid() && fresh(bidElems - old(bidElems)) && fresh(askElems - old(askElems))
      ensures view == Rested(Go, old(view), id, buy, px, qty)
    {
      var el := new Element(id, qty, px);
      var loc := Loc(Own(buy), px, el);
      ghost var bidsNow, asksNow, after := Now(bidElems), Now(askElems), Rested(Go, view, id, buy, px, qty);
      SpotsRedirected(index, id, loc);
      if buy {
        HalfRedirects(askLevels, askPrices, index, Ask, view.asks, asksNow, id, loc);
        var levels, prices := PushBack(bidLevels, bidPrices, px, el, Bid, view.bids, bidsNow, index, qty);
        NowPlus(bidElems, el);
        Install(levels, prices, askLevels, askPrices, index[id := loc], after, bidElems + {el}, askElems);
      } else {
        HalfRedirects(bidLevels, bidPrices, index, Bid, view.bids, bidsNow, id, loc);
        var levels, prices := PushBack(askLevels, askPrices, px, el, Ask, view.asks, asksNow, index, qty);
        NowPlus(askElems, el);
        Install(bidLevels, bidPrices, levels, prices, index[id := loc], after, bidElems, askElems + {el});
      }
    }

    /** A limit order: match it, and rest what is left. */
    method LimitOrder(id: Id, buy: bool, px: int, qty: int) returns (fills: seq<Fill>)
      requires Valid()
      modifies this, bidElems, askElems
      ensures Valid() && fresh(bidElems - old(bidElems)) && fresh(askElems - old(askElems))
      ensures view == Step(Go, old(view), Limit(id, buy, px, qty))
      ensures fills == Fills(old(view), Limit(id, buy, px, qty))
    {
      var left;
      fills, left := MatchOrder(buy, Cap(px), qty);
      if left > 0 {
        RestOrder(id, buy, px, left);
      }
    }

    /** A market order: match it, and drop what is left. */
    method MarketOrder(id: Id, buy: bool, qty: int) returns (fills: seq<Fill>)
      requires Valid()
      modifies this, bidElems, askElems
      ensures Valid() && bidElems == old(bidElems) && askElems == old(askElems)
      ensures view == Step(Go, old(view), Op.Market(id, buy, qty))
      ensures fills == Fills(old(view), Op.Market(id, buy, qty))
    {
      var left;
      fills, left := MatchOrder(buy, NoCap, qty);
    }

    /** Unlink the element the index points at, if there is one. */
    method CancelOrder(target: Id)
      requires Valid()
      modifies this
      ensures Valid() && bidElems == old(bidElems) && askElems == old(askElems)
      ensures view == Step(Go, old(view), Cancel(target))
    {
      if target !in index {
        return;
      }
      var loc := index[target];
      ghost var bidsNow, asksNow, after := Now(bidElems), Now(askElems), Cancelled(Go, view, target);
      assert Spots(index - {target}) == view.index - {target};
      if loc.side == Bid {
        HalfForgets(askLevels, askPrices, index, Ask, view.asks, asksNow, {target});
        var levels, prices := Unhook(bidLevels, bidPrices, target, index, Bid, view.bids, bidsNow);
        Install(levels, prices, askLevels, askPrices, index - {target}, after, bidElems, askElems);
      } else {
        HalfForgets(bidLevels, bidPrices, index, Bid, view.bids, bidsNow, {target});
        var levels, prices := Unhook(askLevels, askPrices, target, index, Ask, view.asks, asksNow);
        Install(bidLevels, bidPrices, levels, prices, index - {target}, after, bidElems, askElems);
      }
    }
  }
}
