/**
 The C++ book: ordered maps of linked lists and an index of list iterators. Each operation is proved to be
 one `Step` of the C++ engine, for arbitrary ids; in particular an iterator in the index always denotes an
 element that is still in its list.
*/
module CppEngine {
  import opened Market
  import opened BookLaws
  import opened Elements
  import Slices

  ghost predicate Half(lists: Lists, index: map<Id, Loc>, side: Side, levels: Levels, qtys: Quantities) {
    MirrorsSide(lists, levels, qtys) && GoodLevels(levels) && Linked(index, side, lists)
  }

  lemma HalfForgets(lists: Lists, index: map<Id, Loc>, side: Side, levels: Levels, qtys: Quantities, gone: set<Id>)
    requires Half(lists, index, side, levels, qtys)
    ensures Half(lists, index - gone, side, levels, qtys)
  {
  }

  lemma HalfRedirects(lists: Lists, index: map<Id, Loc>, side: Side, levels: Levels, qtys: Quantities, id: Id, loc: Loc)
    requires Half(lists, index, side, levels, qtys) && loc.side != side
    ensures Half(lists, index[id := loc], side, levels, qtys)
  {
  }

  /** Match against one side of the book, best level after best level. */
  method MatchSide(buy: bool, cap: Cap, want: int, lists: Lists, directory: map<Id, Loc>,
                   ghost start: Levels, ghost elems: set<Element>)
    returns (fills: seq<Fill>, qty: int, opp: Lists, index: map<Id, Loc>)
    requires Half(lists, directory, Opposite(buy), start, Now(elems))
    modifies elems
    ensures var m := Match(Opposite(buy), start, cap, want);
      && fills == m.fills && qty == m.left && index == directory - m.gone
      && Half(opp, index, Opposite(buy), m.levels, Now(elems))
  {
    ghost var side := Opposite(buy);
    ghost var levels, gone: set<Id> := start, {};
    ghost var whole := Match(side, start, cap, want);
    fills, qty, opp, index := [], want, lists, directory;
    while qty > 0 && opp.Keys != {}
      invariant Half(opp, index, side, levels, Now(elems))
      invariant whole == Match(side, levels, cap, qty).After(fills, gone)
      invariant index == directory - gone
      decreases |opp|, qty
    {
      var best := Slices.BestKey(buy, opp);
      if cap.Cap? && (if buy then best > cap.px else best < cap.px) {
        break;
      }
      var l;
      fills, qty, l, index, levels, gone :=
        MatchLevel(best, qty, fills, index, opp, side, levels, cap, elems, directory, gone);
      PutListSize(opp, best, l);
      opp := if |l| == 0 then opp - {best} else opp[best := l];
    }
    MatchStops(side, levels, cap, qty, fills, gone);
  }

  lemma PutListSize(lists: Lists, px: int, l: seq<Element>)
    requires px in lists
    ensures |PutList(lists, px, l)| == |lists| - (if l == [] then 1 else 0)
  {
    var after := PutList(lists, px, l);
    assert after.Keys == if l == [] then lists.Keys - {px} else lists.Keys;
    assert |after.Keys| == |after| && |lists.Keys| == |lists|;
  }

  method PushBack(lists: Lists, px: int, el: Element, ghost side: Side, ghost before: Levels,
                  ghost qtys: Quantities, ghost index: map<Id, Loc>, ghost qty: int)
    returns (levels: Lists)
    requires Half(lists, index, side, before, qtys)
    requires el !in qtys && el.px == px && qty > 0
    ensures Half(levels, index[el.id := Loc(side, px, el)], side,
                 before[px := At(before, px) + [Order(el.id, qty)]], qtys[el := qty])
  {
    RestedLists(lists, before, qtys, index, side, px, el, qty);
    levels := lists[px := ListAt(lists, px) + [el]];
  }

  method Erase(lists: Lists, target: Id, index: map<Id, Loc>, ghost side: Side, ghost before: Levels,
               ghost qtys: Quantities)
    returns (levels: Lists)
    requires Half(lists, index, side, before, qtys)
    requires target in index && index[target].side == side
    ensures index[target].px in before
    ensures var px := index[target].px;
      Half(levels, index - {target}, side, Put(before, px, Dequeue(Cpp, before[px], target)), qtys)
  {
    var loc := index[target];
    UnhookedLists(lists, before, qtys, index, side, target);
    var l := Unlink(lists[loc.px], loc.el);
    levels := if |l| == 0 then lists - {loc.px} else lists[loc.px := l];
  }

  class OrderBook {
    var bids: Lists
    var asks: Lists
    var index: map<Id, Loc>

    ghost var bidElems: set<Element>
    ghost var askElems: set<Element>
    ghost var view: Book

    ghost predicate Valid()
      reads this, bidElems, askElems
    {
      && bidElems !! askElems
      && Half(bids, index, Bid, view.bids, Now(bidElems))
      && Half(asks, index, Ask, view.asks, Now(askElems))
      && view.index == Spots(index)
    }

    constructor ()
      ensures Valid() && bidElems == {} && askElems == {} && view == EMPTY
    {
      bids, asks, index := map[], map[], map[];
      bidElems, askElems, view := {}, {}, EMPTY;
    }

    /** Write the fields of the book back at the end of an operation. */
    method Install(bidLists: Lists, askLists: Lists, directory: map<Id, Loc>, ghost after: Book,
                   ghost bidSet: set<Element>, ghost askSet: set<Element>)
      requires bidSet !! askSet
      requires Half(bidLists, directory, Bid, after.bids, Now(bidSet))
      requires Half(askLists, directory, Ask, after.asks, Now(askSet))
      requires after.index == Spots(directory)
      modifies this
      ensures Valid() && view == after && bidElems == bidSet && askElems == askSet
    {
      bids, asks, index, view, bidElems, askElems := bidLists, askLists, directory, after, bidSet, askSet;
      assert Now(bidElems) == old(Now(bidSet)) && Now(askElems) == old(Now(askSet));
    }

    method MatchOrder(buy: bool, cap: Cap, want: int) returns (fills: seq<Fill>, qty: int)
      requires Valid()
      modifies this, bidElems, askElems
      ensures Valid() && bidElems == old(bidElems) && askElems == old(askElems)
      ensures view == Matched(old(view), buy, cap, want)
      ensures fills == Taken(old(view), buy, cap, want).fills && qty == Taken(old(view), buy, cap, want).left
    {
      var opp, directory;
      ghost var bidsNow, asksNow := Now(bidElems), Now(askElems);
      ghost var m := Match(Opposite(buy), view.On(Opposite(buy)), cap, want);
      HalfForgets(bids, index, Bid, view.bids, bidsNow, m.gone);
      HalfForgets(asks, index, Ask, view.asks, asksNow, m.gone);
      assert Spots(index - m.gone) == view.index - m.gone;
      if buy {
        fills, qty, opp, directory := MatchSide(buy, cap, want, asks, index, view.asks, askElems);
        assert Now(bidElems) == bidsNow;
        Install(bids, opp, directory, Matched(view, buy, cap, want), bidElems, askElems);
      } else {
        fills, qty, opp, directory := MatchSide(buy, cap, want, bids, index, view.bids, bidElems);
        assert Now(askElems) == asksNow;
        Install(opp, asks, directory, Matched(view, buy, cap, want), bidElems, askElems);
      }
    }

    method RestOrder(id: Id, buy: bool, px: int, qty: int)
      requires Valid() && qty > 0
      modifies this
      ensures Valid() && fresh(bidElems - old(bidElems)) && fresh(askElems - old(askElems))
      ensures view == Rested(Cpp, old(view), id, buy, px, qty)
    {
      var el := new Element(id, qty, px);
      var loc := Loc(Own(buy), px, el);
      ghost var bidsNow, asksNow, after := Now(bidElems), Now(askElems), Rested(Cpp, view, id, buy, px, qty);
      SpotsRedirected(index, id, loc);
      if buy {
        HalfRedirects(asks, index, Ask, view.asks, asksNow, id, loc);
        var levels := PushBack(bids, px, el, Bid, view.bids, bidsNow, index, qty);
        NowPlus(bidElems, el);
        Install(levels, asks, index[id := loc], after, bidElems + {el}, askElems);
      } else {
        HalfRedirects(bids, index, Bid, view.bids, bidsNow, id, loc);
        var levels := PushBack(asks, px, el, Ask, view.asks, asksNow, index, qty);
        NowPlus(askElems, el);
        Install(bids, levels, index[id := loc], after, bidElems, askElems + {el});
      }
    }

    /** `left` is the quantity the match updates by reference. */
    method LimitOrder(id: Id, buy: bool, px: int, qty: int) returns (fills: seq<Fill>)
      requires Valid()
      modifies this, bidElems, askElems
      ensures Valid() && fresh(bidElems - old(bidElems)) && fresh(askElems - old(askElems))
      ensures view == Step(Cpp, old(view), Limit(id, buy, px, qty))
      ensures fills == Fills(old(view), Limit(id, buy, px, qty))
    {
      var left;
      fills, left := MatchOrder(buy, Cap(px), qty);
      if left > 0 {
        RestOrder(id, buy, px, left);
      }
    }

    method MarketOrder(id: Id, buy: bool, qty: int) returns (fills: seq<Fill>)
      requires Valid()
      modifies this, bidElems, askElems
      ensures Valid() && bidElems == old(bidElems) && askElems == old(askElems)
      ensures view == Step(Cpp, old(view), Op.Market(id, buy, qty))
      ensures fills == Fills(old(view), Op.Market(id, buy, qty))
    {
      var left;
      fills, left := MatchOrder(buy, NoCap, qty);
    }

    /** Erase the element behind the indexed iterator; returns whether target was indexed. */
    method CancelOrder(target: Id) returns (known: bool)
      requires Valid()
      modifies this
      ensures Valid() && bidElems == old(bidElems) && askElems == old(askElems)
      ensures view == Step(Cpp, old(view), Cancel(target))
      ensures known <==> target in old(view).index
    {
      if target !in index {
        return false;
      }
      var loc := index[target];
      ghost var bidsNow, asksNow, after := Now(bidElems), Now(askElems), Cancelled(Cpp, view, target);
      assert Spots(index - {target}) == view.index - {target};
      if loc.side == Bid {
        HalfForgets(asks, index, Ask, view.asks, asksNow, {target});
        var levels := Erase(bids, target, index, Bid, view.bids, bidsNow);
        Install(levels, asks, index - {target}, after, bidElems, askElems);
      } else {
        HalfForgets(bids, index, Bid, view.bids, bidsNow, {target});
        var levels := Erase(asks, target, index, Ask, view.asks, asksNow);
        Install(bids, levels, index - {target}, after, bidElems, askElems);
      }
      return true;
    }
  }
}
