/**
 The Rust book: ordered maps of deques. A match collects the ids it uses up and deletes them from the index
 only when it is over; cancel sweeps its whole level. Each operation is proved to be one `Step` of the Rust
 engine, for arbitrary ids.
*/
module RustEngine {
  import opened Market
  import opened BookLaws
  import Slices

  function Named(ids: seq<Id>): set<Id> {
    set id | id in ids
  }

  /** Trade with the front of a deque, in place, and pop it if it is used up. */
  method TradeFront(best: int, want: int, deque: Level) returns (fill: Fill, qty: int, dq: Level, popped: seq<Id>)
    requires deque != [] && GoodLevel(deque) && want > 0
    ensures var amount := Min(want, deque[0].qty);
      && fill == Fill(best, amount, deque[0].id) && qty == want - amount && dq == Served(deque, want) && GoodLevel(dq)
      && popped == (if amount == deque[0].qty then [deque[0].id] else [])
      && Named(popped) == if amount == deque[0].qty then {deque[0].id} else {}
  {
    ServedLevel(deque, want);
    var front := deque[0];
    var trade := if want < front.qty then want else front.qty;
    fill := Fill(best, trade, front.id);
    qty := want - trade;
    if front.qty - trade == 0 {
      popped, dq := [front.id], deque[1..];
    } else {
      popped, dq := [], [front.(qty := front.qty - trade)] + deque[1..];
    }
  }

  /** The inner loop of a match: serve the taker from the front of the best deque, appending to the fills and
      to the used-up ids of the deques before. */
  method MatchLevel(best: int, want: int, all: Levels, sofar: seq<Fill>, filled: seq<Id>, ghost side: Side, ghost cap: Cap)
    returns (fills: seq<Fill>, qty: int, dq: Level, filledIds: seq<Id>)
    requires GoodLevels(all) && best in all && best == Best(side, all.Keys) && Crosses(side, best, cap)
    ensures GoodLevel(dq) && (dq == [] || qty <= 0)
    ensures Match(side, all, cap, want).After(sofar, Named(filled)) ==
      Match(side, Put(all, best, dq), cap, qty).After(fills, Named(filledIds))
  {
    fills, qty, dq, filledIds := sofar, want, all[best], filled;
    ghost var whole := Match(side, all, cap, want).After(sofar, Named(filled));
    PutSame(all, best);
    while qty > 0
      invariant GoodLevel(dq)
      invariant whole == Match(side, Put(all, best, dq), cap, qty).After(fills, Named(filledIds))
      decreases |dq|, qty
    {
      if dq == [] {
        break;
      }
      ghost var spent := ServeOn(side, all, dq, cap, qty, fills, Named(filledIds));
      var fill, popped;
      fill, qty, dq, popped := TradeFront(best, qty, dq);
      NamedConcat(filledIds, popped);
      assert Named(popped) == spent;
      fills := fills + [fill];
      filledIds := filledIds + popped;
    }
  }

  lemma NamedConcat(a: seq<Id>, c: seq<Id>)
    ensures Named(a + c) == Named(a) + Named(c)
  {
  }

  /** Match against one side of the book; which ids are used up is only collected. */
  method MatchSide(buy: bool, cap: Cap, want: int, start: Levels)
    returns (fills: seq<Fill>, qty: int, levels: Levels, filledIds: seq<Id>)
    requires GoodLevels(start)
    ensures Match(Opposite(buy), start, cap, want) == Outcome(fills, qty, levels, Named(filledIds))
    ensures GoodLevels(levels)
  {
    ghost var side := Opposite(buy);
    ghost var whole := Match(side, start, cap, want);
    fills, qty, levels, filledIds := [], want, start, [];
    while true
      invariant GoodLevels(levels)
      invariant whole == Match(side, levels, cap, qty).After(fills, Named(filledIds))
      decreases |levels|, qty
    {
      if qty <= 0 {
        break;
      }
      if levels.Keys == {} {
        break;
      }
      var best := Slices.BestKey(buy, levels);
      if cap.Cap? && ((buy && best > cap.px) || (!buy && best < cap.px)) {
        break;
      }
      var dq;
      fills, qty, dq, filledIds := MatchLevel(best, qty, levels, fills, filledIds, side, cap);
      PutSize(levels, best, dq);
      ReplaceKeeps(levels, best, dq);
      levels := if dq == [] then levels - {best} else levels[best := dq];
    }
    MatchStops(side, levels, cap, qty, fills, Named(filledIds));
  }

  lemma PutSize(levels: Levels, px: int, level: Level)
    requires px in levels
    ensures |Put(levels, px, level)| == |levels| - (if level == [] then 1 else 0)
  {
    var after := Put(levels, px, level);
    assert after.Keys == if level == [] then levels.Keys - {px} else levels.Keys;
    assert |after.Keys| == |after| && |levels.Keys| == |levels|;
  }

  class Book {
    var bids: Levels
    var asks: Levels
    var index: map<Id, Spot>

    function View(): Market.Book
      reads this
    {
      Market.Book(bids, asks, index)
    }

    ghost predicate Valid()
      reads this
    {
      Good(View())
    }

    constructor ()
      ensures Valid() && View() == EMPTY
    {
      bids, asks, index := map[], map[], map[];
    }

    method MatchOrder(buy: bool, cap: Cap, want: int) returns (fills: seq<Fill>, qty: int)
      requires Valid()
      modifies this
      ensures Valid() && View() == Matched(old(View()), buy, cap, want)
      ensures fills == Taken(old(View()), buy, cap, want).fills && qty == Taken(old(View()), buy, cap, want).left
    {
      var levels, filledIds;
      fills, qty, levels, filledIds := MatchSide(buy, cap, want, if buy then asks else bids);
      DropFilled(filledIds);
      if buy {
        asks := levels;
      } else {
        bids := levels;
      }
    }

    /** Delete the used-up ids from the index, after the match. */
    method DropFilled(filledIds: seq<Id>)
      modifies this`index
      ensures index == old(index) - Named(filledIds)
    {
      for i := 0 to |filledIds|
        invariant index == old(index) - Named(filledIds[..i])
      {
        NamedConcat(filledIds[..i], [filledIds[i]]);
        assert Named([filledIds[i]]) == {filledIds[i]};
        assert filledIds[..i + 1] == filledIds[..i] + [filledIds[i]];
        MinusTwice(old(index), Named(filledIds[..i]), {filledIds[i]});
        index := index - {filledIds[i]};
      }
      assert filledIds[..|filledIds|] == filledIds;
    }

    method RestOrder(id: Id, buy: bool, px: int, qty: int)
      requires Valid() && qty > 0
      modifies this
      ensures Valid() && View() == Rested(Rust, old(View()), id, buy, px, qty)
    {
      EnqueueLevel(Rust, At(View().On(Own(buy)), px), id, qty);
      if buy {
        bids := bids[px := At(bids, px) + [Order(id, qty)]];
      } else {
        asks := asks[px := At(asks, px) + [Order(id, qty)]];
      }
      index := index[id := Spot(Own(buy), px)];
    }

    method LimitOrder(id: Id, buy: bool, px: int, qty: int) returns (fills: seq<Fill>)
      requires Valid()
      modifies this
      ensures Valid() && View() == Step(Rust, old(View()), Limit(id, buy, px, qty))
      ensures fills == Fills(old(View()), Limit(id, buy, px, qty))
    {
      var rem;
      fills, rem := MatchOrder(buy, Cap(px), qty);
      if rem > 0 {
        RestOrder(id, buy, px, rem);
      }
    }

    method MarketOrder(id: Id, buy: bool, qty: int) returns (fills: seq<Fill>)
      requires Valid()
      modifies this
      ensures Valid() && View() == Step(Rust, old(View()), Op.Market(id, buy, qty))
      ensures fills == Fills(old(View()), Op.Market(id, buy, qty))
    {
      var rem;
      fills, rem := MatchOrder(buy, NoCap, qty);
    }

    /** Sweep every order named target off the level the index gives. */
    method CancelOrder(target: Id)
      requires Valid()
      modifies this
      ensures Valid() && View() == Step(Rust, old(View()), Cancel(target))
    {
      if target !in index {
        return;
      }
      var Spot(side, px) := index[target];
      index := index - {target};
      var levels := if side == Bid then bids else asks;
      if px in levels {
        PurgeLevel(levels[px], target);
        ReplaceKeeps(levels, px, Purge(levels[px], target));
        var dq := Purge(levels[px], target);
        levels := if dq == [] then levels - {px} else levels[px := dq];
        if side == Bid {
          bids := levels;
        } else {
          asks := levels;
        }
      }
    }
  }
}