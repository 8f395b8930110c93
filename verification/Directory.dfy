/**
 The id index as a directory of the resting orders: exactly when it is one, and what that buys cancel.
*/
module Directory {
  import opened Market
  import opened BookLaws

  /** The index and the resting orders are in one-to-one correspondence (with Sound). */
  ghost predicate Exact(b: Book) {
    Complete(b) && Distinct(b)
  }

  /** No id rests twice on this side. */
  ghost predicate Unique(levels: Levels) {
    DistinctLevels(levels) && forall p, q | p in levels && q in levels && p != q :: Ids(levels[p]) !! Ids(levels[q])
  }

  lemma ExactIsUnique(b: Book, side: Side)
    requires Exact(b)
    ensures Unique(b.On(side))
  {
    var levels := b.On(side);
    forall p, q | p in levels && q in levels && p != q ensures Ids(levels[p]) !! Ids(levels[q]) {
      forall id | id in Ids(levels[p]) && id in Ids(levels[q]) ensures false {
        assert Lives(b, side, p, id) && Lives(b, side, q, id);
      }
    }
  }

  lemma TradeUnique(side: Side, levels: Levels, cap: Cap, qty: int)
    requires Tradable(side, levels, cap, qty) && GoodLevels(levels) && Unique(levels)
    ensures var t := Trade(side, levels, qty);
      && Unique(t.levels)
      && (forall p | p in t.levels :: Ids(t.levels[p]) !! t.gone)
      && (forall id | id in t.gone :: exists p :: p in levels && id in Ids(levels[p]))
  {
    TradeConsumes(side, levels, cap, qty);
    var best := Best(side, levels.Keys);
    var level := levels[best];
    var t := Trade(side, levels, qty);
    IdsHead(level);
    assert level[0].id in Ids(level);
    forall p | p in t.levels ensures Ids(t.levels[p]) !! t.gone {
      assert p != best ==> Ids(levels[p]) !! Ids(level);
    }
  }

  /** With unique ids, a match leaves no order behind under an id it reports as gone. */
  lemma {:induction false} MatchUnique(side: Side, levels: Levels, cap: Cap, qty: int)
    requires GoodLevels(levels) && Unique(levels)
    ensures var m := Match(side, levels, cap, qty);
      && Unique(m.levels)
      && (forall p | p in m.levels :: Ids(m.levels[p]) !! m.gone)
      && (forall id | id in m.gone :: exists p :: p in levels && id in Ids(levels[p]))
    decreases |levels|, Depth(side, levels), qty > 0
  {
    if Tradable(side, levels, cap, qty) {
      var t := Trade(side, levels, qty);
      TradeShrinks(side, levels, cap, qty);
      TradeConsumes(side, levels, cap, qty);
      TradeUnique(side, levels, cap, qty);
      MatchConsumes(side, t.levels, cap, t.left);
      MatchUnique(side, t.levels, cap, t.left);
      var m := Match(side, t.levels, cap, t.left);
      forall p | p in m.levels ensures Ids(m.levels[p]) !! (t.gone + m.gone) {
        assert Ids(m.levels[p]) <= Ids(t.levels[p]);
      }
      forall id | id in m.gone ensures exists p :: p in levels && id in Ids(levels[p]) {
        var p :| p in t.levels && id in Ids(t.levels[p]);
        assert Ids(t.levels[p]) <= Ids(levels[p]);
      }
    }
  }

  lemma MatchedExact(b: Book, buy: bool, cap: Cap, qty: int)
    requires Healthy(b) && Exact(b)
    ensures Exact(Matched(b, buy, cap, qty))
  {
    var side := Opposite(buy);
    ExactIsUnique(b, side);
    MatchUnique(side, b.On(side), cap, qty);
    MatchConsumes(side, b.On(side), cap, qty);
    MatchedKeeps(b, buy, cap, qty);
    var m := Match(side, b.On(side), cap, qty);
    var c := Matched(b, buy, cap, qty);
    forall s, p, id | Lives(c, s, p, id) ensures id in c.index && c.index[id] == Spot(s, p) {
      assert Lives(b, s, p, id);
      if id in m.gone {
        var q :| q in b.On(side) && id in Ids(b.On(side)[q]);
        assert Lives(b, side, q, id);
      }
    }
  }

  lemma CancelledExact(e: Engine, b: Book, target: Id)
    requires Healthy(b) && Exact(b)
    ensures Exact(Cancelled(e, b, target))
    ensures forall s, p :: !Lives(Cancelled(e, b, target), s, p, target)
  {
    CancelledKeeps(e, b, target);
    var c := Cancelled(e, b, target);
    if target in b.index {
      var Spot(side, px) := b.index[target];
      var level := b.On(side)[px];
      DequeueLevel(e, level, target);
      PurgeLevel(level, target);
      forall s, p, id | Lives(c, s, p, id) ensures id in c.index && c.index[id] == Spot(s, p) {
        assert Lives(b, s, p, id);
      }
      forall s, p ensures !Lives(c, s, p, target) {
        assert Lives(b, s, p, target) ==> s == side && p == px;
      }
    } else {
      forall s, p ensures !Lives(c, s, p, target) {
        assert !Lives(b, s, p, target);
      }
    }
  }

  /** The only orders an added order may share its id with: those that Python adds it to. */
  ghost predicate OnlyMerges(e: Engine, b: Book, id: Id, buy: bool, px: int) {
    forall side, p | Lives(b, side, p, id) :: e == Python && side == Own(buy) && p == px
  }

  /** If op is a limit order that will rest, its id rests nowhere after its own match. Python also admits an
      id that already rests on that very level, since it merges the two orders into one. */
  ghost predicate Admits(e: Engine, b: Book, op: Op) {
    op.Limit? && Taken(b, op.buy, Cap(op.px), op.qty).left > 0 ==>
      OnlyMerges(e, Matched(b, op.buy, Cap(op.px), op.qty), op.id, op.buy, op.px)
  }

  lemma RestedLives(e: Engine, b: Book, id: Id, buy: bool, px: int, qty: int, s: Side, p: int, x: Id)
    requires Healthy(b) && qty > 0
    ensures Lives(Rested(e, b, id, buy, px, qty), s, p, x) <==>
      Lives(b, s, p, x) || (s == Own(buy) && p == px && x == id)
  {
    EnqueueLevel(e, At(b.On(Own(buy)), px), id, qty);
  }

  lemma RestedStaysExact(e: Engine, b: Book, id: Id, buy: bool, px: int, qty: int)
    requires Healthy(b) && Exact(b) && qty > 0 && OnlyMerges(e, b, id, buy, px)
    ensures Exact(Rested(e, b, id, buy, px, qty))
  {
    var level := At(b.On(Own(buy)), px);
    EnqueueLevel(e, level, id, qty);
    var c := Rested(e, b, id, buy, px, qty);
    assert Lives(b, Own(buy), px, id) <==> id in Ids(level);
    forall s, p, x | Lives(c, s, p, x) ensures x in c.index && c.index[x] == Spot(s, p) {
      RestedLives(e, b, id, buy, px, qty, s, p, x);
    }
  }

  lemma RestedExact(e: Engine, b: Book, id: Id, buy: bool, px: int, qty: int)
    requires Healthy(b) && Exact(b) && qty > 0
    ensures Exact(Rested(e, b, id, buy, px, qty)) <==> OnlyMerges(e, b, id, buy, px)
  {
    var own := Own(buy);
    var c := Rested(e, b, id, buy, px, qty);
    if Exact(c) {
      EnqueueLevel(e, At(b.On(own), px), id, qty);
      forall side, p | Lives(b, side, p, id) ensures e == Python && side == own && p == px {
        RestedLives(e, b, id, buy, px, qty, side, p, id);
        assert DistinctIds(c.On(own)[px]);
      }
    }
    if OnlyMerges(e, b, id, buy, px) {
      RestedStaysExact(e, b, id, buy, px, qty);
    }
  }

  /** From a book with an exact index, an operation leaves an exact index if and only if it is admitted. */
  lemma StepExact(e: Engine, b: Book, op: Op)
    requires Healthy(b) && Exact(b)
    ensures Exact(Step(e, b, op)) <==> Admits(e, b, op)
  {
    match op
    case Limit(id, buy, px, qty) =>
      MatchedExact(b, buy, Cap(px), qty);
      MatchedKeeps(b, buy, Cap(px), qty);
      var left := Taken(b, buy, Cap(px), qty).left;
      if left > 0 {
        RestedExact(e, Matched(b, buy, Cap(px), qty), id, buy, px, left);
      }
    case Market(id, buy, qty) => MatchedExact(b, buy, NoCap, qty);
    case Cancel(target) => CancelledExact(e, b, target);
  }

  /** The usual reading of freshness: a limit order's id is not indexed when it arrives. */
  ghost predicate FreshRun(e: Engine, ops: seq<Op>) {
    forall k | 0 <= k < |ops| :: FreshAt(e, ops, k)
  }

  ghost predicate FreshAt(e: Engine, ops: seq<Op>, k: nat)
    requires k < |ops|
  {
    ops[k].Limit? ==> ops[k].id !in Run(e, ops[..k]).index
  }

  lemma FreshIsAdmitted(e: Engine, b: Book, op: Op)
    requires Healthy(b) && Exact(b)
    requires op.Limit? ==> op.id !in b.index
    ensures Admits(e, b, op)
  {
    if op.Limit? {
      var side := Opposite(op.buy);
      MatchConsumes(side, b.On(side), Cap(op.px), op.qty);
      var c := Matched(b, op.buy, Cap(op.px), op.qty);
      forall s, p ensures !Lives(c, s, p, op.id) {
        assert Lives(c, s, p, op.id) ==> Lives(b, s, p, op.id);
      }
    }
  }

  lemma {:induction false} FreshRunExact(e: Engine, ops: seq<Op>)
    requires FreshRun(e, ops)
    ensures Exact(Run(e, ops))
  {
    if ops != [] {
      var n := |ops| - 1;
      var before := ops[..n];
      assert FreshRun(e, before) by {
        forall k | 0 <= k < n ensures FreshAt(e, before, k) {
          assert before[..k] == ops[..k] && FreshAt(e, ops, k);
        }
      }
      FreshRunExact(e, before);
      RunHealthy(e, before);
      assert FreshAt(e, ops, n);
      FreshIsAdmitted(e, Run(e, before), ops[n]);
      StepExact(e, Run(e, before), ops[n]);
    }
  }

  // ---------- cancel by scanning ----------

  ghost function PurgeSide(levels: Levels, id: Id): Levels {
    map p | p in levels && Purge(levels[p], id) != [] :: Purge(levels[p], id)
  }

  /** Delete every order named target, wherever it rests. */
  ghost function Scanned(b: Book, target: Id): Book {
    Book(PurgeSide(b.bids, target), PurgeSide(b.asks, target), b.index - {target})
  }

  lemma ScannedIsDead(b: Book, target: Id)
    requires Good(b)
    ensures forall s, p :: !Lives(Scanned(b, target), s, p, target)
  {
    forall s, p ensures !Lives(Scanned(b, target), s, p, target) {
      if p in b.On(s) {
        PurgeLevel(b.On(s)[p], target);
      }
    }
  }

  lemma PurgeSideElsewhere(levels: Levels, id: Id, px: int)
    requires GoodLevels(levels)
    requires forall p | p in levels && id in Ids(levels[p]) :: p == px
    ensures PurgeSide(levels, id) == if px in levels then Put(levels, px, Purge(levels[px], id)) else levels
  {
    forall p | p in levels ensures p != px ==> Purge(levels[p], id) == levels[p] {
      PurgeLevel(levels[p], id);
    }
    var r := if px in levels then Put(levels, px, Purge(levels[px], id)) else levels;
    forall p ensures p in PurgeSide(levels, id) <==> p in r {
      if p in levels && p != px {
        assert Purge(levels[p], id) == levels[p];
      }
    }
  }

  ghost predicate CancelScans(e: Engine, b: Book) {
    forall t :: Cancelled(e, b, t) == Scanned(b, t)
  }

  /** Cancelling through the index deletes every order of that id, for every id, if and only if the index is
      exact; engines whose cancel sweeps the level do not need the level to be free of repeats. */
  lemma CancelIsScan(e: Engine, b: Book)
    requires Healthy(b)
    ensures CancelScans(e, b) <==> Complete(b) && (e in {Go, Cpp} ==> Distinct(b))
  {
    if Complete(b) && (e in {Go, Cpp} ==> Distinct(b)) {
      forall t ensures Cancelled(e, b, t) == Scanned(b, t) {
        CompleteScans(e, b, t);
      }
    }
    if CancelScans(e, b) {
      ScanNeedsComplete(e, b);
      if e in {Go, Cpp} {
        ScanNeedsDistinct(e, b, Bid);
        ScanNeedsDistinct(e, b, Ask);
      }
    }
  }

  lemma CompleteScans(e: Engine, b: Book, t: Id)
    requires Healthy(b) && Complete(b) && (e in {Go, Cpp} ==> Distinct(b))
    ensures Cancelled(e, b, t) == Scanned(b, t)
  {
    var Spot(side, px) := if t in b.index then b.index[t] else Spot(Bid, 0);
    forall s, p | p in b.On(s) && t in Ids(b.On(s)[p]) ensures t in b.index && s == side && p == px {
      assert Lives(b, s, p, t);
    }
    assert b.On(Bid) == b.bids && b.On(Ask) == b.asks;
    PurgeSideElsewhere(b.bids, t, px);
    assert forall p | p in b.asks && t in Ids(b.asks[p]) :: p in b.On(Ask) && t in Ids(b.On(Ask)[p]);
    PurgeSideElsewhere(b.asks, t, px);
    if px in b.bids { PurgeLevel(b.bids[px], t); }
    if px in b.asks { PurgeLevel(b.asks[px], t); }
    if t in b.index {
      DequeueLevel(e, b.On(side)[px], t);
    }
  }

  lemma ScanKills(e: Engine, b: Book, side: Side, px: int, id: Id)
    requires Healthy(b) && CancelScans(e, b)
    ensures !Lives(Cancelled(e, b, id), side, px, id)
  {
    ScannedIsDead(b, id);
    assert Cancelled(e, b, id) == Scanned(b, id);
  }

  lemma ScanNeedsComplete(e: Engine, b: Book)
    requires Healthy(b) && CancelScans(e, b)
    ensures Complete(b)
  {
    forall side, px, id | Lives(b, side, px, id) ensures id in b.index && b.index[id] == Spot(side, px) {
      ScanKills(e, b, side, px, id);
    }
  }

  lemma ScanNeedsDistinct(e: Engine, b: Book, side: Side)
    requires Healthy(b) && CancelScans(e, b) && e in {Go, Cpp}
    ensures DistinctLevels(b.On(side))
  {
    ScanNeedsComplete(e, b);
    forall px, i, j | px in b.On(side) && 0 <= i < j < |b.On(side)[px]|
      ensures b.On(side)[px][i].id != b.On(side)[px][j].id
    {
      var level := b.On(side)[px];
      if level[i].id == level[j].id {
        RepeatSurvives(level, i, j);
        assert Lives(b, side, px, level[i].id);
        ScanKills(e, b, side, px, level[i].id);
      }
    }
  }

  /** Unlinking the youngest order of an id leaves an older one of that id in place. */
  lemma RepeatSurvives(level: Level, i: nat, j: nat)
    requires i < j < |level| && level[i].id == level[j].id
    ensures level[i].id in Ids(DropAt(level, Youngest(level, level[i].id)))
  {
    var k := Youngest(level, level[i].id);
    assert DropAt(level, k)[i] == level[i];
    assert level[i] in DropAt(level, k);
  }
}
