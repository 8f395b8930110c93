/**
 What every operation keeps, in every engine and for arbitrary, even repeated, ids.
*/
module BookLaws {
  import opened Market

  predicate GoodLevel(level: Level) {
    forall o | o in level :: o.qty > 0
  }

  ghost predicate GoodLevels(levels: Levels) {
    forall p | p in levels :: levels[p] != [] && GoodLevel(levels[p])
  }

  /** No level is empty and every resting quantity is positive. */
  ghost predicate Good(b: Book) {
    GoodLevels(b.bids) && GoodLevels(b.asks)
  }

  /** Every index entry names an order that rests where the entry says. */
  ghost predicate Sound(b: Book) {
    forall id | id in b.index ::
      b.index[id].px in b.On(b.index[id].side) && id in Ids(b.On(b.index[id].side)[b.index[id].px])
  }

  ghost predicate Lives(b: Book, side: Side, px: int, id: Id) {
    px in b.On(side) && id in Ids(b.On(side)[px])
  }

  /** Every resting order is indexed where it rests. */
  ghost predicate Complete(b: Book) {
    forall side, px, id | Lives(b, side, px, id) :: id in b.index && b.index[id] == Spot(side, px)
  }

  predicate DistinctIds(level: Level) {
    forall i, j | 0 <= i < j < |level| :: level[i].id != level[j].id
  }

  ghost predicate DistinctLevels(levels: Levels) {
    forall p | p in levels :: DistinctIds(levels[p])
  }

  /** No level holds two orders with the same id. */
  ghost predicate Distinct(b: Book) {
    DistinctLevels(b.bids) && DistinctLevels(b.asks)
  }

  /** The best bid is strictly below the best ask. */
  ghost predicate Uncrossed(b: Book) {
    forall p, q | p in b.bids && q in b.asks :: p < q
  }

  // ---------- matching ----------

  /** From a to b orders only disappear, and the ids that lost an order without being gone still rest
      where they did. */
  ghost predicate Consumes(a: Levels, b: Levels, gone: set<Id>) {
    && b.Keys <= a.Keys
    && (forall p | p in b :: Ids(b[p]) <= Ids(a[p]))
    && (forall p | p in a :: Ids(a[p]) <= gone + Ids(At(b, p)))
  }

  lemma ReplaceConsumes(levels: Levels, px: int, after: Level, gone: set<Id>)
    requires px in levels && Ids(after) <= Ids(levels[px]) <= gone + Ids(after)
    ensures Consumes(levels, Put(levels, px, after), gone)
  {
  }

  lemma ReplaceKeeps(levels: Levels, px: int, after: Level)
    requires GoodLevels(levels) && GoodLevel(after)
    ensures GoodLevels(Put(levels, px, after))
    ensures DistinctLevels(levels) && DistinctIds(after) ==> DistinctLevels(Put(levels, px, after))
  {
  }

  lemma ServedLevel(level: Level, qty: int)
    requires level != [] && GoodLevel(level) && qty > 0
    ensures var after := Served(level, qty);
      && GoodLevel(after)
      && (DistinctIds(level) ==> DistinctIds(after))
      && Ids(after) <= Ids(level) <= Ids(after) + (if Min(qty, level[0].qty) == level[0].qty then {level[0].id} else {})
  {
    var after := Served(level, qty);
    if qty < level[0].qty {
      assert forall i | 0 <= i < |level| :: after[i].id == level[i].id;
    } else {
      assert level == [level[0]] + after;
    }
  }

  lemma TradeConsumes(side: Side, levels: Levels, cap: Cap, qty: int)
    requires Tradable(side, levels, cap, qty) && GoodLevels(levels)
    ensures var t := Trade(side, levels, qty);
      && GoodLevels(t.levels)
      && (DistinctLevels(levels) ==> DistinctLevels(t.levels))
      && Consumes(levels, t.levels, t.gone)
  {
    var best := Best(side, levels.Keys);
    ServedLevel(levels[best], qty);
    ReplaceKeeps(levels, best, Served(levels[best], qty));
    ReplaceConsumes(levels, best, Served(levels[best], qty), Trade(side, levels, qty).gone);
  }

  lemma TradeGood(side: Side, levels: Levels, cap: Cap, qty: int)
    requires Tradable(side, levels, cap, qty) && GoodLevels(levels)
    ensures GoodLevels(Trade(side, levels, qty).levels)
    ensures DistinctLevels(levels) ==> DistinctLevels(Trade(side, levels, qty).levels)
  {
    TradeConsumes(side, levels, cap, qty);
  }

  /** Matching keeps levels good and distinct, removes nothing it does not report as gone, and stops only
      when the taker is done or nothing crosses. */
  lemma {:induction false} MatchConsumes(side: Side, levels: Levels, cap: Cap, qty: int)
    requires GoodLevels(levels)
    ensures var m := Match(side, levels, cap, qty);
      && GoodLevels(m.levels)
      && (DistinctLevels(levels) ==> DistinctLevels(m.levels))
      && Consumes(levels, m.levels, m.gone)
      && (m.left > 0 ==> forall p | p in m.levels :: !Crosses(side, p, cap))
    decreases |levels|, Depth(side, levels), qty > 0
  {
    if Tradable(side, levels, cap, qty) {
      var t := Trade(side, levels, qty);
      TradeShrinks(side, levels, cap, qty);
      TradeConsumes(side, levels, cap, qty);
      MatchConsumes(side, t.levels, cap, t.left);
    }
  }

  lemma MatchStops(side: Side, levels: Levels, cap: Cap, qty: int, fills: seq<Fill>, gone: set<Id>)
    requires !Tradable(side, levels, cap, qty)
    ensures Match(side, levels, cap, qty).After(fills, gone) == Outcome(fills, qty, levels, gone)
  {
  }

  lemma AfterTwice(o: Outcome, a: seq<Fill>, c: seq<Fill>, g: set<Id>, h: set<Id>)
    ensures o.After(c, h).After(a, g) == o.After(a + c, g + h)
  {
    assert a + (c + o.fills) == (a + c) + o.fills;
    assert g + (h + o.gone) == (g + h) + o.gone;
  }

  lemma MatchOnce(side: Side, levels: Levels, cap: Cap, qty: int)
    requires Tradable(side, levels, cap, qty)
    ensures var t := Trade(side, levels, qty);
      Match(side, levels, cap, qty) == Match(side, t.levels, cap, t.left).After(t.fills, t.gone)
  {
    TradeShrinks(side, levels, cap, qty);
  }

  /** One trade done, the rest of the match is a match of what is left. */
  lemma MatchUnfolds(side: Side, levels: Levels, cap: Cap, qty: int, fills: seq<Fill>, gone: set<Id>)
    requires Tradable(side, levels, cap, qty)
    ensures var t := Trade(side, levels, qty);
      Match(side, levels, cap, qty).After(fills, gone) ==
      Match(side, t.levels, cap, t.left).After(fills + t.fills, gone + t.gone)
  {
    MatchOnce(side, levels, cap, qty);
    var t := Trade(side, levels, qty);
    AfterTwice(Match(side, t.levels, cap, t.left), fills, t.fills, gone, t.gone);
  }

  lemma MinusTwice<K, V>(m: map<K, V>, a: set<K>, b: set<K>)
    ensures m - a - b == m - (a + b)
  {
  }

  lemma PutTwice(levels: Levels, px: int, a: Level, b: Level)
    ensures Put(Put(levels, px, a), px, b) == Put(levels, px, b)
  {
  }

  lemma PutSame(levels: Levels, px: int)
    requires px in levels && levels[px] != []
    ensures Put(levels, px, levels[px]) == levels
  {
  }

  /** Serving the taker once from the best level, given as `level`, is one trade of the match; `spent` is the
      maker, if it is used up. */
  lemma ServeOn(side: Side, all: Levels, level: Level, cap: Cap, qty: int, fills: seq<Fill>, gone: set<Id>)
    returns (spent: set<Id>)
    requires all.Keys != {} && level != [] && qty > 0 && Crosses(side, Best(side, all.Keys), cap)
    ensures var best, maker := Best(side, all.Keys), level[0];
      var amount := Min(qty, maker.qty);
      && spent == (if amount == maker.qty then {maker.id} else {})
      && Match(side, Put(all, best, level), cap, qty).After(fills, gone) ==
         Match(side, Put(all, best, Served(level, qty)), cap, qty - amount)
           .After(fills + [Fill(best, amount, maker.id)], gone + spent)
  {
    var best := Best(side, all.Keys);
    var now := Put(all, best, level);
    assert now.Keys == all.Keys;
    MatchUnfolds(side, now, cap, qty, fills, gone);
    PutTwice(all, best, level, Served(level, qty));
    spent := Trade(side, now, qty).gone;
  }

  // ---------- resting and cancelling at one level ----------

  lemma IdsConcat(a: Level, b: Level)
    ensures Ids(a + b) == Ids(a) + Ids(b)
  {
  }

  lemma DistinctConcat(a: Level, b: Level)
    ensures DistinctIds(a + b) <==> DistinctIds(a) && DistinctIds(b) && Ids(a) !! Ids(b)
  {
    var s := a + b;
    assert forall i | 0 <= i < |a| :: s[i] == a[i] && a[i] in a;
    assert forall i | 0 <= i < |b| :: s[|a| + i] == b[i] && b[i] in b;
    if DistinctIds(s) {
      assert DistinctIds(b) by {
        forall i, j | 0 <= i < j < |b| ensures b[i].id != b[j].id {
          assert s[|a| + i].id != s[|a| + j].id;
        }
      }
      forall o, p | o in a && p in b ensures o.id != p.id {
        var i :| 0 <= i < |a| && a[i] == o;
        var j :| 0 <= j < |b| && b[j] == p;
        assert s[i].id != s[|a| + j].id;
      }
    }
    if DistinctIds(a) && DistinctIds(b) && Ids(a) !! Ids(b) {
      forall i, j | 0 <= i < j < |s| ensures s[i].id != s[j].id {
        if i < |a| <= j {
          assert s[i].id in Ids(a);
          assert s[j] == b[j - |a|] && s[j].id in Ids(b);
        } else if i >= |a| {
          assert s[i] == b[i - |a|] && s[j] == b[j - |a|];
        }
      }
    }
  }

  lemma IdsOne(o: Order)
    ensures Ids([o]) == {o.id} && DistinctIds([o])
  {
    assert [o][0] == o;
  }

  lemma IdsHead(level: Level)
    requires level != []
    ensures level == [level[0]] + level[1..]
    ensures Ids(level) == {level[0].id} + Ids(level[1..])
    ensures DistinctIds(level) <==> DistinctIds(level[1..]) && level[0].id !in Ids(level[1..])
  {
    assert level == [level[0]] + level[1..];
    IdsOne(level[0]);
    IdsConcat([level[0]], level[1..]);
    DistinctConcat([level[0]], level[1..]);
  }

  lemma {:induction false} MergeIds(level: Level, id: Id, qty: int)
    ensures Merge(level, id, qty) != [] && Ids(Merge(level, id, qty)) == Ids(level) + {id}
  {
    if level == [] {
      IdsOne(Order(id, qty));
    } else {
      IdsHead(level);
      IdsHead(Merge(level, id, qty));
      if level[0].id != id {
        MergeIds(level[1..], id, qty);
      }
    }
  }

  lemma {:induction false} MergeFresh(level: Level, id: Id, qty: int)
    ensures id !in Ids(level) ==> Merge(level, id, qty) == level + [Order(id, qty)]
    ensures id in Ids(level) ==> |Merge(level, id, qty)| == |level|
  {
    if level != [] {
      IdsHead(level);
      if level[0].id != id {
        MergeFresh(level[1..], id, qty);
        assert [level[0]] + (level[1..] + [Order(id, qty)]) == level + [Order(id, qty)];
      }
    }
  }

  lemma {:induction false} MergeKeeps(level: Level, id: Id, qty: int)
    requires GoodLevel(level) && qty > 0
    ensures GoodLevel(Merge(level, id, qty))
    ensures DistinctIds(level) ==> DistinctIds(Merge(level, id, qty))
  {
    if level != [] {
      IdsHead(level);
      if level[0].id == id {
        IdsHead([Order(id, level[0].qty + qty)] + level[1..]);
      } else {
        MergeKeeps(level[1..], id, qty);
        MergeIds(level[1..], id, qty);
        IdsHead([level[0]] + Merge(level[1..], id, qty));
      }
    }
  }

  lemma EnqueueLevel(e: Engine, level: Level, id: Id, qty: int)
    requires GoodLevel(level) && qty > 0
    ensures var after := Enqueue(e, level, id, qty);
      && after != [] && GoodLevel(after)
      && Ids(after) == Ids(level) + {id}
      && (DistinctIds(level) ==> (DistinctIds(after) <==> e == Python || id !in Ids(level)))
      && (id !in Ids(level) ==> after == level + [Order(id, qty)])
      && (id in Ids(level) ==> (after == level + [Order(id, qty)] <==> e != Python))
  {
    MergeIds(level, id, qty);
    MergeFresh(level, id, qty);
    MergeKeeps(level, id, qty);
    IdsOne(Order(id, qty));
    IdsConcat(level, [Order(id, qty)]);
    DistinctConcat(level, [Order(id, qty)]);
    assert |level + [Order(id, qty)]| == |level| + 1;
  }

  lemma {:induction false} PurgeLevel(level: Level, id: Id)
    requires GoodLevel(level)
    ensures var after := Purge(level, id);
      && GoodLevel(after)
      && Ids(after) == Ids(level) - {id}
      && (DistinctIds(level) ==> DistinctIds(after))
      && (id !in Ids(level) ==> after == level)
  {
    if level != [] {
      IdsHead(level);
      PurgeLevel(level[1..], id);
      if level[0].id != id {
        IdsHead(Purge(level, id));
      }
    }
  }

  lemma {:induction false} PurgeIsDrop(level: Level, k: nat)
    requires k < |level| && GoodLevel(level) && DistinctIds(level)
    ensures Purge(level, level[k].id) == DropAt(level, k)
  {
    IdsHead(level);
    if k == 0 {
      PurgeLevel(level[1..], level[0].id);
    } else {
      PurgeIsDrop(level[1..], k - 1);
      assert level[k].id in Ids(level[1..]) by { assert level[k] == level[1..][k - 1]; }
    }
  }

  lemma DropLevel(level: Level, k: nat)
    requires k < |level| && GoodLevel(level)
    ensures var after := DropAt(level, k);
      && GoodLevel(after)
      && Ids(after) <= Ids(level) <= Ids(after) + {level[k].id}
      && (DistinctIds(level) ==> DistinctIds(after))
  {
    var older, younger := level[..k], level[k + 1..];
    assert level == older + ([level[k]] + younger);
    IdsOne(level[k]);
    IdsConcat(older, younger);
    IdsConcat([level[k]], younger);
    IdsConcat(older, [level[k]] + younger);
    DistinctConcat(older, younger);
    DistinctConcat([level[k]], younger);
    DistinctConcat(older, [level[k]] + younger);
  }

  lemma DequeueLevel(e: Engine, level: Level, id: Id)
    requires GoodLevel(level) && id in Ids(level)
    ensures var after := Dequeue(e, level, id);
      && GoodLevel(after)
      && Ids(after) <= Ids(level) <= Ids(after) + {id}
      && (DistinctIds(level) ==> DistinctIds(after) && after == Purge(level, id))
  {
    PurgeLevel(level, id);
    DropLevel(level, Youngest(level, id));
    if DistinctIds(level) {
      PurgeIsDrop(level, Youngest(level, id));
    }
  }

  // ---------- whole operations ----------

  /** What no operation of any engine can break, whatever ids it uses. */
  ghost predicate Healthy(b: Book) {
    Good(b) && Sound(b) && Uncrossed(b)
  }

  lemma MatchedKeeps(b: Book, buy: bool, cap: Cap, qty: int)
    requires Healthy(b)
    ensures var c := Matched(b, buy, cap, qty);
      && Healthy(c)
      && (Distinct(b) ==> Distinct(c))
      && c.On(Own(buy)) == b.On(Own(buy))
      && (Taken(b, buy, cap, qty).left > 0 ==> forall p | p in c.On(Opposite(buy)) :: !Crosses(Opposite(buy), p, cap))
  {
    var side := Opposite(buy);
    MatchConsumes(side, b.On(side), cap, qty);
    var m := Match(side, b.On(side), cap, qty);
    var c := Matched(b, buy, cap, qty);
    forall id | id in c.index
      ensures c.index[id].px in c.On(c.index[id].side)
      ensures id in Ids(c.On(c.index[id].side)[c.index[id].px])
    {
      var Spot(s, px) := b.index[id];
      if s == side {
        assert id in Ids(At(m.levels, px));
      }
    }
  }

  lemma RestedUncrossed(e: Engine, b: Book, id: Id, buy: bool, px: int, qty: int)
    requires Uncrossed(b)
    requires forall p | p in b.On(Opposite(buy)) :: !Crosses(Opposite(buy), p, Cap(px))
    ensures Uncrossed(Rested(e, b, id, buy, px, qty))
  {
    var c := Rested(e, b, id, buy, px, qty);
    forall p, q | p in c.bids && q in c.asks ensures p < q {
      if buy {
        assert q in b.On(Opposite(buy)) && !Crosses(Ask, q, Cap(px));
      } else {
        assert p in b.On(Opposite(buy)) && !Crosses(Bid, p, Cap(px));
      }
    }
  }

  lemma RestedKeeps(e: Engine, b: Book, id: Id, buy: bool, px: int, qty: int)
    requires Healthy(b) && qty > 0
    requires forall p | p in b.On(Opposite(buy)) :: !Crosses(Opposite(buy), p, Cap(px))
    ensures Healthy(Rested(e, b, id, buy, px, qty))
    ensures Distinct(b) ==>
      (Distinct(Rested(e, b, id, buy, px, qty)) <==> e == Python || id !in Ids(At(b.On(Own(buy)), px)))
  {
    EnqueueLevel(e, At(b.On(Own(buy)), px), id, qty);
    RestedUncrossed(e, b, id, buy, px, qty);
    var c := Rested(e, b, id, buy, px, qty);
    assert c.On(Own(buy))[px] == Enqueue(e, At(b.On(Own(buy)), px), id, qty);
  }

  lemma CancelledKeeps(e: Engine, b: Book, target: Id)
    requires Healthy(b)
    ensures Healthy(Cancelled(e, b, target))
    ensures Distinct(b) ==> Distinct(Cancelled(e, b, target))
  {
    if target in b.index {
      var Spot(side, px) := b.index[target];
      DequeueLevel(e, b.On(side)[px], target);
      ReplaceKeeps(b.On(side), px, Dequeue(e, b.On(side)[px], target));
    }
  }

  /** Every operation of every engine keeps the book healthy, with no assumption on ids. */
  lemma StepKeeps(e: Engine, b: Book, op: Op)
    requires Healthy(b)
    ensures Healthy(Step(e, b, op))
    ensures e == Python && Distinct(b) ==> Distinct(Step(e, b, op))
  {
    match op
    case Limit(id, buy, px, qty) =>
      MatchedKeeps(b, buy, Cap(px), qty);
      var left := Taken(b, buy, Cap(px), qty).left;
      if left > 0 {
        RestedKeeps(e, Matched(b, buy, Cap(px), qty), id, buy, px, left);
      }
    case Market(id, buy, qty) => MatchedKeeps(b, buy, NoCap, qty);
    case Cancel(target) => CancelledKeeps(e, b, target);
  }

  /** In every run of every engine the best bid stays below the best ask, every index entry names a resting
      order, and no level is empty. */
  lemma {:induction false} RunHealthy(e: Engine, ops: seq<Op>)
    ensures Healthy(Run(e, ops))
    ensures e == Python ==> Distinct(Run(e, ops))
  {
    if ops != [] {
      RunHealthy(e, ops[..|ops| - 1]);
      StepKeeps(e, Run(e, ops[..|ops| - 1]), ops[|ops| - 1]);
    }
  }

  lemma OneMore(e: Engine, before: seq<Op>, op: Op, after: seq<Op>)
    requires after == before + [op]
    ensures Run(e, after) == Step(e, Run(e, before), op)
    ensures Tape(e, after) == Tape(e, before) + [Fills(Run(e, before), op)]
  {
    assert after[..|before|] == before;
  }

  lemma TwoMore(e: Engine, before: seq<Op>, a: Op, b: Op, ops: seq<Op>)
    requires ops == before + [a, b]
    ensures Run(e, ops) == Step(e, Step(e, Run(e, before), a), b)
    ensures Tape(e, ops) ==
      Tape(e, before) + [Fills(Run(e, before), a), Fills(Step(e, Run(e, before), a), b)]
  {
    var mid := before + [a];
    OneMore(e, before, a, mid);
    OneMore(e, mid, b, ops);
  }

  // ---------- books with bids only ----------

  /** A buyer meets no ask, so its order rests. */
  lemma BidRests(e: Engine, b: Book, id: Id, px: int, qty: int)
    requires b.asks == map[] && qty > 0
    ensures Step(e, b, Limit(id, true, px, qty)) == Rested(e, b, id, true, px, qty)
    ensures Fills(b, Limit(id, true, px, qty)) == []
    ensures Taken(b, true, Cap(px), qty).left == qty
  {
    MatchStops(Ask, b.asks, Cap(px), qty, [], {});
    assert Matched(b, true, Cap(px), qty) == b;
  }

  /** A book with at most one level, of bids. */
  function BidsAt(px: int, level: Level, index: map<Id, Spot>): Book {
    Book(if level == [] then map[] else map[px := level], map[], index)
  }

  lemma BidJoins(e: Engine, px: int, level: Level, index: map<Id, Spot>, id: Id, qty: int)
    requires qty > 0
    ensures var b, op := BidsAt(px, level, index), Limit(id, true, px, qty);
      && Step(e, b, op) == BidsAt(px, Enqueue(e, level, id, qty), index[id := Spot(Bid, px)])
      && Fills(b, op) == []
  {
    var b := BidsAt(px, level, index);
    BidRests(e, b, id, px, qty);
    assert At(b.bids, px) == level;
    assert b.bids[px := Enqueue(e, level, id, qty)] == map[px := Enqueue(e, level, id, qty)];
  }
}
