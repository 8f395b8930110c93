/**
 The correctness probe as a client of a book: every honest engine scores n out of n on it and ends with an
 empty book, and the newest-first cheat scores 0 out of n while its unfilled bids pile up.
*/
module Probe {
  import opened Market
  import opened BookLaws
  import Cheat = CheatBook
  import PythonEngine

  const SCEN_ID_BASE := 1_000_000_000_000_000

  function Px(it: int): int { 50000 + it }

  function MakerA(it: int): Id { SCEN_ID_BASE + it * 10 + 1 }

  function MakerB(it: int): Id { SCEN_ID_BASE + it * 10 + 2 }

  function Taker(it: int): Id { SCEN_ID_BASE + it * 10 + 3 }

  // ---------- what the client sees ----------

  /** A message from the engine: an acknowledgement, sent first, or a fill of order `taker`. */
  datatype Reply = Ack(id: Id) | Filled(taker: Id, fill: Fill)

  function Replies(id: Id, fills: seq<Fill>): seq<Reply> {
    [Ack(id)] + FillReplies(id, fills)
  }

  function FillReplies(id: Id, fills: seq<Fill>): seq<Reply> {
    if fills == [] then [] else [Filled(id, fills[0])] + FillReplies(id, fills[1..])
  }

  /** The makers and quantities of the fills of one taker, in order. */
  function Mine(inbox: seq<Reply>, taker: Id): seq<(Id, int)> {
    if inbox == [] then []
    else if inbox[0].Filled? && inbox[0].taker == taker then
      [(inbox[0].fill.maker, inbox[0].fill.qty)] + Mine(inbox[1..], taker)
    else Mine(inbox[1..], taker)
  }

  /** Collect up to n fills of the taker; an empty inbox is a timeout. */
  method ExpectFills(inbox: seq<Reply>, takerId: Id, n: nat) returns (got: seq<(Id, int)>, rest: seq<Reply>)
    ensures Mine(inbox, takerId) == got + Mine(rest, takerId)
    ensures |got| == n || (|got| < n && rest == [])
    ensures |Mine(inbox, takerId)| <= n ==> got == Mine(inbox, takerId)
    ensures |rest| <= |inbox| && rest == inbox[|inbox| - |rest|..]
  {
    got := [];
    var i := 0;
    while |got| < n
      invariant |got| <= n && 0 <= i <= |inbox|
      invariant Mine(inbox, takerId) == got + Mine(inbox[i..], takerId)
      decreases |inbox| - i
    {
      if i == |inbox| {
        break;
      }
      var raw := inbox[i];
      assert inbox[i..][1..] == inbox[i + 1..];
      i := i + 1;
      if raw.Filled? && raw.taker == takerId {
        got := got + [(raw.fill.maker, raw.fill.qty)];
      }
    }
    rest := inbox[i..];
    if |Mine(inbox, takerId)| <= n {
      assert Mine(rest, takerId) == [];
    }
  }

  // ---------- one round on an honest book ----------

  /** A sale of 6 meets two bids of 5: the older is filled, the younger keeps 4. */
  lemma SaleSplits(px: int, a: Id, b: Id, index: map<Id, Spot>)
    ensures var m := Match(Bid, map[px := [Order(a, 5), Order(b, 5)]], Cap(px), 6);
      m == Outcome([Fill(px, 5, a), Fill(px, 1, b)], 0, map[px := [Order(b, 4)]], {a})
  {
    var two: Levels := map[px := [Order(a, 5), Order(b, 5)]];
    var one, left: Levels := map[px := [Order(b, 5)]], map[px := [Order(b, 4)]];
    assert two.Keys == {px} && one.Keys == {px};
    BestIsUnique(Bid, two.Keys, px);
    BestIsUnique(Bid, one.Keys, px);
    assert [Order(a, 5), Order(b, 5)][1..] == [Order(b, 5)];
    assert Trade(Bid, two, 6) == Outcome([Fill(px, 5, a)], 1, one, {a});
    assert Served([Order(b, 5)], 1) == [Order(b, 4)];
    assert Trade(Bid, one, 1) == Outcome([Fill(px, 1, b)], 0, left, {});
    TradeShrinks(Bid, two, Cap(px), 6);
    TradeShrinks(Bid, one, Cap(px), 1);
    MatchStops(Bid, left, Cap(px), 0, [], {});
    assert Match(Bid, one, Cap(px), 1) == Outcome([Fill(px, 1, b)], 0, left, {});
  }

  function RestA(it: int): Op { Limit(MakerA(it), true, Px(it), 5) }

  function RestB(it: int): Op { Limit(MakerB(it), true, Px(it), 5) }

  function Aggress(it: int): Op { Limit(Taker(it), false, Px(it), 6) }

  /** What a correct engine reports to the taker. */
  function Honest(it: int): seq<Fill> {
    [Fill(Px(it), 5, MakerA(it)), Fill(Px(it), 1, MakerB(it))]
  }

  /** One round on any engine, from the empty book: the taker meets A for 5 and then B for 1, nobody else is
      filled, and the cancel empties the book again. */
  lemma HonestRound(e: Engine, it: int)
    ensures var b1 := Step(e, EMPTY, RestA(it));
      var b2 := Step(e, b1, RestB(it));
      && Fills(EMPTY, RestA(it)) == [] && Fills(b1, RestB(it)) == []
      && Fills(b2, Aggress(it)) == Honest(it) ==
        [Fill(50000 + it, 5, 1_000_000_000_000_001 + 10 * it), Fill(50000 + it, 1, 1_000_000_000_000_002 + 10 * it)]
      && Step(e, Step(e, b2, Aggress(it)), Cancel(MakerB(it))) == EMPTY
  {
    HonestRest(e, it);
    HonestSale(e, it);
    LastOrderLeaves(e, Px(it), MakerB(it), 4);
  }

  /** The book with both makers at rest, and then with what the sale leaves of B. */
  function Both(it: int): Book {
    BidsAt(Px(it), [Order(MakerA(it), 5), Order(MakerB(it), 5)],
           map[MakerA(it) := Spot(Bid, Px(it)), MakerB(it) := Spot(Bid, Px(it))])
  }

  function LeftOfB(it: int): Book {
    BidsAt(Px(it), [Order(MakerB(it), 4)], map[MakerB(it) := Spot(Bid, Px(it))])
  }

  lemma HonestRest(e: Engine, it: int)
    ensures var b1 := Step(e, EMPTY, RestA(it));
      && Fills(EMPTY, RestA(it)) == [] && Fills(b1, RestB(it)) == []
      && Step(e, b1, RestB(it)) == Both(it)
  {
    var px, a, b := Px(it), MakerA(it), MakerB(it);
    assert EMPTY == BidsAt(px, [], map[]);
    Appends(Order(a, 5), Order(b, 5));
    EnqueueLevel(e, [], a, 5);
    BidJoins(e, px, [], map[], a, 5);
    var i1: map<Id, Spot> := map[a := Spot(Bid, px)];
    assert map[][a := Spot(Bid, px)] == i1;
    IdsOne(Order(a, 5));
    EnqueueLevel(e, [Order(a, 5)], b, 5);
    BidJoins(e, px, [Order(a, 5)], i1, b, 5);
    assert i1[b := Spot(Bid, px)] == Both(it).index;
  }

  lemma HonestSale(e: Engine, it: int)
    ensures Fills(Both(it), Aggress(it)) == Honest(it)
    ensures Step(e, Both(it), Aggress(it)) == LeftOfB(it)
  {
    SaleSplits(Px(it), MakerA(it), MakerB(it), Both(it).index);
    assert Both(it).index - {MakerA(it)} == LeftOfB(it).index;
  }

  lemma Appends(o: Order, p: Order)
    ensures [] + [o] == [o] && [o] + [p] == [o, p]
  {
  }

  lemma LastOrderLeaves(e: Engine, px: int, id: Id, qty: int)
    requires qty > 0
    ensures Cancelled(e, BidsAt(px, [Order(id, qty)], map[id := Spot(Bid, px)]), id) == EMPTY
  {
    var level := [Order(id, qty)];
    assert level[0] in level;
    assert Youngest(level, id) == 0 && DropAt(level, 0) == [];
    assert Purge(level[1..], id) == [];
    assert Dequeue(e, level, id) == [];
    var index: map<Id, Spot> := map[id := Spot(Bid, px)];
    assert index - {id} == map[];
  }

  /** The probe from the empty book scores n out of n on the Python book and leaves it empty. */
  method RunProbe(book: PythonEngine.OrderBook, n: nat) returns (corrPass: int, corrTotal: int)
    requires book.Valid() && book.View() == EMPTY
    modifies book
    ensures book.Valid() && book.View() == EMPTY
    ensures corrTotal == n && corrPass == n
  {
    corrPass, corrTotal := 0, 0;
    for it := 1 to n + 1
      invariant book.Valid() && book.View() == EMPTY
      invariant corrTotal == it - 1 && corrPass == it - 1
    {
      var got := Iterate(book, it);
      corrTotal := corrTotal + 1;
      if got == [(MakerA(it), 5), (MakerB(it), 1)] {
        corrPass := corrPass + 1;
      }
      var _ := book.CancelOrder(MakerB(it));
    }
  }

  /** Rest A, rest B behind it, sell into them, and collect the taker's fills. */
  method Iterate(book: PythonEngine.OrderBook, it: int) returns (got: seq<(Id, int)>)
    requires book.Valid() && book.View() == EMPTY
    modifies book
    ensures book.Valid() && Step(Python, book.View(), Cancel(MakerB(it))) == EMPTY
    ensures got == [(MakerA(it), 5), (MakerB(it), 1)]
  {
    HonestRound(Python, it);
    var fillsA := book.LimitOrder(MakerA(it), true, Px(it), 5);
    var fillsB := book.LimitOrder(MakerB(it), true, Px(it), 5);
    var fillsC := book.LimitOrder(Taker(it), false, Px(it), 6);
    got := ReadReplies(it, fillsA, fillsB, fillsC);
  }

  /** What the client reads during one round: an acknowledgement after each order, then two fills. */
  method ReadReplies(it: int, fillsA: seq<Fill>, fillsB: seq<Fill>, fillsC: seq<Fill>) returns (got: seq<(Id, int)>)
    requires fillsA == [] && fillsB == [] && |fillsC| == 2
    ensures got == [(fillsC[0].maker, fillsC[0].qty), (fillsC[1].maker, fillsC[1].qty)]
  {
    var inbox := Recv(Replies(MakerA(it), fillsA), MakerA(it));
    inbox := Recv(inbox + Replies(MakerB(it), fillsB), MakerB(it));
    inbox := Recv(inbox + Replies(Taker(it), fillsC), Taker(it));
    assert inbox == Replies(Taker(it), fillsC)[1..];
    MineOfTwo(Taker(it), fillsC);
    got, inbox := ExpectFills(inbox, Taker(it), 2);
  }

  /** Wait for the next message, which is the acknowledgement of order id. */
  method Recv(inbox: seq<Reply>, ghost id: Id) returns (rest: seq<Reply>)
    requires inbox != [] && inbox[0] == Ack(id)
    ensures rest == inbox[1..]
  {
    rest := inbox[1..];
  }

  lemma MineOfTwo(taker: Id, fills: seq<Fill>)
    requires |fills| == 2
    ensures Replies(taker, fills)[1..] == FillReplies(taker, fills)
    ensures Mine(FillReplies(taker, fills), taker) == [(fills[0].maker, fills[0].qty), (fills[1].maker, fills[1].qty)]
  {
    var one := FillReplies(taker, fills[1..]);
    assert FillReplies(taker, fills[1..][1..]) == [];
    assert one == [Filled(taker, fills[1])];
    assert FillReplies(taker, fills) == [Filled(taker, fills[0])] + one;
    assert Mine(one[1..], taker) == [];
    assert FillReplies(taker, fills)[1..] == one;
  }

  // ---------- the newest-first cheat ----------

  /** The cheat's book after k rounds: at every probed price, what is left of maker A. */
  function Pile(k: nat): Book {
    if k == 0 then EMPTY
    else
      var below := Pile(k - 1);
      Book(below.bids[Px(k) := [Order(MakerA(k), 4)]], map[], below.index[MakerA(k) := Spot(Bid, Px(k))])
  }

  lemma {:induction false} PileShape(k: nat)
    ensures Pile(k).asks == map[]
    ensures forall p :: p in Pile(k).bids <==> Px(0) < p <= Px(k)
    ensures forall id | id in Pile(k).index :: id < MakerA(k + 1)
    ensures |Pile(k).bids| == k
  {
    if k > 0 {
      PileShape(k - 1);
    }
  }

  lemma PileIsClear(k: nat)
    ensures Pile(k).asks == map[] && Px(k + 1) !in Pile(k).bids
    ensures MakerA(k + 1) !in Pile(k).index && MakerB(k + 1) !in Pile(k).index
  {
    PileShape(k);
  }

  /** A book with `level` on top of the pile. */
  function OnPile(k: nat, level: Level, index: map<Id, Spot>): Book {
    Book(Put(Pile(k).bids, Px(k + 1), level), map[], index)
  }

  lemma CheatRests(k: nat, level: Level, index: map<Id, Spot>, id: Id)
    requires GoodLevel(level) && id !in Ids(level)
    ensures var b, op := OnPile(k, level, index), Limit(id, true, Px(k + 1), 5);
      && Cheat.CheatStep(b, op) == OnPile(k, level + [Order(id, 5)], index[id := Spot(Bid, Px(k + 1))])
      && Cheat.CheatFills(b, op) == []
  {
    var b := OnPile(k, level, index);
    PileIsClear(k);
    EnqueueLevel(Python, level, id, 5);
    assert !Cheat.CanWalk(Ask, b.asks, Cap(Px(k + 1)), 5);
    assert Cheat.CheatMatched(b, true, Cap(Px(k + 1)), 5) == b;
    assert At(b.bids, Px(k + 1)) == level;
    PutTwice(Pile(k).bids, Px(k + 1), level, level + [Order(id, 5)]);
  }

  lemma TopOfPile(k: nat, level: Level)
    requires level != []
    ensures var bids := Put(Pile(k).bids, Px(k + 1), level);
      bids.Keys != {} && Best(Bid, bids.Keys) == Px(k + 1) && bids[Px(k + 1)] == level
  {
    PileShape(k);
    var bids := Put(Pile(k).bids, Px(k + 1), level);
    assert Px(k + 1) in bids;
    assert IsBest(Bid, Px(k + 1), bids.Keys);
    BestIsUnique(Bid, bids.Keys, Px(k + 1));
  }

  lemma CheatSells(k: nat, level: Level, qty: int)
    requires level != [] && qty > 0
    ensures var bids := Put(Pile(k).bids, Px(k + 1), level);
      var maker := level[|level| - 1];
      var amount := Min(qty, maker.qty);
      Cheat.MatchNewest(Bid, bids, Cap(Px(k + 1)), qty) ==
      Cheat.MatchNewest(Bid, Put(Pile(k).bids, Px(k + 1), Cheat.ServedNewest(level, qty)), Cap(Px(k + 1)), qty - amount)
        .After([Fill(Px(k + 1), amount, maker.id)], if amount == maker.qty then {maker.id} else {})
  {
    TopOfPile(k, level);
    var px, bids := Px(k + 1), Put(Pile(k).bids, Px(k + 1), level);
    var served, maker := Cheat.ServedNewest(level, qty), level[|level| - 1];
    var amount := Min(qty, maker.qty);
    assert Cheat.Walk(Bid, bids, qty) == Outcome([Fill(px, amount, maker.id)], qty - amount, Put(bids, px, served),
      if amount == maker.qty then {maker.id} else {});
    PutTwice(Pile(k).bids, px, level, served);
    Cheat.WalkOnce(Bid, bids, Cap(px), qty);
  }

  /** What the cheat reports to the taker: the newer maker first. */
  function Cheated(it: int): seq<Fill> {
    [Fill(Px(it), 5, MakerB(it)), Fill(Px(it), 1, MakerA(it))]
  }

  lemma CheatSplits(k: nat)
    ensures var a, b, bids := MakerA(k + 1), MakerB(k + 1), Pile(k).bids;
      Cheat.MatchNewest(Bid, Put(bids, Px(k + 1), [Order(a, 5), Order(b, 5)]), Cap(Px(k + 1)), 6) ==
      Outcome(Cheated(k + 1), 0, Put(bids, Px(k + 1), [Order(a, 4)]), {b})
  {
    var a, b, bids := MakerA(k + 1), MakerB(k + 1), Pile(k).bids;
    assert Cheat.ServedNewest([Order(a, 5), Order(b, 5)], 6) == [Order(a, 5)];
    CheatSells(k, [Order(a, 5), Order(b, 5)], 6);
    CheatSellsRest(k);
  }

  lemma CheatSellsRest(k: nat)
    ensures var a, bids := MakerA(k + 1), Pile(k).bids;
      Cheat.MatchNewest(Bid, Put(bids, Px(k + 1), [Order(a, 5)]), Cap(Px(k + 1)), 1) ==
      Outcome([Fill(Px(k + 1), 1, a)], 0, Put(bids, Px(k + 1), [Order(a, 4)]), {})
  {
    var a := MakerA(k + 1);
    assert Cheat.ServedNewest([Order(a, 5)], 1) == [Order(a, 4)];
    CheatSells(k, [Order(a, 5)], 1);
    Cheat.WalkStops(Bid, Put(Pile(k).bids, Px(k + 1), [Order(a, 4)]), Cap(Px(k + 1)), 0, [], {});
    Cheat.AfterNothing(Cheat.MatchNewest(Bid, Put(Pile(k).bids, Px(k + 1), [Order(a, 4)]), Cap(Px(k + 1)), 0));
  }

  /** One round on the cheat, on top of k earlier ones: the taker meets B for 5 and then A for 1, the cancel of
      B finds nothing, and 4 of A stay behind. */
  lemma CheatRound(k: nat)
    ensures var it := k + 1;
      var b1 := Cheat.CheatStep(Pile(k), RestA(it));
      var b2 := Cheat.CheatStep(b1, RestB(it));
      var b3 := Cheat.CheatStep(b2, Aggress(it));
      && Cheat.CheatFills(Pile(k), RestA(it)) == [] && Cheat.CheatFills(b1, RestB(it)) == []
      && Cheat.CheatFills(b2, Aggress(it)) == Cheated(it)
      && Cheat.CheatStep(b3, Cancel(MakerB(it))) == b3 == Pile(k + 1)
  {
    CheatBothRest(k);
    CheatSale(k);
  }

  /** The pile's index once both makers of the next round rest. */
  function BothIndexed(k: nat): map<Id, Spot> {
    Pile(k).index[MakerA(k + 1) := Spot(Bid, Px(k + 1))][MakerB(k + 1) := Spot(Bid, Px(k + 1))]
  }

  function BothRest(k: nat): Book {
    OnPile(k, [Order(MakerA(k + 1), 5), Order(MakerB(k + 1), 5)], BothIndexed(k))
  }

  lemma CheatBothRest(k: nat)
    ensures var b1 := Cheat.CheatStep(Pile(k), RestA(k + 1));
      && Cheat.CheatFills(Pile(k), RestA(k + 1)) == [] && Cheat.CheatFills(b1, RestB(k + 1)) == []
      && Cheat.CheatStep(b1, RestB(k + 1)) == BothRest(k)
  {
    var a, b := MakerA(k + 1), MakerB(k + 1);
    PileIsClear(k);
    var i0 := Pile(k).index;
    assert Pile(k) == OnPile(k, [], i0);
    CheatRests(k, [], i0, a);
    Appends(Order(a, 5), Order(b, 5));
    IdsOne(Order(a, 5));
    CheatRests(k, [Order(a, 5)], i0[a := Spot(Bid, Px(k + 1))], b);
  }

  lemma PileGrows(k: nat)
    ensures Pile(k + 1) == OnPile(k, [Order(MakerA(k + 1), 4)], BothIndexed(k) - {MakerB(k + 1)})
    ensures MakerB(k + 1) !in Pile(k + 1).index
  {
    PileIsClear(k);
  }

  lemma CheatSale(k: nat)
    ensures Cheat.CheatFills(BothRest(k), Aggress(k + 1)) == Cheated(k + 1)
    ensures Cheat.CheatStep(BothRest(k), Aggress(k + 1)) == Pile(k + 1)
    ensures Cheat.CheatStep(Pile(k + 1), Cancel(MakerB(k + 1))) == Pile(k + 1)
  {
    CheatSplits(k);
    PileGrows(k);
    var m := Cheat.CheatTaken(BothRest(k), false, Cap(Px(k + 1)), 6);
    assert m == Outcome(Cheated(k + 1), 0, Put(Pile(k).bids, Px(k + 1), [Order(MakerA(k + 1), 4)]), {MakerB(k + 1)});
  }

  method IterateOnCheat(book: Cheat.CheatBook, k: nat) returns (got: seq<(Id, int)>)
    requires book.Valid() && book.View() == Pile(k)
    modifies book
    ensures book.Valid() && book.View() == Pile(k + 1) == Cheat.CheatStep(book.View(), Cancel(MakerB(k + 1)))
    ensures got == [(MakerB(k + 1), 5), (MakerA(k + 1), 1)]
  {
    CheatRound(k);
    var it := k + 1;
    var fillsA := book.LimitOrder(MakerA(it), true, Px(it), 5);
    var fillsB := book.LimitOrder(MakerB(it), true, Px(it), 5);
    var fillsC := book.LimitOrder(Taker(it), false, Px(it), 6);
    got := ReadReplies(it, fillsA, fillsB, fillsC);
  }

  /** The probe from the empty book scores 0 out of n on the cheat, whose book keeps one bid for every round. */
  method RunProbeOnCheat(book: Cheat.CheatBook, n: nat) returns (corrPass: int, corrTotal: int)
    requires book.Valid() && book.View() == EMPTY
    modifies book
    ensures book.Valid() && book.View() == Pile(n) && |book.View().bids| == n
    ensures corrTotal == n && corrPass == 0
  {
    corrPass, corrTotal := 0, 0;
    for it := 1 to n + 1
      invariant book.Valid() && book.View() == Pile(it - 1)
      invariant corrTotal == it - 1 && corrPass == 0
    {
      var got := IterateOnCheat(book, it - 1);
      corrTotal := corrTotal + 1;
      if got == [(MakerA(it), 5), (MakerB(it), 1)] {
        corrPass := corrPass + 1;
      }
      book.CancelOrder(MakerB(it));
    }
    PileShape(n);
  }
}