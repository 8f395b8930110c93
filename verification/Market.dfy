/**
 The price-time-priority book as a pure step machine.

 A side of the book maps each price to its queue of resting orders, oldest first. All four reference
 engines match in the same way; they differ only in how they rest an id that is already in the queue and
 in how a cancel takes an id out of it. `Step` is indexed by the engine for that reason.
*/
module Market {

  // Ids are only ever compared, so their width plays no part here; module Wire pins it to 64 bits.
  type Id = int

  datatype Side = Bid | Ask

  datatype Order = Order(id: Id, qty: int)

  datatype Fill = Fill(px: int, qty: int, maker: Id)

  function Volume(fills: seq<Fill>): int {
    if fills == [] then 0 else fills[0].qty + Volume(fills[1..])
  }

  // A limit order's worst acceptable price, or none for a market order.
  datatype Cap = NoCap | Cap(px: int)

  datatype Spot = Spot(side: Side, px: int)

  type Level = seq<Order>

  type Levels = map<int, Level>

  datatype Op =
    | Limit(id: Id, buy: bool, px: int, qty: int)
    | Market(id: Id, buy: bool, qty: int)
    | Cancel(target: Id)

  datatype Engine = Go | Python | Rust | Cpp

  /** The book of any engine: both sides and the id index. */
  datatype Book = Book(bids: Levels, asks: Levels, index: map<Id, Spot>) {
    function On(side: Side): Levels {
      if side == Bid then bids else asks
    }

    function With(side: Side, levels: Levels): Book {
      if side == Bid then this.(bids := levels) else this.(asks := levels)
    }
  }

  const EMPTY := Book(map[], map[], map[])

  function Own(buy: bool): Side {
    if buy then Bid else Ask
  }

  function Opposite(buy: bool): Side {
    if buy then Ask else Bid
  }

  /** On `side`, price p is served strictly before price q. */
  predicate Better(side: Side, p: int, q: int) {
    if side == Ask then p < q else p > q
  }

  /** A taker capped at `cap` may trade against a maker resting on `side` at price p. */
  predicate Crosses(side: Side, p: int, cap: Cap) {
    cap.NoCap? || !Better(side, cap.px, p)
  }

  predicate IsBest(side: Side, p: int, prices: set<int>) {
    p in prices && forall q | q in prices :: q == p || Better(side, p, q)
  }

  lemma HasMember(s: set<int>)
    requires s != {}
    ensures exists x :: x in s
  {
    assert (forall x :: x !in s) ==> s == {};
  }

  lemma {:induction false} BestExists(side: Side, prices: set<int>)
    requires prices != {}
    ensures exists p :: IsBest(side, p, prices)
    decreases |prices|
  {
    HasMember(prices);
    var q :| q in prices;
    var others := prices - {q};
    if others == {} {
      assert prices == {q};
      assert IsBest(side, q, prices);
    } else {
      BestExists(side, others);
      var p :| IsBest(side, p, others);
      assert prices == others + {q};
      assert IsBest(side, if Better(side, q, p) then q else p, prices);
    }
  }

  /** The price served first: the lowest ask or the highest bid. */
  ghost function Best(side: Side, prices: set<int>): (p: int)
    requires prices != {}
    ensures IsBest(side, p, prices)
  {
    BestExists(side, prices);
    var p :| IsBest(side, p, prices);
    p
  }

  lemma BestIsUnique(side: Side, prices: set<int>, p: int)
    requires IsBest(side, p, prices)
    ensures Best(side, prices) == p
  {
  }

  /** A side with `level` at price px, where an exhausted level is removed from the side. */
  function Put(levels: Levels, px: int, level: Level): Levels {
    if level == [] then levels - {px} else levels[px := level]
  }

  function Min(a: int, b: int): int {
    if a < b then a else b
  }

  /** The taker still wants quantity and the best price crosses. */
  ghost predicate Tradable(side: Side, levels: Levels, cap: Cap, qty: int) {
    && qty > 0
    && levels.Keys != {}
    && Crosses(side, Best(side, levels.Keys), cap)
    && levels[Best(side, levels.Keys)] != []
  }

  /** What a match yields: its fills, the taker's remainder, the side it leaves and the makers used up. */
  datatype Outcome = Outcome(fills: seq<Fill>, left: int, levels: Levels, gone: set<Id>) {
    function After(fills: seq<Fill>, gone: set<Id>): Outcome {
      Outcome(fills + this.fills, left, levels, gone + this.gone)
    }
  }

  /** The level after its oldest order has traded with a taker of qty. */
  function Served(level: Level, qty: int): Level
    requires level != []
  {
    var maker := level[0];
    if qty < maker.qty then [maker.(qty := maker.qty - qty)] + level[1..] else level[1..]
  }

  /** One trade, with the oldest order at the best price. */
  ghost function Trade(side: Side, levels: Levels, qty: int): Outcome
    requires levels.Keys != {} && levels[Best(side, levels.Keys)] != []
  {
    var best := Best(side, levels.Keys);
    var maker := levels[best][0];
    var amount := Min(qty, maker.qty);
    Outcome([Fill(best, amount, maker.id)], qty - amount, Put(levels, best, Served(levels[best], qty)),
            if amount == maker.qty then {maker.id} else {})
  }

  ghost function Depth(side: Side, levels: Levels): nat {
    if levels.Keys == {} then 0 else |levels[Best(side, levels.Keys)]|
  }

  lemma TradeShrinks(side: Side, levels: Levels, cap: Cap, qty: int)
    requires Tradable(side, levels, cap, qty)
    ensures var t := Trade(side, levels, qty);
      || |t.levels| < |levels|
      || (|t.levels| == |levels| && Depth(side, t.levels) < Depth(side, levels))
      || (|t.levels| == |levels| && Depth(side, t.levels) == Depth(side, levels) && t.left <= 0)
  {
    var best := Best(side, levels.Keys);
    var t := Trade(side, levels, qty);
    if Served(levels[best], qty) == [] {
      assert t.levels.Keys == levels.Keys - {best};
    } else {
      assert t.levels.Keys == levels.Keys;
    }
    assert |t.levels.Keys| == |t.levels| && |levels.Keys| == |levels|;
  }

  /** Trade with the oldest order at the best price for as long as that is possible. */
  ghost function Match(side: Side, levels: Levels, cap: Cap, qty: int): Outcome
    decreases |levels|, Depth(side, levels), qty > 0
  {
    if !Tradable(side, levels, cap, qty) then
      Outcome([], qty, levels, {})
    else
      var t := Trade(side, levels, qty);
      TradeShrinks(side, levels, cap, qty);
      Match(side, t.levels, cap, t.left).After(t.fills, t.gone)
  }

  function Ids(level: Level): set<Id> {
    set o | o in level :: o.id
  }

  /** The level without any order named id. */
  function Purge(level: Level, id: Id): Level {
    if level == [] then []
    else if level[0].id == id then Purge(level[1..], id)
    else [level[0]] + Purge(level[1..], id)
  }

  /** The position of the youngest order named id. */
  function Youngest(level: Level, id: Id): (k: nat)
    requires id in Ids(level)
    ensures k < |level| && level[k].id == id
    ensures forall j | k < j < |level| :: level[j].id != id
  {
    var n := |level| - 1;
    assert level == level[..n] + [level[n]];
    if level[n].id == id then n
    else Youngest(level[..n], id)
  }

  function DropAt<T>(s: seq<T>, k: nat): seq<T>
    requires k < |s|
  {
    s[..k] + s[k + 1..]
  }

  /** The level with qty added to the order named id, which keeps its place. */
  function Merge(level: Level, id: Id, qty: int): Level {
    if level == [] then [Order(id, qty)]
    else if level[0].id == id then [Order(id, level[0].qty + qty)] + level[1..]
    else [level[0]] + Merge(level[1..], id, qty)
  }

  /** Resting at a level: Python's level is a dict and merges, the others append. */
  function Enqueue(e: Engine, level: Level, id: Id, qty: int): Level {
    if e == Python then Merge(level, id, qty) else level + [Order(id, qty)]
  }

  /** Cancelling at a level: Go and C++ unlink the indexed element, which is the youngest of that id;
      Rust and Python drop the id from the level. */
  function Dequeue(e: Engine, level: Level, id: Id): Level {
    if e in {Rust, Python} then Purge(level, id)
    else if id in Ids(level) then DropAt(level, Youngest(level, id))
    else level
  }

  function At(levels: Levels, px: int): Level {
    if px in levels then levels[px] else []
  }

  ghost function Rested(e: Engine, b: Book, id: Id, buy: bool, px: int, qty: int): Book {
    var levels := b.On(Own(buy));
    b.With(Own(buy), levels[px := Enqueue(e, At(levels, px), id, qty)]).(index := b.index[id := Spot(Own(buy), px)])
  }

  ghost function Matched(b: Book, buy: bool, cap: Cap, qty: int): Book {
    var m := Match(Opposite(buy), b.On(Opposite(buy)), cap, qty);
    b.With(Opposite(buy), m.levels).(index := b.index - m.gone)
  }

  ghost function Taken(b: Book, buy: bool, cap: Cap, qty: int): Outcome {
    Match(Opposite(buy), b.On(Opposite(buy)), cap, qty)
  }

  ghost function Cancelled(e: Engine, b: Book, target: Id): Book {
    if target !in b.index then b
    else
      var Spot(side, px) := b.index[target];
      var c := b.(index := b.index - {target});
      if px !in b.On(side) then c
      else c.With(side, Put(b.On(side), px, Dequeue(e, b.On(side)[px], target)))
  }

  /** The book an operation leaves in engine e. */
  ghost function Step(e: Engine, b: Book, op: Op): Book {
    match op
    case Limit(id, buy, px, qty) =>
      var c := Matched(b, buy, Cap(px), qty);
      var left := Taken(b, buy, Cap(px), qty).left;
      if left > 0 then Rested(e, c, id, buy, px, left) else c
    case Market(id, buy, qty) => Matched(b, buy, NoCap, qty)
    case Cancel(target) => Cancelled(e, b, target)
  }

  /** The fills an operation reports. */
  ghost function Fills(b: Book, op: Op): seq<Fill> {
    match op
    case Limit(id, buy, px, qty) => Taken(b, buy, Cap(px), qty).fills
    case Market(id, buy, qty) => Taken(b, buy, NoCap, qty).fills
    case Cancel(target) => []
  }

  ghost function Run(e: Engine, ops: seq<Op>): Book {
    if ops == [] then EMPTY else Step(e, Run(e, ops[..|ops| - 1]), ops[|ops| - 1])
  }

  /** The fills of every operation of a run, in order. */
  ghost function Tape(e: Engine, ops: seq<Op>): seq<seq<Fill>> {
    if ops == [] then []
    else
      var before := ops[..|ops| - 1];
      Tape(e, before) + [Fills(Run(e, before), ops[|ops| - 1])]
  }

  lemma {:induction false} TapeLength(e: Engine, ops: seq<Op>)
    ensures |Tape(e, ops)| == |ops|
  {
    if ops != [] {
      TapeLength(e, ops[..|ops| - 1]);
    }
  }
}
