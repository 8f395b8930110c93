/**
 The reference book: one list of resting orders in order of arrival, with no levels, no sorting and no index.

 A taker trades with the order that is first by (best price, earliest arrival), again and again; a cancel
 deletes by id. The engines' books are shown to be refinements of this one in module Refinement. Here the
 matching itself is shown to have a closed form: what an order trades depends only on the quantity that
 stands ahead of it.
*/
module Reference {
  import opened Market

  datatype Live = Live(id: Id, side: Side, px: int, qty: int)

  type Log = seq<Live>

  /** Order i is served before order j. */
  predicate Prior(side: Side, log: Log, i: nat, j: nat)
    requires i < |log| && j < |log|
  {
    Better(side, log[i].px, log[j].px) || (log[i].px == log[j].px && i < j)
  }

  predicate IsFirst(side: Side, log: Log, i: nat) {
    i < |log| && log[i].side == side && forall j | 0 <= j < |log| && log[j].side == side && j != i :: Prior(side, log, i, j)
  }

  predicate Quotes(side: Side, log: Log) {
    exists i :: 0 <= i < |log| && log[i].side == side
  }

  lemma {:induction false} FirstExists(side: Side, log: Log)
    requires Quotes(side, log)
    ensures exists i :: IsFirst(side, log, i)
  {
    var n := |log| - 1;
    var init := log[..n];
    if Quotes(side, init) {
      FirstExists(side, init);
      var i: nat :| IsFirst(side, init, i);
      assert forall j | 0 <= j < n && log[j].side == side && j != i :: Prior(side, init, i, j) && Prior(side, log, i, j);
      if log[n].side == side && Better(side, log[n].px, log[i].px) {
        forall j | 0 <= j < n && log[j].side == side ensures Prior(side, log, n, j) {
          assert j == i || Prior(side, log, i, j);
        }
        assert IsFirst(side, log, n);
      } else {
        assert IsFirst(side, log, i);
      }
    } else {
      assert forall j | 0 <= j < n :: log[j] == init[j];
      assert IsFirst(side, log, n);
    }
  }

  ghost function First(side: Side, log: Log): (i: nat)
    requires Quotes(side, log)
    ensures IsFirst(side, log, i)
  {
    FirstExists(side, log);
    var i :| IsFirst(side, log, i);
    i
  }

  datatype Deal = Deal(fills: seq<Fill>, left: int, log: Log)

  ghost predicate CanTrade(side: Side, log: Log, cap: Cap, qty: int) {
    qty > 0 && Quotes(side, log) && Crosses(side, log[First(side, log)].px, cap)
  }

  function Shrunk(log: Log, i: nat, qty: int): Log
    requires i < |log|
  {
    if qty < log[i].qty then log[i := log[i].(qty := log[i].qty - qty)] else DropAt(log, i)
  }

  ghost function Settle(side: Side, log: Log, cap: Cap, qty: int): Deal
    decreases |log|, qty > 0
  {
    if !CanTrade(side, log, cap, qty) then
      Deal([], qty, log)
    else
      var i := First(side, log);
      var amount := Min(qty, log[i].qty);
      var rest := Settle(side, Shrunk(log, i, qty), cap, qty - amount);
      Deal([Fill(log[i].px, amount, log[i].id)] + rest.fills, rest.left, rest.log)
  }

  function Without(log: Log, id: Id): Log {
    if log == [] then []
    else if log[0].id == id then Without(log[1..], id)
    else [log[0]] + Without(log[1..], id)
  }

  ghost function Next(log: Log, op: Op): Log {
    match op
    case Limit(id, buy, px, qty) =>
      var d := Settle(Opposite(buy), log, Cap(px), qty);
      if d.left > 0 then d.log + [Live(id, Own(buy), px, d.left)] else d.log
    case Market(id, buy, qty) => Settle(Opposite(buy), log, NoCap, qty).log
    case Cancel(target) => Without(log, target)
  }

  ghost function Deals(log: Log, op: Op): seq<Fill> {
    match op
    case Limit(id, buy, px, qty) => Settle(Opposite(buy), log, Cap(px), qty).fills
    case Market(id, buy, qty) => Settle(Opposite(buy), log, NoCap, qty).fills
    case Cancel(target) => []
  }

  ghost function LogAfter(ops: seq<Op>): Log {
    if ops == [] then [] else Next(LogAfter(ops[..|ops| - 1]), ops[|ops| - 1])
  }

  ghost function TapeOf(ops: seq<Op>): seq<seq<Fill>> {
    if ops == [] then []
    else
      var before := ops[..|ops| - 1];
      TapeOf(before) + [Deals(LogAfter(before), ops[|ops| - 1])]
  }

  // ---------- the closed form ----------

  predicate Positive(log: Log) {
    forall i | 0 <= i < |log| :: log[i].qty > 0
  }

  /** The quantity among the first n orders that is served before order i. */
  ghost function AheadIn(side: Side, log: Log, i: nat, n: nat): int
    requires i < |log| && n <= |log|
  {
    if n == 0 then 0 else
      AheadIn(side, log, i, n - 1) +
      (if log[n - 1].side == side && n - 1 != i && Prior(side, log, n - 1, i) then log[n - 1].qty else 0)
  }

  ghost function Ahead(side: Side, log: Log, i: nat): int
    requires i < |log|
  {
    AheadIn(side, log, i, |log|)
  }

  function Clamp(x: int, hi: int): int {
    if x < 0 then 0 else Min(x, hi)
  }

  /** What order i trades against a taker of qty: what the quantity ahead of it leaves, up to its own size. */
  ghost function Share(side: Side, log: Log, cap: Cap, qty: int, i: nat): int
    requires i < |log|
  {
    if log[i].side == side && Crosses(side, log[i].px, cap) then Clamp(qty - Ahead(side, log, i), log[i].qty) else 0
  }

  /** The orders that are left when order i has traded its share, in arrival order. */
  ghost function Remains(side: Side, log: Log, cap: Cap, qty: int, n: nat): Log
    requires n <= |log|
  {
    if n == 0 then []
    else
      var left := log[n - 1].qty - Share(side, log, cap, qty, n - 1);
      Remains(side, log, cap, qty, n - 1) + (if left == 0 then [] else [log[n - 1].(qty := left)])
  }

  lemma {:induction false} AheadNonNegative(side: Side, log: Log, i: nat, n: nat)
    requires i < |log| && n <= |log| && Positive(log)
    ensures AheadIn(side, log, i, n) >= 0
    ensures forall k | 0 <= k < n && log[k].side == side && k != i && Prior(side, log, k, i) ::
              AheadIn(side, log, i, n) >= log[k].qty
  {
    if n > 0 {
      AheadNonNegative(side, log, i, n - 1);
    }
  }

  /** Nothing stands ahead of the first order. */
  lemma {:induction false} FirstHasNoneAhead(side: Side, log: Log, i: nat, n: nat)
    requires IsFirst(side, log, i) && n <= |log|
    ensures AheadIn(side, log, i, n) == 0
  {
    if n > 0 {
      FirstHasNoneAhead(side, log, i, n - 1);
      var j := n - 1;
      if log[j].side == side && j != i {
        assert Prior(side, log, i, j);
      }
    }
  }

  function Shift(k: nat, i: nat): nat {
    if i < k then i else i + 1
  }

  /** Without the first order, exactly its quantity is missing ahead of every other order of that side. */
  lemma {:induction false} AheadWithoutFirst(side: Side, log: Log, k: nat, i: nat, n: nat)
    requires IsFirst(side, log, k) && i < |log| - 1 && n < |log|
    requires log[Shift(k, i)].side == side
    ensures n <= k ==> AheadIn(side, log, Shift(k, i), n) == AheadIn(side, DropAt(log, k), i, n)
    ensures n >= k ==>
      AheadIn(side, log, Shift(k, i), n + 1) == AheadIn(side, DropAt(log, k), i, n) + log[k].qty
  {
    var cut := DropAt(log, k);
    var i' := Shift(k, i);
    assert Prior(side, log, k, i');
    if n > 0 {
      AheadWithoutFirst(side, log, k, i, n - 1);
      assert cut[n - 1] == log[Shift(k, n - 1)];
      assert Prior(side, cut, n - 1, i) <==> Prior(side, log, Shift(k, n - 1), i');
    }
  }

  /** After the first order has traded in full, every other order's share is what it was. */
  lemma ShareWithoutFirst(side: Side, log: Log, cap: Cap, qty: int, k: nat, i: nat)
    requires IsFirst(side, log, k) && i < |log| - 1
    ensures Share(side, log, cap, qty, Shift(k, i)) == Share(side, DropAt(log, k), cap, qty - log[k].qty, i)
  {
    if log[Shift(k, i)].side == side {
      AheadWithoutFirst(side, log, k, i, |log| - 1);
    }
  }

  /** Behind an order that outlasts the taker nobody trades. */
  lemma ShareBehind(side: Side, log: Log, cap: Cap, qty: int, k: nat, i: nat)
    requires IsFirst(side, log, k) && i < |log| && i != k && Positive(log)
    requires qty <= log[k].qty
    ensures Share(side, log, cap, qty, i) == 0
  {
    if log[i].side == side {
      AheadNonNegative(side, log, i, |log|);
      assert Prior(side, log, k, i);
    }
  }

  lemma ShareOfFirst(side: Side, log: Log, cap: Cap, qty: int, k: nat)
    requires IsFirst(side, log, k) && Positive(log)
    requires Crosses(side, log[k].px, cap) && qty > 0
    ensures Share(side, log, cap, qty, k) == Min(qty, log[k].qty)
  {
    FirstHasNoneAhead(side, log, k, |log|);
  }

  lemma NoShares(side: Side, log: Log, cap: Cap, qty: int, i: nat)
    requires i < |log| && Positive(log) && !CanTrade(side, log, cap, qty)
    ensures Share(side, log, cap, qty, i) == 0
  {
    AheadNonNegative(side, log, i, |log|);
    if log[i].side == side && qty > 0 {
      var k := First(side, log);
      assert i == k || Prior(side, log, k, i);
    }
  }

  lemma {:induction false} RemainsUnchanged(side: Side, log: Log, cap: Cap, qty: int, n: nat)
    requires n <= |log| && Positive(log)
    requires forall i | 0 <= i < n :: Share(side, log, cap, qty, i) == 0
    ensures Remains(side, log, cap, qty, n) == log[..n]
  {
    if n > 0 {
      RemainsUnchanged(side, log, cap, qty, n - 1);
      assert log[n - 1].(qty := log[n - 1].qty) == log[n - 1];
      assert log[..n] == log[..n - 1] + [log[n - 1]];
    }
  }

  lemma {:induction false} RemainsWithoutFirst(side: Side, log: Log, cap: Cap, qty: int, k: nat, n: nat)
    requires IsFirst(side, log, k) && n < |log|
    requires Share(side, log, cap, qty, k) == log[k].qty
    ensures n <= k ==> Remains(side, log, cap, qty, n) == Remains(side, DropAt(log, k), cap, qty - log[k].qty, n)
    ensures n >= k ==> Remains(side, log, cap, qty, n + 1) == Remains(side, DropAt(log, k), cap, qty - log[k].qty, n)
  {
    var cut := DropAt(log, k);
    if n > 0 {
      RemainsWithoutFirst(side, log, cap, qty, k, n - 1);
      ShareWithoutFirst(side, log, cap, qty, k, n - 1);
      assert cut[n - 1] == log[Shift(k, n - 1)];
    }
  }

  lemma {:induction false} RemainsPartial(side: Side, log: Log, cap: Cap, qty: int, k: nat, n: nat)
    requires k < |log| && n <= |log| && Positive(log)
    requires Share(side, log, cap, qty, k) == qty < log[k].qty
    requires forall i | 0 <= i < n && i != k :: Share(side, log, cap, qty, i) == 0
    ensures Remains(side, log, cap, qty, n) == Shrunk(log, k, qty)[..n]
  {
    if n > 0 {
      RemainsPartial(side, log, cap, qty, k, n - 1);
      var cut := Shrunk(log, k, qty);
      assert log[n - 1].(qty := log[n - 1].qty) == log[n - 1];
      assert cut[..n] == cut[..n - 1] + [cut[n - 1]];
    }
  }

  lemma PositiveShrunk(log: Log, k: nat, qty: int)
    requires k < |log| && Positive(log)
    ensures Positive(Shrunk(log, k, qty))
  {
    var cut := Shrunk(log, k, qty);
    assert qty >= log[k].qty ==> forall i | 0 <= i < |cut| :: cut[i] == log[Shift(k, i)];
  }

  lemma PartialClosedForm(side: Side, log: Log, cap: Cap, qty: int, k: nat)
    requires Positive(log) && IsFirst(side, log, k) && Crosses(side, log[k].px, cap) && 0 < qty < log[k].qty
    ensures Remains(side, log, cap, qty, |log|) == Shrunk(log, k, qty)
  {
    ShareOfFirst(side, log, cap, qty, k);
    forall i | 0 <= i < |log| && i != k ensures Share(side, log, cap, qty, i) == 0 {
      ShareBehind(side, log, cap, qty, k, i);
    }
    RemainsPartial(side, log, cap, qty, k, |log|);
  }

  lemma NothingTraded(side: Side, log: Log, cap: Cap, qty: int)
    requires Positive(log) && !CanTrade(side, log, cap, qty)
    ensures Remains(side, log, cap, qty, |log|) == log
  {
    forall i | 0 <= i < |log| ensures Share(side, log, cap, qty, i) == 0 {
      NoShares(side, log, cap, qty, i);
    }
    RemainsUnchanged(side, log, cap, qty, |log|);
  }

  /** The orders a match leaves are exactly those whose share did not exhaust them, each reduced by its share. */
  lemma {:induction false} SettleClosedForm(side: Side, log: Log, cap: Cap, qty: int)
    requires Positive(log)
    ensures Settle(side, log, cap, qty).log == Remains(side, log, cap, qty, |log|)
    decreases |log|, qty > 0
  {
    if !CanTrade(side, log, cap, qty) {
      NothingTraded(side, log, cap, qty);
    } else {
      var k := First(side, log);
      if qty < log[k].qty {
        PartialClosedForm(side, log, cap, qty, k);
      } else {
        ShareOfFirst(side, log, cap, qty, k);
        PositiveShrunk(log, k, qty);
        SettleClosedForm(side, DropAt(log, k), cap, qty - log[k].qty);
        RemainsWithoutFirst(side, log, cap, qty, k, |log| - 1);
      }
    }
  }

  // ---------- the fills ----------

  /** The fills name, in priority order, exactly the orders with a share, each with its own price and its
      share; who[t] is the position of the maker of fill t. */
  ghost predicate Reports(side: Side, log: Log, cap: Cap, qty: int, fills: seq<Fill>, who: seq<nat>) {
    && |who| == |fills|
    && (forall t | 0 <= t < |who| :: who[t] < |log| && Share(side, log, cap, qty, who[t]) > 0)
    && (forall t | 0 <= t < |who| ::
          fills[t] == Fill(log[who[t]].px, Share(side, log, cap, qty, who[t]), log[who[t]].id))
    && (forall s, t | 0 <= s < t < |who| :: Prior(side, log, who[s], who[t]))
    && (forall i | 0 <= i < |log| && Share(side, log, cap, qty, i) > 0 :: i in who)
  }

  function Shifted(k: nat, later: seq<nat>): (who: seq<nat>)
    ensures |who| == |later| + 1 && who[0] == k
    ensures forall t | 0 < t < |who| :: who[t] == Shift(k, later[t - 1])
  {
    [k] + seq(|later|, t requires 0 <= t < |later| => Shift(k, later[t]))
  }

  lemma ShiftedOrder(side: Side, log: Log, k: nat, later: seq<nat>)
    requires IsFirst(side, log, k)
    requires forall t | 0 <= t < |later| :: later[t] < |log| - 1 && log[Shift(k, later[t])].side == side
    requires forall s, t | 0 <= s < t < |later| :: Prior(side, DropAt(log, k), later[s], later[t])
    ensures var who := Shifted(k, later);
      forall s, t | 0 <= s < t < |who| :: who[s] < |log| && who[t] < |log| && Prior(side, log, who[s], who[t])
  {
    var cut := DropAt(log, k);
    var who := Shifted(k, later);
    forall s, t | 0 <= s < t < |who| ensures who[s] < |log| && who[t] < |log| && Prior(side, log, who[s], who[t]) {
      assert log[who[t]] == cut[later[t - 1]];
      if s > 0 {
        assert log[who[s]] == cut[later[s - 1]];
        assert Prior(side, cut, later[s - 1], later[t - 1]);
      }
    }
  }

  lemma ShiftedCovers(k: nat, later: seq<nat>, i: nat)
    requires i != k ==> (if i < k then i else i - 1) in later
    ensures i in Shifted(k, later)
  {
    var who := Shifted(k, later);
    if i == k {
      assert who[0] == i;
    } else {
      var c: nat := if i < k then i else i - 1;
      var t :| 0 <= t < |later| && later[t] == c;
      assert who[t + 1] == Shift(k, c) == i;
    }
  }

  lemma ReportsAfterFirst(side: Side, log: Log, cap: Cap, qty: int, k: nat, fills: seq<Fill>, later: seq<nat>)
    requires IsFirst(side, log, k) && Positive(log)
    requires Share(side, log, cap, qty, k) == log[k].qty
    requires Reports(side, DropAt(log, k), cap, qty - log[k].qty, fills, later)
    ensures Reports(side, log, cap, qty, [Fill(log[k].px, log[k].qty, log[k].id)] + fills, Shifted(k, later))
  {
    var cut := DropAt(log, k);
    var who := Shifted(k, later);
    var all := [Fill(log[k].px, log[k].qty, log[k].id)] + fills;
    forall t | 0 <= t < |who|
      ensures who[t] < |log| && Share(side, log, cap, qty, who[t]) > 0
      ensures all[t] == Fill(log[who[t]].px, Share(side, log, cap, qty, who[t]), log[who[t]].id)
    {
      if t > 0 {
        assert log[who[t]] == cut[later[t - 1]];
        ShareWithoutFirst(side, log, cap, qty, k, later[t - 1]);
      }
    }
    ShiftedOrder(side, log, k, later);
    forall i | 0 <= i < |log| && Share(side, log, cap, qty, i) > 0 ensures i in who {
      if i != k {
        ShareWithoutFirst(side, log, cap, qty, k, if i < k then i else i - 1);
      }
      ShiftedCovers(k, later, i);
    }
  }

  /** A match reports exactly the orders that have a share, in priority order, each with its share. */
  lemma {:induction false} SettleReports(side: Side, log: Log, cap: Cap, qty: int) returns (who: seq<nat>)
    requires Positive(log)
    ensures Reports(side, log, cap, qty, Settle(side, log, cap, qty).fills, who)
    decreases |log|, qty > 0
  {
    if !CanTrade(side, log, cap, qty) {
      who := [];
      forall i | 0 <= i < |log| ensures Share(side, log, cap, qty, i) == 0 {
        NoShares(side, log, cap, qty, i);
      }
    } else {
      var k := First(side, log);
      ShareOfFirst(side, log, cap, qty, k);
      PositiveShrunk(log, k, qty);
      if qty < log[k].qty {
        who := [k];
        forall i | 0 <= i < |log| && i != k ensures Share(side, log, cap, qty, i) == 0 {
          ShareBehind(side, log, cap, qty, k, i);
        }
        var rest := Settle(side, Shrunk(log, k, qty), cap, 0);
        assert rest.fills == [];
        assert who[0] == k;
      } else {
        var later := SettleReports(side, DropAt(log, k), cap, qty - log[k].qty);
        var rest := Settle(side, DropAt(log, k), cap, qty - log[k].qty);
        ReportsAfterFirst(side, log, cap, qty, k, rest.fills, later);
        who := Shifted(k, later);
      }
    }
  }

  /** The quantity resting on `side` that a taker capped at `cap` may trade with. */
  function Liquidity(side: Side, log: Log, cap: Cap): int {
    if log == [] then 0 else
      (if log[0].side == side && Crosses(side, log[0].px, cap) then log[0].qty else 0) + Liquidity(side, log[1..], cap)
  }

  lemma {:induction false} LiquidityShrunk(side: Side, log: Log, cap: Cap, k: nat, qty: int)
    requires k < |log| && log[k].side == side && Crosses(side, log[k].px, cap)
    ensures Liquidity(side, Shrunk(log, k, qty), cap) == Liquidity(side, log, cap) - Min(qty, log[k].qty)
  {
    var cut := Shrunk(log, k, qty);
    if k == 0 {
      assert qty >= log[0].qty ==> cut == log[1..];
      assert qty < log[0].qty ==> cut[1..] == log[1..];
    } else {
      LiquidityShrunk(side, log[1..], cap, k - 1, qty);
      assert cut[0] == log[0] && cut[1..] == Shrunk(log[1..], k - 1, qty);
    }
  }

  lemma {:induction false} NoLiquidity(side: Side, log: Log, cap: Cap)
    requires forall i | 0 <= i < |log| && log[i].side == side :: !Crosses(side, log[i].px, cap)
    ensures Liquidity(side, log, cap) == 0
  {
    if log != [] {
      NoLiquidity(side, log[1..], cap);
    }
  }

  lemma {:induction false} LiquidityNonNegative(side: Side, log: Log, cap: Cap)
    requires Positive(log)
    ensures Liquidity(side, log, cap) >= 0
  {
    if log != [] {
      LiquidityNonNegative(side, log[1..], cap);
    }
  }

  /** A taker trades the lesser of what it wants and what crosses, and keeps the rest. */
  lemma {:induction false} SettleVolume(side: Side, log: Log, cap: Cap, qty: int)
    requires Positive(log)
    ensures var d := Settle(side, log, cap, qty);
      && Volume(d.fills) == Clamp(qty, Liquidity(side, log, cap))
      && d.left == qty - Volume(d.fills)
    decreases |log|, qty > 0
  {
    LiquidityNonNegative(side, log, cap);
    if CanTrade(side, log, cap, qty) {
      var k := First(side, log);
      PositiveShrunk(log, k, qty);
      LiquidityShrunk(side, log, cap, k, qty);
      SettleVolume(side, Shrunk(log, k, qty), cap, qty - Min(qty, log[k].qty));
      LiquidityNonNegative(side, Shrunk(log, k, qty), cap);
      var d := Settle(side, log, cap, qty);
      var rest := Settle(side, Shrunk(log, k, qty), cap, qty - Min(qty, log[k].qty));
      assert d.fills[1..] == rest.fills;
    } else if qty > 0 {
      forall i | 0 <= i < |log| && log[i].side == side ensures !Crosses(side, log[i].px, cap) {
        assert i == First(side, log) || Prior(side, log, First(side, log), i);
      }
      NoLiquidity(side, log, cap);
    }
  }

  lemma {:induction false} AheadGrows(side: Side, log: Log, i: nat, j: nat, n: nat)
    requires i < |log| && j < |log| && n <= |log| && Positive(log)
    requires log[i].side == side && log[j].side == side && Prior(side, log, i, j) && i != j
    ensures AheadIn(side, log, j, n) >= AheadIn(side, log, i, n) + (if i < n then log[i].qty else 0)
  {
    if n > 0 {
      AheadGrows(side, log, i, j, n - 1);
      var k := n - 1;
      if log[k].side == side && k != i && Prior(side, log, k, i) {
        assert Prior(side, log, k, j) && k != j;
      }
    }
  }

  /** Every maker but the last is filled completely: behind a crossing order with something left, no order trades. */
  lemma PartialIsLast(side: Side, log: Log, cap: Cap, qty: int, i: nat, j: nat)
    requires i < |log| && j < |log| && Positive(log)
    requires log[i].side == side && log[j].side == side && Crosses(side, log[i].px, cap)
    requires Prior(side, log, i, j) && i != j && Share(side, log, cap, qty, i) < log[i].qty
    ensures Share(side, log, cap, qty, j) == 0
  {
    AheadGrows(side, log, i, j, |log|);
  }
}
