/**
 The binary wire protocol: little-endian frames of fixed layout between the fleet's encoder and the engines'
 decoders, and back for acknowledgements and fills.
*/
module Wire {
  import opened BookLaws
  import opened Ledger
  import opened Market
  import opened Options

  type Byte = b: int | 0 <= b < 256

  type Bytes = seq<Byte>

  // ---------- integers ----------

  function Range(n: nat): (r: int)
    ensures r > 0
  {
    if n == 0 then 1 else 256 * Range(n - 1)
  }

  predicate IsU64(v: int) {
    0 <= v < 0x1_0000_0000_0000_0000
  }

  predicate IsI32(v: int) {
    -0x8000_0000 <= v < 0x8000_0000
  }

  /** The n low bytes of v, lowest first. */
  function Put(n: nat, v: int): (s: Bytes)
    ensures |s| == n
  {
    if n == 0 then [] else [v % 256] + Put(n - 1, v / 256)
  }

  function Get(s: Bytes): (v: int)
    ensures 0 <= v < Range(|s|)
  {
    if s == [] then 0 else s[0] + 256 * Get(s[1..])
  }

  lemma Multiple(m: int, d: int)
    requires m > 0
    ensures d >= 1 ==> m * d >= m
    ensures d <= -1 ==> m * d <= -m
  {
  }

  lemma RemainderIs(x: int, m: int, k: int, c: int)
    requires 0 <= c < m && x == m * k + c
    ensures x % m == c
  {
    var d := k - x / m;
    assert m * d == m * k - m * (x / m) == x % m - c;
    Multiple(m, d);
  }

  lemma SplitRemainder(v: int, r: int)
    requires r > 0
    ensures v % (256 * r) == v % 256 + 256 * (v / 256 % r)
  {
    var q := v / 256;
    var k, b := q / r, q % r;
    assert q == r * k + b;
    assert 256 * q == 256 * r * k + 256 * b;
    RemainderIs(v, 256 * r, k, v % 256 + 256 * b);
  }

  /** Reading back n bytes yields the value modulo their range. */
  lemma {:induction false} GetPut(n: nat, v: int)
    ensures Get(Put(n, v)) == v % Range(n)
  {
    if n > 0 {
      GetPut(n - 1, v / 256);
      assert Put(n, v)[1..] == Put(n - 1, v / 256);
      SplitRemainder(v, Range(n - 1));
    }
  }

  lemma {:induction false} PutGet(s: Bytes)
    ensures Put(|s|, Get(s)) == s
  {
    if s != [] {
      var rest := s[1..];
      PutGet(rest);
      var v := Get(s);
      assert v == s[0] + 256 * Get(rest);
      assert v % 256 == s[0] && v / 256 == Get(rest);
      assert Put(|s|, v) == [s[0]] + Put(|rest|, Get(rest));
      assert s == [s[0]] + rest;
    }
  }

  /** A signed 32-bit number from its four bytes. */
  function GetI32(s: Bytes): (v: int)
    requires |s| == 4
    ensures IsI32(v)
  {
    Widths();
    var u := Get(s);
    if u >= 0x8000_0000 then u - 0x1_0000_0000 else u
  }

  lemma Widths()
    ensures Range(4) == 0x1_0000_0000
    ensures Range(8) == 0x1_0000_0000_0000_0000
  {
    assert Range(2) == 0x1_0000;
    assert Range(4) == 0x1_0000_0000;
    assert Range(6) == 0x1_0000_0000_0000;
  }

  /** Four bytes bring back exactly the numbers of 32 bits; a cast loses the others. */
  lemma I32RoundTrip(v: int)
    ensures GetI32(Put(4, v)) == v <==> IsI32(v)
  {
    GetPut(4, v);
    Widths();
  }

  lemma U64RoundTrip(v: int)
    ensures Get(Put(8, v)) == v <==> IsU64(v)
  {
    GetPut(8, v);
    Widths();
  }

  lemma I32Bytes(s: Bytes)
    requires |s| == 4
    ensures Put(4, GetI32(s)) == s
  {
    Widths();
    PutGet(s);
    SamePut(4, GetI32(s), Get(s));
  }

  /** Numbers that agree modulo the range have the same bytes. */
  lemma {:induction false} SamePut(n: nat, v: int, w: int)
    requires v % Range(n) == w % Range(n)
    ensures Put(n, v) == Put(n, w)
  {
    GetPut(n, v);
    GetPut(n, w);
    PutGet(Put(n, v));
    PutGet(Put(n, w));
  }

  // ---------- requests ----------

  datatype Frame = Frame(kind: Byte, side: Byte, id: int, px: int, qty: int, target: int)

  predicate Packable(f: Frame) {
    IsU64(f.id) && IsI32(f.px) && IsI32(f.qty) && IsU64(f.target)
  }

  /** The 26 bytes of a request; packing fails when a number does not fit its field. */
  function Pack(f: Frame): Option<Bytes> {
    if Packable(f)
    then Some([f.kind, f.side] + Put(8, f.id) + Put(4, f.px) + Put(4, f.qty) + Put(8, f.target))
    else None
  }

  /** The engines' reading of a request. */
  function Unpack(data: Bytes): Option<Frame> {
    if |data| < 26 then None else
    Some(Frame(data[0], data[1], Get(data[2..10]), GetI32(data[10..14]), GetI32(data[14..18]), Get(data[18..26])))
  }

  lemma Field(before: Bytes, field: Bytes, after: Bytes)
    ensures (before + field + after)[|before|..|before| + |field|] == field
  {
  }

  lemma Join(data: Bytes, i: nat, j: nat)
    requires i <= j <= |data|
    ensures data[..i] + data[i..j] == data[..j]
  {
  }

  lemma Layout(head: Bytes, id: Bytes, px: Bytes, qty: Bytes, target: Bytes)
    requires |head| == 2 && |id| == 8 && |px| == 4 && |qty| == 4 && |target| == 8
    ensures var data := head + id + px + qty + target;
      && |data| == 26 && data[0] == head[0] && data[1] == head[1]
      && data[2..10] == id && data[10..14] == px && data[14..18] == qty && data[18..26] == target
  {
    var data := head + id + px + qty + target;
    Field(head, id, px + qty + target);
    Field(head + id, px, qty + target);
    Field(head + id + px, qty, target);
    Field(head + id + px + qty, target, []);
    assert data == head + id + (px + qty + target) == (head + id) + px + (qty + target);
    assert data == head + id + px + qty + target + [];
  }

  /** Every frame that can be packed is read back. */
  lemma UnpackPack(f: Frame)
    requires Packable(f)
    ensures Pack(f).Some? && |Pack(f).value| == 26 && Unpack(Pack(f).value) == Some(f)
  {
    Layout([f.kind, f.side], Put(8, f.id), Put(4, f.px), Put(4, f.qty), Put(8, f.target));
    U64RoundTrip(f.id);
    I32RoundTrip(f.px);
    I32RoundTrip(f.qty);
    U64RoundTrip(f.target);
  }

  /** Every frame of the right length is what packing its fields gives. */
  lemma PackUnpack(data: Bytes)
    requires |data| == 26
    ensures Unpack(data).Some? && Pack(Unpack(data).value) == Some(data)
  {
    Widths();
    PutGet(data[2..10]);
    I32Bytes(data[10..14]);
    I32Bytes(data[14..18]);
    PutGet(data[18..26]);
    assert [data[0], data[1]] == data[..2];
    Join(data, 2, 10);
    Join(data, 10, 14);
    Join(data, 14, 18);
    Join(data, 18, 26);
    assert data[..26] == data;
  }

  const LIMIT: Byte := 1

  const MARKET: Byte := 2

  const CANCEL: Byte := 3

  function SideByte(buy: bool): Byte {
    if buy then 0 else 1
  }

  /** The fleet's encoding of an operation; a cancel is acknowledged under an id of its own. */
  function Encode(op: Op, id: int): Option<Bytes> {
    match op
    case Limit(oid, buy, px, qty) => Pack(Frame(LIMIT, SideByte(buy), oid, px, qty, 0))
    case Market(oid, buy, qty) => Pack(Frame(MARKET, SideByte(buy), oid, 0, qty, 0))
    case Cancel(target) => Pack(Frame(CANCEL, 0, id, 0, 0, target))
  }

  /** The operation an engine makes of a frame, and the id it acknowledges. */
  function Decode(data: Bytes): Option<(Op, int)> {
    match Unpack(data)
    case None => None
    case Some(f) =>
      if f.kind == LIMIT then Some((Limit(f.id, f.side == 0, f.px, f.qty), f.id))
      else if f.kind == MARKET then Some((Market(f.id, f.side == 0, f.qty), f.id))
      else if f.kind == CANCEL then Some((Cancel(f.target), f.id))
      else None
  }

  function AckedId(op: Op, id: int): int {
    if op.Cancel? then id else op.id
  }

  /** The operation's numbers fit the wire. */
  predicate Legal(op: Op) {
    match op
    case Limit(oid, buy, px, qty) => IsU64(oid) && IsI32(px) && IsI32(qty)
    case Market(oid, buy, qty) => IsU64(oid) && IsI32(qty)
    case Cancel(target) => IsU64(target)
  }

  /** The encoder succeeds exactly on operations that fit the wire, and then the engines do the same operation. */
  lemma RequestRoundTrip(op: Op, id: int)
    requires IsU64(id)
    ensures Encode(op, id).Some? <==> Legal(op)
    ensures Encode(op, id).Some? ==> Decode(Encode(op, id).value) == Some((op, AckedId(op, id)))
  {
    match op
    case Limit(oid, buy, px, qty) =>
      if Legal(op) { UnpackPack(Frame(LIMIT, SideByte(buy), oid, px, qty, 0)); }
    case Market(oid, buy, qty) =>
      if Legal(op) { UnpackPack(Frame(MARKET, SideByte(buy), oid, 0, qty, 0)); }
    case Cancel(target) =>
      if Legal(op) { UnpackPack(Frame(CANCEL, 0, id, 0, 0, target)); }
  }

  // ---------- the layout, byte by byte ----------

  function Four(a: int, b: int, c: int, d: int): int {
    a + 0x100 * b + 0x1_0000 * c + 0x100_0000 * d
  }

  /** Eight bytes from i on, lowest first. */
  function U64At(data: Bytes, i: nat): int
    requires i + 8 <= |data|
  {
    Four(data[i], data[i + 1], data[i + 2], data[i + 3])
    + 0x1_0000_0000 * Four(data[i + 4], data[i + 5], data[i + 6], data[i + 7])
  }

  /** Four bytes from i on, lowest first, in two's complement. */
  function I32At(data: Bytes, i: nat): int
    requires i + 4 <= |data|
  {
    var u := Four(data[i], data[i + 1], data[i + 2], data[i + 3]);
    if u < 0x8000_0000 then u else u - 0x1_0000_0000
  }

  lemma GetAfterFour(s: Bytes)
    requires |s| >= 4
    ensures Get(s) == Four(s[0], s[1], s[2], s[3]) + 0x1_0000_0000 * Get(s[4..])
  {
    assert s[1..][1..] == s[2..] && s[2..][1..] == s[3..] && s[3..][1..] == s[4..];
    assert Get(s[3..]) == s[3] + 256 * Get(s[4..]);
    assert Get(s[2..]) == s[2] + 256 * Get(s[3..]);
    assert Get(s[1..]) == s[1] + 256 * Get(s[2..]);
  }

  lemma U64IsGet(data: Bytes, i: nat)
    requires i + 8 <= |data|
    ensures U64At(data, i) == Get(data[i..i + 8])
  {
    var s := data[i..i + 8];
    GetAfterFour(s);
    GetAfterFour(s[4..]);
    assert s[4..][4..] == [];
  }

  lemma I32IsGet(data: Bytes, i: nat)
    requires i + 4 <= |data|
    ensures I32At(data, i) == GetI32(data[i..i + 4])
  {
    GetAfterFour(data[i..i + 4]);
    assert data[i..i + 4][4..] == [];
  }

  /** A packed frame has the fields at their places. */
  lemma FrameLayout(f: Frame)
    requires Packable(f)
    ensures Pack(f).Some? && |Pack(f).value| == 26
    ensures var data := Pack(f).value;
      && data[0] == f.kind && data[1] == f.side && U64At(data, 2) == f.id && I32At(data, 10) == f.px
      && I32At(data, 14) == f.qty && U64At(data, 18) == f.target
  {
    UnpackPack(f);
    var data := Pack(f).value;
    U64IsGet(data, 2);
    I32IsGet(data, 10);
    I32IsGet(data, 14);
    U64IsGet(data, 18);
  }

  /** A request begins with 1 for a limit order, 2 for a market order and 3 for a cancel, and then 0 to buy and 1 to sell; its
      numbers follow, and those it does not need are zero. */
  lemma RequestLayout(op: Op, id: int)
    requires IsU64(id) && Legal(op)
    ensures Encode(op, id).Some? && |Encode(op, id).value| == 26
    ensures var data := Encode(op, id).value;
      match op
      case Limit(oid, buy, px, qty) =>
        && data[0] == 1 && data[1] == (if buy then 0 else 1) && U64At(data, 2) == oid
        && I32At(data, 10) == px && I32At(data, 14) == qty && U64At(data, 18) == 0
      case Market(oid, buy, qty) =>
        && data[0] == 2 && data[1] == (if buy then 0 else 1) && U64At(data, 2) == oid
        && I32At(data, 10) == 0 && I32At(data, 14) == qty && U64At(data, 18) == 0
      case Cancel(target) =>
        && data[0] == 3 && data[1] == 0 && U64At(data, 2) == id
        && I32At(data, 10) == 0 && I32At(data, 14) == 0 && U64At(data, 18) == target
  {
    match op
    case Limit(oid, buy, px, qty) => FrameLayout(Frame(LIMIT, SideByte(buy), oid, px, qty, 0));
    case Market(oid, buy, qty) => FrameLayout(Frame(MARKET, SideByte(buy), oid, 0, qty, 0));
    case Cancel(target) => FrameLayout(Frame(CANCEL, 0, id, 0, 0, target));
  }

  /** An acknowledgement is 1, the id and the clock; a fill is 2, the taker's id, price, quantity and the maker's id. */
  lemma ReplyLayout(id: int, ts: int, f: Fill)
    requires IsU64(id) && IsU64(ts) && Fits(f)
    ensures |EncodeAck(id, ts)| == 17 && |EncodeFill(id, f)| == 25
    ensures var ack, fill := EncodeAck(id, ts), EncodeFill(id, f);
      && ack[0] == 1 && U64At(ack, 1) == id && U64At(ack, 9) == ts
      && fill[0] == 2 && U64At(fill, 1) == id && I32At(fill, 9) == f.px && I32At(fill, 13) == f.qty
      && U64At(fill, 17) == f.maker
  {
    AckRoundTrip(id, ts);
    FillRoundTrip(id, f);
    var ack, fill := EncodeAck(id, ts), EncodeFill(id, f);
    U64IsGet(ack, 1);
    U64IsGet(ack, 9);
    U64IsGet(fill, 1);
    I32IsGet(fill, 9);
    I32IsGet(fill, 13);
    U64IsGet(fill, 17);
  }

  // ---------- replies ----------

  /** An acknowledgement carries an id and a clock reading. */
  function EncodeAck(id: int, ts: int): Bytes {
    [1] + Put(8, id) + Put(8, ts)
  }

  function DecodeAck(data: Bytes): (int, int)
    requires |data| == 17
  {
    (Get(data[1..9]), Get(data[9..17]))
  }

  lemma AckRoundTrip(id: int, ts: int)
    ensures |EncodeAck(id, ts)| == 17 && EncodeAck(id, ts)[0] == 1
    ensures DecodeAck(EncodeAck(id, ts)) == (id, ts) <==> IsU64(id) && IsU64(ts)
  {
    var data := EncodeAck(id, ts);
    assert data[1..9] == Put(8, id) && data[9..17] == Put(8, ts);
    U64RoundTrip(id);
    U64RoundTrip(ts);
  }

  /** A fill as the engines send it: price and quantity are cast to 32 bits. */
  function EncodeFill(id: int, f: Fill): Bytes {
    [2] + Put(8, id) + Put(4, f.px) + Put(4, f.qty) + Put(8, f.maker)
  }

  function DecodeFill(data: Bytes): (int, Fill)
    requires |data| == 25
  {
    (Get(data[1..9]), Fill(GetI32(data[9..13]), GetI32(data[13..17]), Get(data[17..25])))
  }

  predicate Fits(f: Fill) {
    IsI32(f.px) && IsI32(f.qty) && IsU64(f.maker)
  }

  /** The casts lose nothing just when the fill fits the wire. */
  lemma FillRoundTrip(id: int, f: Fill)
    ensures |EncodeFill(id, f)| == 25 && EncodeFill(id, f)[0] == 2
    ensures DecodeFill(EncodeFill(id, f)) == (id, f) <==> IsU64(id) && Fits(f)
  {
    var data := EncodeFill(id, f);
    assert data[1..9] == Put(8, id) && data[9..13] == Put(4, f.px);
    assert data[13..17] == Put(4, f.qty) && data[17..25] == Put(8, f.maker);
    U64RoundTrip(id);
    I32RoundTrip(f.px);
    I32RoundTrip(f.qty);
    U64RoundTrip(f.maker);
  }

  // ---------- fills of a run fit the wire ----------

  /** Prices and ids on the book fit the wire. Quantities need not: a level of the Python engine adds up the orders
      of a repeated id. */
  ghost predicate NarrowLevels(levels: Levels) {
    forall p | p in levels :: IsI32(p) && forall id | id in Ids(levels[p]) :: IsU64(id)
  }

  ghost predicate Narrow(b: Book) {
    NarrowLevels(b.bids) && NarrowLevels(b.asks)
  }

  lemma MatchedNarrow(b: Book, buy: bool, cap: Cap, qty: int)
    requires Healthy(b) && Narrow(b)
    ensures Narrow(Matched(b, buy, cap, qty))
  {
    MatchConsumes(Opposite(buy), b.On(Opposite(buy)), cap, qty);
  }

  lemma RestedNarrow(e: Engine, b: Book, id: Id, buy: bool, px: int, qty: int)
    requires Healthy(b) && Narrow(b) && qty > 0 && IsU64(id) && IsI32(px)
    ensures Narrow(Rested(e, b, id, buy, px, qty))
  {
    EnqueueLevel(e, At(b.On(Own(buy)), px), id, qty);
  }

  lemma CancelledNarrow(e: Engine, b: Book, target: Id)
    requires Healthy(b) && Narrow(b)
    ensures Narrow(Cancelled(e, b, target))
  {
    if target in b.index {
      var Spot(side, px) := b.index[target];
      DequeueLevel(e, b.On(side)[px], target);
    }
  }

  lemma StepNarrow(e: Engine, b: Book, op: Op)
    requires Healthy(b) && Narrow(b) && Legal(op)
    ensures Narrow(Step(e, b, op))
  {
    match op
    case Limit(id, buy, px, qty) =>
      MatchedNarrow(b, buy, Cap(px), qty);
      MatchedKeeps(b, buy, Cap(px), qty);
      var left := Taken(b, buy, Cap(px), qty).left;
      if left > 0 {
        RestedNarrow(e, Matched(b, buy, Cap(px), qty), id, buy, px, left);
      }
    case Market(id, buy, qty) => MatchedNarrow(b, buy, NoCap, qty);
    case Cancel(target) => CancelledNarrow(e, b, target);
  }

  predicate AllLegal(ops: seq<Op>) {
    forall i | 0 <= i < |ops| :: Legal(ops[i])
  }

  lemma {:induction false} RunNarrow(e: Engine, ops: seq<Op>)
    requires AllLegal(ops)
    ensures Narrow(Run(e, ops))
  {
    if ops != [] {
      var before := ops[..|ops| - 1];
      RunNarrow(e, before);
      RunHealthy(e, before);
      StepNarrow(e, Run(e, before), ops[|ops| - 1]);
    }
  }

  /** After any run of operations that came over the wire, in any engine and for any ids, every fill of the next
      operation reaches the fleet unchanged. */
  lemma FillsSurviveTheWire(e: Engine, ops: seq<Op>, op: Op, id: int, f: Fill)
    requires AllLegal(ops) && Legal(op) && IsU64(id) && f in Fills(Run(e, ops), op)
    ensures DecodeFill(EncodeFill(id, f)) == (id, f)
  {
    RunNarrow(e, ops);
    RunHealthy(e, ops);
    var b := Run(e, ops);
    FillRoundTrip(id, f);
    match op
    case Limit(oid, buy, px, qty) => FillsAreFair(Opposite(buy), b.On(Opposite(buy)), Cap(px), qty);
    case Market(oid, buy, qty) => FillsAreFair(Opposite(buy), b.On(Opposite(buy)), NoCap, qty);
    case Cancel(target) =>
  }
}
