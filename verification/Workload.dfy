/**
 The ids the load bots use, and what they make of the runs the engines see. A bot draws a block of ids at random and counts
 up from its start, one id for each order, cancels included; nothing keeps two bots from drawing blocks that overlap.
*/
module Workload {
  import opened Market
  import opened BookLaws
  import opened Directory
  import opened Identity
  import M = Merging
  import opened Probe
  import opened Reference
  import opened Refinement

  const BLOCK := 1000

  const DRAWS := 10_000_000  // blocks are drawn from 1 to this

  /** The block a bot has drawn, and how many ids it has used at most. */
  datatype Block = Block(draw: nat, used: nat)

  predicate InBlock(b: Block, id: Id) {
    BLOCK * b.draw < id <= BLOCK * b.draw + b.used
  }

  ghost predicate Apart(a: Block, b: Block) {
    forall id :: !(InBlock(a, id) && InBlock(b, id))
  }

  /** Blocks are apart just when one is unused or the bot with the lower one has not reached the other. */
  lemma ApartMeans(a: Block, b: Block)
    ensures Apart(a, b) <==>
      a.used == 0 || b.used == 0 || 1000 * a.draw + a.used <= 1000 * b.draw || 1000 * b.draw + b.used <= 1000 * a.draw
  {
    var first := BLOCK * (if a.draw <= b.draw then b.draw else a.draw) + 1;
    if InBlock(a, first) && InBlock(b, first) {
      assert !Apart(a, b);
    }
  }

  ghost predicate AllApart(blocks: seq<Block>) {
    forall i, j | 0 <= i < j < |blocks| :: Apart(blocks[i], blocks[j])
  }

  // ---------- the probe's ids ----------

  predicate ProbeApart(b: Block, rounds: nat) {
    forall it | 1 <= it <= rounds :: !InBlock(b, MakerA(it)) && !InBlock(b, MakerB(it)) && !InBlock(b, Taker(it))
  }

  /** A bot never meets the probe's ids just as long as it has not counted up to the first of them. */
  lemma ProbeIsApart(b: Block, rounds: nat)
    requires 1 <= b.draw <= DRAWS && rounds >= 1
    ensures ProbeApart(b, rounds) <==> 1000 * b.draw + b.used < 1_000_000_000_000_011
  {
    assert MakerA(1) == SCEN_ID_BASE + 11;
  }

  // ---------- what the engines see ----------

  /** The id of the k-th order, sent by the bot that is picked. */
  function IdAt(blocks: seq<Block>, picks: seq<nat>, k: nat): Id
    requires k < |picks| && picks[k] < |blocks|
  {
    BLOCK * blocks[picks[k]].draw + M.Taken(picks[..k + 1], picks[k])
  }

  predicate Carries(op: Op, id: Id) {
    !op.Cancel? ==> op.id == id
  }

  /** The bots of these blocks may send these operations in this order. */
  predicate Sends(blocks: seq<Block>, picks: seq<nat>, ops: seq<Op>) {
    && |ops| == |picks|
    && forall k | 0 <= k < |picks| :: SendsAt(blocks, picks, ops, k)
  }

  predicate SendsAt(blocks: seq<Block>, picks: seq<nat>, ops: seq<Op>, k: nat)
    requires k < |picks| == |ops|
  {
    && picks[k] < |blocks| && M.Taken(picks[..k + 1], picks[k]) <= blocks[picks[k]].used
    && Carries(ops[k], IdAt(blocks, picks, k))
  }

  // ---------- blocks that are apart ----------

  /** No two limit orders share an id. */
  predicate UniqueIds(ops: seq<Op>) {
    forall j, k | 0 <= j < k < |ops| && ops[j].Limit? && ops[k].Limit? :: ops[j].id != ops[k].id
  }

  lemma StepIndexes(e: Engine, b: Book, op: Op)
    ensures Step(e, b, op).index.Keys <= b.index.Keys + if op.Limit? then {op.id} else {}
  {
  }

  lemma {:induction false} IndexedWereSent(e: Engine, ops: seq<Op>, id: Id)
    requires id in Run(e, ops).index
    ensures exists j :: 0 <= j < |ops| && ops[j].Limit? && ops[j].id == id
  {
    if ops != [] {
      var n := |ops| - 1;
      StepIndexes(e, Run(e, ops[..n]), ops[n]);
      if id in Run(e, ops[..n]).index {
        IndexedWereSent(e, ops[..n], id);
        var j :| 0 <= j < n && ops[..n][j].Limit? && ops[..n][j].id == id;
        assert ops[j].Limit? && ops[j].id == id;
      } else {
        assert ops[n].Limit? && ops[n].id == id;
      }
    }
  }

  /** Orders with ids of their own are fresh in every engine. */
  lemma UniqueIsFresh(e: Engine, ops: seq<Op>)
    requires UniqueIds(ops)
    ensures FreshRun(e, ops)
  {
    forall k | 0 <= k < |ops| ensures FreshAt(e, ops, k) {
      if ops[k].Limit? && ops[k].id in Run(e, ops[..k]).index {
        IndexedWereSent(e, ops[..k], ops[k].id);
      }
    }
  }

  lemma {:induction false} TakenGrows(picks: seq<nat>, w: nat, j: nat, k: nat)
    requires j < k < |picks| && picks[k] == w
    ensures M.Taken(picks[..j + 1], w) < M.Taken(picks[..k + 1], w)
  {
    assert picks[..k + 1][..k] == picks[..k];
    if j + 1 < k {
      TakenRises(picks, w, j + 1, k);
    }
  }

  lemma {:induction false} TakenRises(picks: seq<nat>, w: nat, j: nat, k: nat)
    requires j <= k <= |picks|
    ensures M.Taken(picks[..j], w) <= M.Taken(picks[..k], w)
  {
    if j < k {
      TakenRises(picks, w, j, k - 1);
      assert picks[..k][..k - 1] == picks[..k - 1];
    }
  }

  lemma {:induction false} TakenOwn(picks: seq<nat>, k: nat)
    requires k < |picks|
    ensures M.Taken(picks[..k + 1], picks[k]) >= 1
  {
    assert picks[..k + 1][..k] == picks[..k];
  }

  lemma IdsDiffer(blocks: seq<Block>, picks: seq<nat>, ops: seq<Op>, j: nat, k: nat)
    requires AllApart(blocks) && Sends(blocks, picks, ops) && j < k < |picks|
    ensures picks[j] < |blocks| && picks[k] < |blocks| && IdAt(blocks, picks, j) != IdAt(blocks, picks, k)
  {
    assert SendsAt(blocks, picks, ops, j) && SendsAt(blocks, picks, ops, k);
    var v, w := picks[j], picks[k];
    if v == w {
      TakenGrows(picks, w, j, k);
    } else {
      TakenOwn(picks, j);
      TakenOwn(picks, k);
      assert InBlock(blocks[v], IdAt(blocks, picks, j)) && InBlock(blocks[w], IdAt(blocks, picks, k));
      assert Apart(blocks[if v < w then v else w], blocks[if v < w then w else v]);
    }
  }

  /** If the blocks are apart, then whatever the bots send and however it interleaves, all engines hold the same books and
      report the fills of the reference book, and their indexes are exact. */
  lemma ApartIsFresh(e: Engine, blocks: seq<Block>, picks: seq<nat>, ops: seq<Op>)
    requires AllApart(blocks) && Sends(blocks, picks, ops)
    ensures UniqueIds(ops) && AgreedRun(ops) && Tape(e, ops) == TapeOf(ops) && Exact(Run(e, ops))
  {
    forall j, k | 0 <= j < k < |ops| && ops[j].Limit? && ops[k].Limit? ensures ops[j].id != ops[k].id {
      IdsDiffer(blocks, picks, ops, j, k);
      assert SendsAt(blocks, picks, ops, j) && SendsAt(blocks, picks, ops, k);
    }
    UniqueIsFresh(Go, ops);
    UniqueIsFresh(e, ops);
    FreshRunExact(e, ops);
    FreshRunAdmitted(ops);
    EnginesRefineReference(e, ops);
    GoRunRefines(ops);
    RunsAgree(ops);
  }

  // ---------- blocks that overlap ----------

  /** A bid under the shared id; all other ids go to market orders that meet no ask. */
  function Clash(id: Id, shared: Id): Op {
    if id == shared then Limit(id, true, 100, 5) else Op.Market(id, true, 1)
  }

  function Clashes(ids: seq<Id>, shared: Id): (ops: seq<Op>)
    ensures |ops| == |ids|
  {
    seq(|ids|, k requires 0 <= k < |ids| => Clash(ids[k], shared))
  }

  lemma {:induction false} ClashRests(ids: seq<Id>, shared: Id)
    ensures var b := Run(Go, Clashes(ids, shared));
      b.asks == map[] && (shared in ids ==> shared in Ids(At(b.bids, 100)))
  {
    if ids != [] {
      var n := |ids| - 1;
      var before := Clashes(ids[..n], shared);
      ClashRests(ids[..n], shared);
      assert Clashes(ids, shared)[..n] == before;
      var b := Run(Go, before);
      if ids[n] == shared {
        BidRests(Go, b, shared, 100, 5);
        EnqueueHolds(At(b.bids, 100), shared);
      } else {
        MatchStops(Ask, b.asks, NoCap, 1, [], {});
      }
    }
  }

  lemma EnqueueHolds(level: Level, id: Id)
    ensures id in Ids(Enqueue(Go, level, id, 5))
  {
    var grown := level + [Order(id, 5)];
    assert grown[|level|] == Order(id, 5);
  }

  lemma ClashDisagrees(ids: seq<Id>, shared: Id)
    requires shared in ids
    ensures !AgreedRun(Clashes(ids + [shared], shared))
  {
    var ops := Clashes(ids + [shared], shared);
    ClashRests(ids, shared);
    assert ops[..|ids|] == Clashes(ids, shared);
    BidRests(Go, Run(Go, Clashes(ids, shared)), shared, 100, 5);
    assert !LevelFreshAt(ops, |ids|);
    RunsAgree(ops);
  }

  function Copies(n: nat, w: nat): (picks: seq<nat>)
    ensures |picks| == n
  {
    seq(n, _ => w)
  }

  /** The picks of two bots that send one after the other. */
  function InTurn(v: nat, m: nat, w: nat, n: nat): seq<nat> {
    Copies(m, v) + Copies(n, w)
  }

  lemma {:induction false} TakenInTurn(v: nat, m: nat, w: nat, n: nat, k: nat)
    requires v != w && k <= m + n
    ensures M.Taken(InTurn(v, m, w, n)[..k], v) == if k <= m then k else m
    ensures M.Taken(InTurn(v, m, w, n)[..k], w) == if k <= m then 0 else k - m
  {
    if k > 0 {
      TakenInTurn(v, m, w, n, k - 1);
      assert InTurn(v, m, w, n)[..k][..k - 1] == InTurn(v, m, w, n)[..k - 1];
    }
  }

  /** The ids two bots use in turn, up to the one they share. */
  lemma TurnIds(blocks: seq<Block>, v: nat, m: nat, w: nat, n: nat, k: nat)
    requires v < |blocks| && w < |blocks| && v != w && k < m + n
    ensures var picks := InTurn(v, m, w, n);
      && IdAt(blocks, picks, k) ==
        (if k < m then BLOCK * blocks[v].draw + k + 1 else BLOCK * blocks[w].draw + k + 1 - m)
      && M.Taken(picks[..k + 1], picks[k]) == if k < m then k + 1 else k + 1 - m
  {
    TakenInTurn(v, m, w, n, k + 1);
  }

  function TurnIdsOf(blocks: seq<Block>, picks: seq<nat>): (ids: seq<Id>)
    requires forall k | 0 <= k < |picks| :: picks[k] < |blocks|
    ensures |ids| == |picks|
  {
    seq(|picks|, k requires 0 <= k < |picks| => IdAt(blocks, picks, k))
  }

  /** Two bots whose blocks share an id send up to that id, one after the other. */
  lemma OverlapDisagrees(blocks: seq<Block>, v: nat, w: nat, shared: Id) returns (picks: seq<nat>, ops: seq<Op>)
    requires v < |blocks| && w < |blocks| && v != w && InBlock(blocks[v], shared) && InBlock(blocks[w], shared)
    ensures Sends(blocks, picks, ops) && !AgreedRun(ops)
  {
    var m, n := shared - BLOCK * blocks[v].draw, shared - BLOCK * blocks[w].draw;
    picks := InTurn(v, m, w, n);
    var ids := TurnIdsOf(blocks, picks);
    ops := Clashes(ids, shared);
    forall k | 0 <= k < m + n ensures SendsAt(blocks, picks, ops, k) {
      TurnIds(blocks, v, m, w, n, k);
    }
    TurnIds(blocks, v, m, w, n, m - 1);
    TurnIds(blocks, v, m, w, n, m + n - 1);
    SharedTwice(ids, m - 1, shared);
  }

  lemma SharedTwice(ids: seq<Id>, i: nat, shared: Id)
    requires i < |ids| - 1 && ids[i] == shared && ids[|ids| - 1] == shared
    ensures !AgreedRun(Clashes(ids, shared))
  {
    var early := ids[..|ids| - 1];
    assert early[i] == shared && ids == early + [shared];
    ClashDisagrees(early, shared);
  }

  ghost predicate AlwaysAgree(blocks: seq<Block>) {
    forall picks, ops | Sends(blocks, picks, ops) :: AgreedRun(ops)
  }

  /** The engines hold the same books throughout whatever the bots send, if and only if the bots' blocks are apart. */
  lemma BlocksDecide(blocks: seq<Block>)
    ensures AlwaysAgree(blocks) <==> AllApart(blocks)
  {
    if AllApart(blocks) {
      forall picks, ops | Sends(blocks, picks, ops) ensures AgreedRun(ops) {
        ApartIsFresh(Go, blocks, picks, ops);
      }
    } else {
      var v, w :| 0 <= v < w < |blocks| && !Apart(blocks[v], blocks[w]);
      var id :| InBlock(blocks[v], id) && InBlock(blocks[w], id);
      var picks, ops := OverlapDisagrees(blocks, v, w, id);
    }
  }
}
