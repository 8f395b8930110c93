/**
 FIFO lists of shared order elements, with an id index that points into them, as the Go and C++ books keep
 them.

 Elements are heap objects: the lists and the index alias them, and a match decrements the quantity of the
 front element in place. The relations below say which levels and which index of the step machine a set of
 lists stands for.
*/
module Elements {
  import opened Market
  import opened BookLaws
  import opened Options

  /** A list element with its order. The price it was rested at never changes. */
  class Element {
    const id: Id
    var qty: int
    ghost const px: int

    constructor (id: Id, qty: int, ghost px: int)
      ensures this.id == id && this.qty == qty && this.px == px
    {
      this.id, this.qty, this.px := id, qty, px;
    }
  }

  type Lists = map<int, seq<Element>>

  datatype Loc = Loc(side: Side, px: int, el: Element)

  /** The youngest element named id, if there is one. */
  ghost function LastOf(l: seq<Element>, id: Id): Option<Element> {
    if l == [] then None
    else if l[|l| - 1].id == id then Some(l[|l| - 1])
    else LastOf(l[..|l| - 1], id)
  }

  ghost function PutList(lists: Lists, px: int, l: seq<Element>): Lists {
    if l == [] then lists - {px} else lists[px := l]
  }

  /** The quantities of a set of elements; the only thing a proof about lists reads from the heap. */
  type Quantities = map<Element, int>

  ghost function Now(elems: set<Element>): Quantities
    reads elems
  {
    map e | e in elems :: e.qty
  }

  /** The list holds the orders of the level. */
  ghost predicate Mirrors(l: seq<Element>, level: Level, px: int, qtys: Quantities) {
    && |l| == |level|
    && (forall i | 0 <= i < |l| :: l[i] in qtys && l[i].px == px)
    && (forall i | 0 <= i < |l| :: level[i] == Order(l[i].id, qtys[l[i]]))
    && (forall i, j | 0 <= i < j < |l| :: l[i] != l[j])
  }

  ghost predicate MirrorsSide(lists: Lists, levels: Levels, qtys: Quantities) {
    lists.Keys == levels.Keys && forall p | p in lists :: Mirrors(lists[p], levels[p], p, qtys)
  }

  /** Every index entry of this side points at the youngest element of its id in the list it names. */
  ghost predicate Linked(index: map<Id, Loc>, side: Side, lists: Lists) {
    forall id | id in index && index[id].side == side ::
      index[id].px in lists && LastOf(lists[index[id].px], id) == Some(index[id].el)
  }

  ghost function Spots(index: map<Id, Loc>): map<Id, Spot> {
    map id | id in index :: Spot(index[id].side, index[id].px)
  }

  lemma {:induction false} LastOfTail(l: seq<Element>, id: Id)
    requires l != [] && l[0].id != id
    ensures LastOf(l[1..], id) == LastOf(l, id)
  {
    var n := |l| - 1;
    if n > 0 && l[n].id != id {
      LastOfTail(l[..n], id);
      assert l[..n][1..] == l[1..][..n - 1];
    }
  }

  lemma LastOfAppended(l: seq<Element>, el: Element, id: Id)
    ensures LastOf(l + [el], id) == if el.id == id then Some(el) else LastOf(l, id)
  {
    assert (l + [el])[..|l|] == l;
  }

  lemma LinkedAfterPop(index: map<Id, Loc>, side: Side, lists: Lists, px: int)
    requires Linked(index, side, lists)
    requires px in lists && lists[px] != []
    ensures Linked(index - {lists[px][0].id}, side, PutList(lists, px, lists[px][1..]))
  {
    var l := lists[px];
    forall id | id in index && id != l[0].id && index[id].side == side && index[id].px == px
      ensures LastOf(l[1..], id) == Some(index[id].el) && l[1..] != []
    {
      LastOfTail(l, id);
    }
  }

  lemma PutListTwice(lists: Lists, px: int, l: seq<Element>, r: seq<Element>)
    ensures PutList(PutList(lists, px, l), px, r) == PutList(lists, px, r)
  {
  }

  /** What is left of a list when its front element has traded down to qty. */
  function Popped(l: seq<Element>, qty: int): seq<Element>
    requires l != []
  {
    if qty == 0 then l[1..] else l
  }

  /** Reducing the front element of the best list, and unlinking it if it is used up, is one trade. */
  lemma MirrorsServed(lists: Lists, levels: Levels, px: int, qtys: Quantities, want: int)
    requires MirrorsSide(lists, levels, qtys) && GoodLevels(levels)
    requires px in lists && lists[px] != [] && want > 0
    ensures var m := lists[px][0];
      && m in qtys && levels[px] != [] && levels[px][0] == Order(m.id, qtys[m]) && qtys[m] > 0
    ensures var m := lists[px][0];
      var left := qtys[m] - Min(want, qtys[m]);
      MirrorsSide(PutList(lists, px, Popped(lists[px], left)), Put(levels, px, Served(levels[px], want)), qtys[m := left])
  {
    var l, level := lists[px], levels[px];
    assert Mirrors(l, level, px, qtys);
    var m := l[0];
    assert level[0] in level;
    var left := qtys[m] - Min(want, qtys[m]);
    assert Mirrors(Popped(l, left), Served(level, want), px, qtys[m := left]);
    forall p | p in lists && p != px ensures Mirrors(lists[p], levels[p], p, qtys[m := left]) {
      assert Mirrors(lists[p], levels[p], p, qtys);
    }
  }

  /** Trade with the front element: reduce it in place, and unlink it if it is used up. */
  method TradeFront(best: int, want: int, directory: map<Id, Loc>, lists: Lists, list: seq<Element>,
                    ghost side: Side, ghost levels: Levels, ghost elems: set<Element>)
    returns (fill: Fill, qty: int, l: seq<Element>, index: map<Id, Loc>)
    requires MirrorsSide(PutList(lists, best, list), levels, Now(elems)) && GoodLevels(levels)
    requires Linked(directory, side, PutList(lists, best, list))
    requires want > 0 && list != [] && levels.Keys != {} && best == Best(side, levels.Keys)
    modifies elems
    ensures var t := Trade(side, levels, want);
      && MirrorsSide(PutList(lists, best, l), t.levels, Now(elems))
      && [fill] == t.fills && qty == t.left && index == directory - t.gone
    ensures Linked(index, side, PutList(lists, best, l))
    ensures l == list[1..] || (l == list && qty <= 0)
  {
    ghost var now, before := PutList(lists, best, list), Now(elems);
    MirrorsServed(now, levels, best, before, want);
    LinkedAfterPop(directory, side, now, best);
    PutListTwice(lists, best, list, list[1..]);
    PutListTwice(lists, best, list, list);
    var m := list[0];
    var trade := want;
    if m.qty < trade {
      trade := m.qty;
    }
    fill := Fill(best, trade, m.id);
    qty := want - trade;
    m.qty := m.qty - trade;
    assert Now(elems) == before[m := m.qty];
    l, index := list, directory;
    if m.qty == 0 {
      l := l[1..];
      index := index - {m.id};
    }
  }

  /** The inner loop of a match: serve the taker from the front of the best level. It appends to the fills
      `sofar` of the levels before; `used` are the makers they used up out of the index `origin`. */
  method MatchLevel(best: int, want: int, sofar: seq<Fill>, directory: map<Id, Loc>, lists: Lists,
                    ghost side: Side, ghost levels: Levels, ghost cap: Cap, ghost elems: set<Element>,
                    ghost origin: map<Id, Loc>, ghost used: set<Id>)
    returns (fills: seq<Fill>, qty: int, l: seq<Element>, index: map<Id, Loc>, ghost left: Levels, ghost gone: set<Id>)
    requires MirrorsSide(lists, levels, Now(elems)) && GoodLevels(levels) && Linked(directory, side, lists)
    requires best in lists && best in levels && best == Best(side, levels.Keys) && Crosses(side, best, cap)
    requires directory == origin - used
    modifies elems
    ensures MirrorsSide(PutList(lists, best, l), left, Now(elems)) && GoodLevels(left)
    ensures Linked(index, side, PutList(lists, best, l))
    ensures l == [] || qty <= 0
    ensures index == origin - gone
    ensures Match(side, levels, cap, want).After(sofar, used) == Match(side, left, cap, qty).After(fills, gone)
  {
    fills, qty, l, index, left, gone := sofar, want, lists[best], directory, levels, used;
    ghost var whole := Match(side, levels, cap, want).After(sofar, used);
    assert PutList(lists, best, l) == lists;
    while qty > 0 && |l| > 0
      invariant MirrorsSide(PutList(lists, best, l), left, Now(elems)) && GoodLevels(left)
      invariant l != [] ==> left.Keys == levels.Keys
      invariant Linked(index, side, PutList(lists, best, l))
      invariant index == origin - gone
      invariant whole == Match(side, left, cap, qty).After(fills, gone)
      decreases |l|, qty
    {
      ghost var t := Trade(side, left, qty);
      TradeGood(side, left, cap, qty);
      MatchUnfolds(side, left, cap, qty, fills, gone);
      MinusTwice(origin, gone, t.gone);
      var fill;
      fill, qty, l, index := TradeFront(best, qty, index, lists, l, side, left, elems);
      fills := fills + [fill];
      left, gone := t.levels, gone + t.gone;
    }
  }

  function ListAt(lists: Lists, px: int): seq<Element> {
    if px in lists then lists[px] else []
  }

  /** Appending a new element to a list keeps the side mirrored, and the index once it points at the element. */
  lemma RestedLists(lists: Lists, levels: Levels, qtys: Quantities, index: map<Id, Loc>, side: Side, px: int,
                    el: Element, qty: int)
    requires MirrorsSide(lists, levels, qtys) && GoodLevels(levels) && Linked(index, side, lists)
    requires el !in qtys && el.px == px && qty > 0
    ensures var level := At(levels, px) + [Order(el.id, qty)];
      && MirrorsSide(lists[px := ListAt(lists, px) + [el]], levels[px := level], qtys[el := qty])
      && GoodLevels(levels[px := level])
    ensures Linked(index[el.id := Loc(side, px, el)], side, lists[px := ListAt(lists, px) + [el]])
  {
    var l, level := ListAt(lists, px) + [el], At(levels, px) + [Order(el.id, qty)];
    assert px in lists ==> Mirrors(lists[px], levels[px], px, qtys);
    assert Mirrors(l, level, px, qtys[el := qty]);
    forall p | p in lists && p != px ensures Mirrors(lists[p], levels[p], p, qtys[el := qty]) {
      assert Mirrors(lists[p], levels[p], p, qtys);
    }
    LastOfAppended(ListAt(lists, px), el, el.id);
    forall id | id in index && id != el.id && index[id].side == side && index[id].px == px
      ensures LastOf(l, id) == Some(index[id].el)
    {
      LastOfAppended(lists[px], el, id);
    }
  }

  /** Unlink an element from its list. */
  function Unlink(l: seq<Element>, el: Element): seq<Element> {
    if l == [] then [] else if l[0] == el then l[1..] else [l[0]] + Unlink(l[1..], el)
  }

  lemma {:induction false} UnlinkIsDrop(l: seq<Element>, k: nat)
    requires k < |l| && forall i | 0 <= i < k :: l[i] != l[k]
    ensures Unlink(l, l[k]) == DropAt(l, k)
  {
    if k > 0 {
      UnlinkIsDrop(l[1..], k - 1);
    }
  }

  lemma {:induction false} LastOfDropped(l: seq<Element>, k: nat, id: Id)
    requires k < |l| && l[k].id != id
    ensures LastOf(DropAt(l, k), id) == LastOf(l, id)
  {
    var n := |l| - 1;
    if k == n {
      assert DropAt(l, k) == l[..n];
    } else {
      assert DropAt(l, k)[..n - 1] == DropAt(l[..n], k);
      LastOfDropped(l[..n], k, id);
    }
  }

  lemma {:induction false} LastOfIsYoungest(l: seq<Element>, level: Level, id: Id)
    requires |l| == |level| && forall i | 0 <= i < |l| :: l[i].id == level[i].id
    ensures LastOf(l, id).Some? <==> id in Ids(level)
    ensures id in Ids(level) ==> LastOf(l, id) == Some(l[Youngest(level, id)])
  {
    if l != [] {
      var n := |l| - 1;
      assert level == level[..n] + [level[n]];
      LastOfIsYoungest(l[..n], level[..n], id);
    }
  }

  /** The index finds the youngest element of an id, so unlinking what it points at drops that one. */
  lemma UnlinkDrops(l: seq<Element>, level: Level, px: int, qtys: Quantities, id: Id, el: Element)
    requires Mirrors(l, level, px, qtys) && LastOf(l, id) == Some(el)
    ensures id in Ids(level) && el == l[Youngest(level, id)]
    ensures Unlink(l, el) == DropAt(l, Youngest(level, id))
    ensures Mirrors(Unlink(l, el), DropAt(level, Youngest(level, id)), px, qtys)
  {
    LastOfIsYoungest(l, level, id);
    var k := Youngest(level, id);
    UnlinkIsDrop(l, k);
    MirrorsDropped(l, level, px, qtys, k);
  }

  lemma MirrorsDropped(l: seq<Element>, level: Level, px: int, qtys: Quantities, k: nat)
    requires k < |l| && Mirrors(l, level, px, qtys)
    ensures Mirrors(DropAt(l, k), DropAt(level, k), px, qtys)
  {
  }

  lemma LinkedAfterUnlink(index: map<Id, Loc>, side: Side, lists: Lists, target: Id, k: nat)
    requires Linked(index, side, lists) && target in index && index[target].side == side
    requires k < |lists[index[target].px]| && lists[index[target].px][k].id == target
    ensures Linked(index - {target}, side, PutList(lists, index[target].px, DropAt(lists[index[target].px], k)))
  {
    var px := index[target].px;
    var l := lists[px];
    forall id | id in index && id != target && index[id].side == side && index[id].px == px
      ensures LastOf(DropAt(l, k), id) == Some(index[id].el)
    {
      LastOfDropped(l, k, id);
    }
  }

  lemma UnhookedLists(lists: Lists, levels: Levels, qtys: Quantities, index: map<Id, Loc>, side: Side, target: Id)
    requires MirrorsSide(lists, levels, qtys) && GoodLevels(levels) && Linked(index, side, lists)
    requires target in index && index[target].side == side
    ensures var Loc(_, px, el) := index[target];
      && px in lists && target in Ids(levels[px])
      && MirrorsSide(PutList(lists, px, Unlink(lists[px], el)), Put(levels, px, Dequeue(Go, levels[px], target)), qtys)
      && GoodLevels(Put(levels, px, Dequeue(Go, levels[px], target)))
      && Linked(index - {target}, side, PutList(lists, px, Unlink(lists[px], el)))
  {
    var Loc(_, px, el) := index[target];
    var l, level := lists[px], levels[px];
    UnlinkDrops(l, level, px, qtys, target, el);
    LinkedAfterUnlink(index, side, lists, target, Youngest(level, target));
    DequeueLevel(Go, level, target);
    ReplaceKeeps(levels, px, Dequeue(Go, level, target));
  }

  lemma NowPlus(elems: set<Element>, el: Element)
    ensures Now(elems + {el}) == Now(elems)[el := el.qty]
  {
  }

  lemma SpotsRedirected(index: map<Id, Loc>, id: Id, loc: Loc)
    ensures Spots(index[id := loc]) == Spots(index)[id := Spot(loc.side, loc.px)]
  {
  }
}
