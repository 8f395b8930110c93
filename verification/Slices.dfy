/**
 Sorted slices of prices, and finding the best price of a side: an end of a strictly ascending slice, or an end of an
 ordered map's keys.
*/
module Slices {
  import opened Market

  predicate Ascending(s: seq<int>) {
    forall i, j | 0 <= i < j < |s| :: s[i] < s[j]
  }

  /** Sorted, possibly with repeats. */
  predicate Rising(s: seq<int>) {
    forall i, j | 0 <= i < j < |s| :: s[i] <= s[j]
  }

  function Members(s: seq<int>): set<int> {
    set p | p in s
  }

  function Inserted(s: seq<int>, i: nat, v: int): seq<int>
    requires i <= |s|
  {
    s[..i] + [v] + s[i..]
  }

  function Removed(s: seq<int>, i: nat): seq<int>
    requires i < |s|
  {
    s[..i] + s[i + 1..]
  }

  /** Position i keeps v between what is not larger and what is not smaller. */
  predicate Between(s: seq<int>, i: nat, v: int) {
    i <= |s| && (forall j | 0 <= j < i :: s[j] <= v) && (forall j | i <= j < |s| :: v <= s[j])
  }

  lemma InsertedHolds(s: seq<int>, i: nat, v: int)
    requires i <= |s|
    ensures multiset(Inserted(s, i, v)) == multiset(s) + multiset{v}
    ensures Members(Inserted(s, i, v)) == Members(s) + {v}
  {
    assert s == s[..i] + s[i..];
    assert forall p :: p in Inserted(s, i, v) <==> p in s[..i] || p == v || p in s[i..];
  }

  lemma InsertedSorted(s: seq<int>, i: nat, v: int)
    requires Between(s, i, v)
    ensures Rising(s) ==> Rising(Inserted(s, i, v))
    ensures Ascending(s) && v !in s ==> Ascending(Inserted(s, i, v))
  {
  }

  lemma RemovedHolds(s: seq<int>, i: nat)
    requires i < |s|
    ensures multiset(Removed(s, i)) == multiset(s) - multiset{s[i]}
    ensures Ascending(s) ==> Members(Removed(s, i)) == Members(s) - {s[i]}
  {
    assert s == s[..i] + [s[i]] + s[i + 1..];
    if Ascending(s) {
      forall p ensures p in Removed(s, i) <==> p in s && p != s[i] {
        RemovedIn(s, i, p);
      }
    }
  }

  lemma RemovedIn(s: seq<int>, i: nat, p: int)
    requires i < |s| && Ascending(s)
    ensures p in Removed(s, i) <==> p in s && p != s[i]
  {
    if p in s {
      var k :| 0 <= k < |s| && s[k] == p;
      assert k < i ==> Removed(s, i)[k] == p;
      assert k > i ==> Removed(s, i)[k - 1] == p;
    }
  }

  lemma RemovedSorted(s: seq<int>, i: nat)
    requires i < |s|
    ensures Rising(s) ==> Rising(Removed(s, i))
    ensures Ascending(s) ==> Ascending(Removed(s, i))
  {
  }

  lemma AscendingEnds(s: seq<int>)
    requires Ascending(s) && s != []
    ensures Members(s) != {}
    ensures Best(Ask, Members(s)) == s[0] && Best(Bid, Members(s)) == s[|s| - 1]
  {
    assert s[0] in Members(s);
    assert IsBest(Ask, s[0], Members(s));
    assert IsBest(Bid, s[|s| - 1], Members(s));
  }

  /** The end of the slice a taker meets first: the lowest ask or the highest bid. */
  method BestPrice(buy: bool, prices: seq<int>) returns (best: int)
    requires Ascending(prices) && prices != []
    ensures best in prices && Members(prices) != {} && best == Best(Opposite(buy), Members(prices))
  {
    AscendingEnds(prices);
    best := if buy then prices[0] else prices[|prices| - 1];
  }

  /** The first or last key of an ordered map. */
  method BestKey<V>(buy: bool, levels: map<int, V>) returns (best: int)
    requires levels.Keys != {}
    ensures best == Best(Opposite(buy), levels.Keys)
  {
    ghost var p := Best(Opposite(buy), levels.Keys);
    assert p in levels;
    if buy {
      best :| best in levels && forall q | q in levels :: best <= q;
    } else {
      best :| best in levels && forall q | q in levels :: q <= best;
    }
    BestIsUnique(Opposite(buy), levels.Keys, best);
  }
}
