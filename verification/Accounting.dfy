/** References added up over the holders that name them. */
module Accounting {
  import opened Ids

  /** A record's block list is what it holds. */
  function Listed(blocks: seq<BlockId>): seq<BlockId> { blocks }

  /** How often `b` occurs in a block list. */
  function Count(blocks: seq<BlockId>, b: BlockId): nat { multiset(blocks)[b] }

  lemma CardDrop<K, V>(m: map<K, V>, k: K)
    requires k in m
    ensures |m - {k}| == |m| - 1
  {
    assert (m - {k}).Keys == m.Keys - {k};
    assert |(m - {k}).Keys| == |m - {k}|;
    assert |m.Keys| == |m|;
  }

  /** A weight added up over a map. */
  ghost function SumOver<K(!new), V>(m: map<K, V>, weight: (K, V) -> nat): nat
    decreases |m|
  {
    if m == map[] then 0
    else
      var k :| k in m;
      assert |m - {k}| < |m| by { CardDrop(m, k); }
      weight(k, m[k]) + SumOver(m - {k}, weight)
  }

  /** Removing an entry removes its weight, whichever entry the sum started with. */
  lemma {:induction false} SumDrop<K(!new), V>(m: map<K, V>, weight: (K, V) -> nat, k: K)
    ensures SumOver(m, weight) == (if k in m then weight(k, m[k]) else 0) + SumOver(m - {k}, weight)
    decreases |m|
  {
    if k in m {
      var k0 :| k0 in m && SumOver(m, weight) == weight(k0, m[k0]) + SumOver(m - {k0}, weight);
      if k0 != k {
        CardDrop(m, k0);
        CardDrop(m, k);
        SumDrop(m - {k0}, weight, k);
        SumDrop(m - {k}, weight, k0);
        assert m - {k0} - {k} == m - {k} - {k0};
      }
    } else {
      assert m - {k} == m;
    }
  }

  /** Writing an entry trades its old weight for its new one. */
  lemma SumPut<K(!new), V>(m: map<K, V>, weight: (K, V) -> nat, k: K, v: V)
    ensures SumOver(m[k := v], weight) + (if k in m then weight(k, m[k]) else 0) == SumOver(m, weight) + weight(k, v)
  {
    SumDrop(m[k := v], weight, k);
    assert m[k := v] - {k} == m - {k};
    SumDrop(m, weight, k);
  }

  /** How often the holder under `k` names `b`, if there is one. */
  ghost function At<K, V>(m: map<K, V>, held: V -> seq<BlockId>, k: K, b: BlockId): nat {
    if k in m then Count(held(m[k]), b) else 0
  }

  function Mentions<K, V>(held: V -> seq<BlockId>, b: BlockId): (K, V) -> nat {
    (k: K, v: V) => Count(held(v), b)
  }

  /** References to `b` over every holder in `m`, one per occurrence. */
  ghost function Refs<K(!new), V>(m: map<K, V>, held: V -> seq<BlockId>, b: BlockId): nat {
    SumOver(m, Mentions(held, b))
  }

  /** Removing a holder removes exactly its references. */
  lemma RefsDrop<K(!new), V>(m: map<K, V>, held: V -> seq<BlockId>, k: K, b: BlockId)
    ensures Refs(m, held, b) == At(m, held, k, b) + Refs(m - {k}, held, b)
  {
    SumDrop(m, Mentions(held, b), k);
  }

  /** Writing a holder trades its old references for its new ones. */
  lemma RefsPut<K(!new), V>(m: map<K, V>, held: V -> seq<BlockId>, k: K, v: V, b: BlockId)
    ensures Refs(m[k := v], held, b) + At(m, held, k, b) == Refs(m, held, b) + Count(held(v), b)
  {
    RefsDrop(m[k := v], held, k, b);
    assert m[k := v] - {k} == m - {k};
    RefsDrop(m, held, k, b);
  }

  /** The holders of `m` that are in `keys`. */
  function Only<K, V>(m: map<K, V>, keys: set<K>): map<K, V> {
    m - (m.Keys - keys)
  }

  /** Dropping a whole set of holders drops exactly their references. */
  lemma {:induction false} RefsSplit<K(!new), V>(m: map<K, V>, held: V -> seq<BlockId>, gone: set<K>, b: BlockId)
    ensures Refs(m, held, b) == Refs(m - gone, held, b) + Refs(Only(m, gone), held, b)
    decreases |m|
  {
    if k :| k in m {
      CardDrop(m, k);
      RefsDrop(m, held, k, b);
      RefsSplit(m - {k}, held, gone, b);
      if k in gone {
        assert m - {k} - gone == m - gone;
        assert Only(m - {k}, gone) == Only(m, gone) - {k};
        RefsDrop(Only(m, gone), held, k, b);
      } else {
        assert m - {k} - gone == m - gone - {k};
        assert Only(m - {k}, gone) == Only(m, gone);
        RefsDrop(m - gone, held, k, b);
      }
    }
  }

  /** The same references as a list, in no particular order. */
  ghost function Flat<K(!new), V>(m: map<K, V>, held: V -> seq<BlockId>): seq<BlockId>
    decreases |m|
  {
    if m == map[] then []
    else
      var k :| k in m;
      assert |m - {k}| < |m| by { CardDrop(m, k); }
      held(m[k]) + Flat(m - {k}, held)
  }

  lemma CountAppend(xs: seq<BlockId>, ys: seq<BlockId>, b: BlockId)
    ensures Count(xs + ys, b) == Count(xs, b) + Count(ys, b)
  {
    assert multiset(xs + ys) == multiset(xs) + multiset(ys);
  }

  lemma {:induction false} CountAtMost(xs: seq<BlockId>, b: BlockId)
    ensures Count(xs, b) <= |xs|
    decreases |xs|
  {
    if xs != [] {
      var n := |xs| - 1;
      CountAtMost(xs[..n], b);
      assert xs == xs[..n] + [xs[n]];
      CountAppend(xs[..n], [xs[n]], b);
    }
  }

  lemma {:induction false} FlatCounts<K(!new), V>(m: map<K, V>, held: V -> seq<BlockId>, b: BlockId)
    ensures Count(Flat(m, held), b) == Refs(m, held, b)
    decreases |m|
  {
    if m != map[] {
      var k :| k in m && Flat(m, held) == held(m[k]) + Flat(m - {k}, held);
      CardDrop(m, k);
      FlatCounts(m - {k}, held, b);
      CountAppend(held(m[k]), Flat(m - {k}, held), b);
      RefsDrop(m, held, k, b);
    }
  }
}
