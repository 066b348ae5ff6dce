/** The recount behind fsck: one visit per holder record, one count per mention. */
module Holders {
  import opened Ids
  import opened Accounting
  import opened Records
  import opened Protocol
  import opened ProtocolNames
  import opened ProtocolTheorems

  /** A stored record as the walk meets it: its block list, or bytes that do not
      decode. */
  datatype Raw = Decoded(blocks: seq<BlockId>) | Undecodable

  /** One tree of the namespace database. */
  datatype Tree = Tree(name: string, records: seq<Raw>)

  datatype Recount = Counts(counts: map<BlockId, nat>) | Refused

  predicate Readable(records: seq<Raw>) {
    forall i :: 0 <= i < |records| ==> records[i].Decoded?
  }

  /** Every record of every bucket tree and every part record decodes. */
  predicate AllReadable(trees: seq<Tree>, parts: seq<Raw>) {
    (forall i :: 0 <= i < |trees| && !IsReserved(trees[i].name) ==> Readable(trees[i].records)) && Readable(parts)
  }

  /** Occurrences of `b` in a run of records. */
  function InRecords(records: seq<Raw>, b: BlockId): nat {
    if records == [] then 0
    else
      var n := |records| - 1;
      InRecords(records[..n], b) + if records[n].Decoded? then Count(records[n].blocks, b) else 0
  }

  /** Occurrences of `b` in the bucket trees: reserved trees hold no references. */
  function InTrees(trees: seq<Tree>, b: BlockId): nat {
    if trees == [] then 0
    else
      var n := |trees| - 1;
      InTrees(trees[..n], b) + if IsReserved(trees[n].name) then 0 else InRecords(trees[n].records, b)
  }

  /** `counts` maps exactly the blocks that occur to how often they do. */
  ghost predicate Tallies(counts: map<BlockId, nat>, total: BlockId -> nat) {
    forall b: BlockId :: (b in counts <==> total(b) > 0) && (b in counts ==> counts[b] == total(b))
  }

  /** The visitor: one more for every block the record names. */
  method Visit(blocks: seq<BlockId>, counts: map<BlockId, nat>, ghost before: BlockId -> nat)
      returns (counts': map<BlockId, nat>)
    requires Tallies(counts, before)
    ensures Tallies(counts', b => before(b) + Count(blocks, b))
  {
    counts' := counts;
    for i := 0 to |blocks|
      invariant Tallies(counts', b => before(b) + Count(blocks[..i], b))
    {
      var x := blocks[i];
      assert blocks[..i + 1] == blocks[..i] + [x];
      forall b: BlockId ensures Count(blocks[..i + 1], b) == Count(blocks[..i], b) + if b == x then 1 else 0 {
        CountAppend(blocks[..i], [x], b);
      }
      counts' := counts'[x := (if x in counts' then counts'[x] else 0) + 1];
    }
    assert blocks[..|blocks|] == blocks;
  }

  method VisitAll(records: seq<Raw>, counts: map<BlockId, nat>, ghost before: BlockId -> nat)
      returns (ok: bool, counts': map<BlockId, nat>)
    requires Tallies(counts, before)
    ensures ok <==> Readable(records)
    ensures ok ==> Tallies(counts', b => before(b) + InRecords(records, b))
  {
    ok, counts' := true, counts;
    for i := 0 to |records|
      invariant ok && Readable(records[..i]) && Tallies(counts', b => before(b) + InRecords(records[..i], b))
    {
      assert records[..i + 1][..i] == records[..i];
      if records[i].Undecodable? { return false, counts'; }
      counts' := Visit(records[i].blocks, counts', b => before(b) + InRecords(records[..i], b));
    }
    assert records[..|records|] == records;
  }

  /** `expected_counts`: every holder record once, or a refusal as soon as one
      will not decode; never a partial count. */
  method ExpectedCounts(trees: seq<Tree>, parts: seq<Raw>) returns (r: Recount)
    ensures r.Counts? <==> AllReadable(trees, parts)
    ensures r.Counts? ==> Tallies(r.counts, b => InTrees(trees, b) + InRecords(parts, b))
  {
    var counts: map<BlockId, nat> := map[];
    for i := 0 to |trees|
      invariant forall k :: 0 <= k < i && !IsReserved(trees[k].name) ==> Readable(trees[k].records)
      invariant Tallies(counts, b => InTrees(trees[..i], b))
    {
      assert trees[..i + 1][..i] == trees[..i];
      if !IsReserved(trees[i].name) {
        var ok;
        ok, counts := VisitAll(trees[i].records, counts, b => InTrees(trees[..i], b));
        if !ok { return Refused; }
      }
    }
    assert trees[..|trees|] == trees;
    var ok;
    ok, counts := VisitAll(parts, counts, b => InTrees(trees, b));
    r := if ok then Counts(counts) else Refused;
  }

  // ------------------------------------------------- the walk and the protocol

  /** Records listed one per key of `m`, each key once. */
  ghost predicate Lists<K(!new)>(records: seq<Raw>, keys: seq<K>, m: map<K, seq<BlockId>>) {
    && |records| == |keys| && NoDup(keys) && (forall k :: k in keys <==> k in m)
    && forall i :: 0 <= i < |keys| ==> records[i] == Decoded(m[keys[i]])
  }

  lemma ListsLess<K(!new)>(records: seq<Raw>, keys: seq<K>, m: map<K, seq<BlockId>>)
    requires Lists(records, keys, m) && keys != []
    ensures var n := |keys| - 1;
            keys[n] in m && records[n] == Decoded(m[keys[n]]) && Lists(records[..n], keys[..n], m - {keys[n]})
  {
    var n := |keys| - 1;
    var k, fewer := keys[n], keys[..n];
    assert k in keys;
    forall j ensures j in fewer <==> j in m - {k} {
      if j in fewer {
        var i :| 0 <= i < n && fewer[i] == j;
        assert keys[i] == j && keys[i] != keys[n];
      }
      if j in m - {k} {
        assert j in keys;
        var i :| 0 <= i < |keys| && keys[i] == j;
        assert fewer[i] == j;
      }
    }
  }

  /** A complete listing counts what the holders hold. */
  lemma {:induction false} ListingCounts<K(!new)>(records: seq<Raw>, keys: seq<K>, m: map<K, seq<BlockId>>, b: BlockId)
    requires Lists(records, keys, m)
    ensures InRecords(records, b) == Refs(m, Listed, b)
    decreases |keys|
  {
    if keys == [] {
      assert forall k :: k in m ==> k in keys;
      assert m == map[];
    } else {
      var n := |keys| - 1;
      ListsLess(records, keys, m);
      ListingCounts(records[..n], keys[..n], m - {keys[n]}, b);
      RefsDrop(m, Listed, keys[n], b);
    }
  }

  /** The objects of one bucket. */
  function InBucket(objects: map<ObjectKey, seq<BlockId>>, bucket: string): map<ObjectKey, seq<BlockId>> {
    map k | k in objects && k.bucket == bucket :: objects[k]
  }

  /** The objects that lie in trees the store keeps for itself. */
  function InReserved(objects: map<ObjectKey, seq<BlockId>>): map<ObjectKey, seq<BlockId>> {
    map k | k in objects && IsReserved(k.bucket) :: objects[k]
  }

  ghost predicate HasTree(trees: seq<Tree>, name: string) {
    exists i :: 0 <= i < |trees| && trees[i].name == name
  }

  /** The trees of the namespace database: one per bucket, each listing its bucket's
      objects; what the store's own trees list does not matter. */
  ghost predicate TreesOf(trees: seq<Tree>, keys: seq<seq<ObjectKey>>, objects: map<ObjectKey, seq<BlockId>>) {
    && |keys| == |trees|
    && (forall i, j :: 0 <= i < j < |trees| ==> trees[i].name != trees[j].name)
    && (forall k :: k in objects && !IsReserved(k.bucket) ==> HasTree(trees, k.bucket))
    && (forall i :: 0 <= i < |trees| && !IsReserved(trees[i].name) ==>
          Lists(trees[i].records, keys[i], InBucket(objects, trees[i].name)))
  }

  /** Another bucket's objects are not among those taken away. */
  lemma OtherBucketStays(objects: map<ObjectKey, seq<BlockId>>, gone: string, bucket: string)
    requires bucket != gone
    ensures InBucket(objects - InBucket(objects, gone).Keys, bucket) == InBucket(objects, bucket)
  {
  }

  lemma TreeElsewhere(trees: seq<Tree>, name: string)
    requires trees != [] && trees[|trees| - 1].name != name && HasTree(trees, name)
    ensures HasTree(trees[..|trees| - 1], name)
  {
    var i :| 0 <= i < |trees| && trees[i].name == name;
    assert trees[..|trees| - 1][i].name == name;
  }

  /** One tree fewer, over the objects of the others. */
  lemma TreesLess(trees: seq<Tree>, keys: seq<seq<ObjectKey>>, objects: map<ObjectKey, seq<BlockId>>)
    requires TreesOf(trees, keys, objects) && trees != []
    requires !IsReserved(trees[|trees| - 1].name)
    ensures var n := |trees| - 1;
            TreesOf(trees[..n], keys[..n], objects - InBucket(objects, trees[n].name).Keys)
  {
    var n := |trees| - 1;
    var name, rest := trees[n].name, objects - InBucket(objects, trees[n].name).Keys;
    forall k | k in rest && !IsReserved(k.bucket) ensures HasTree(trees[..n], k.bucket) {
      TreeElsewhere(trees, k.bucket);
    }
    forall i | 0 <= i < n && !IsReserved(trees[i].name)
      ensures Lists(trees[i].records, keys[i], InBucket(rest, trees[i].name))
    {
      OtherBucketStays(objects, name, trees[i].name);
    }
  }

  lemma TreesSkip(trees: seq<Tree>, keys: seq<seq<ObjectKey>>, objects: map<ObjectKey, seq<BlockId>>)
    requires TreesOf(trees, keys, objects) && trees != []
    requires IsReserved(trees[|trees| - 1].name)
    ensures TreesOf(trees[..|trees| - 1], keys[..|trees| - 1], objects)
  {
    var n := |trees| - 1;
    forall k | k in objects && !IsReserved(k.bucket) ensures HasTree(trees[..n], k.bucket) {
      TreeElsewhere(trees, k.bucket);
    }
  }

  /** What one bucket's tree adds. */
  lemma BucketCounts(objects: map<ObjectKey, seq<BlockId>>, bucket: string, b: BlockId)
    requires !IsReserved(bucket)
    ensures var mine := InBucket(objects, bucket);
            && Refs(objects, Listed, b) == Refs(objects - mine.Keys, Listed, b) + Refs(mine, Listed, b)
            && InReserved(objects - mine.Keys) == InReserved(objects)
  {
    var mine := InBucket(objects, bucket);
    RefsSplit(objects, Listed, mine.Keys, b);
    assert Only(objects, mine.Keys) == mine;
  }

  /** The walk over the trees finds every object, but those the store keeps for
      itself. */
  lemma {:induction false} TreesCount(trees: seq<Tree>, keys: seq<seq<ObjectKey>>,
                                      objects: map<ObjectKey, seq<BlockId>>, b: BlockId)
    requires TreesOf(trees, keys, objects)
    ensures InTrees(trees, b) + Refs(InReserved(objects), Listed, b) == Refs(objects, Listed, b)
    decreases |trees|
  {
    if trees == [] {
      assert InReserved(objects) == objects;
    } else {
      var n := |trees| - 1;
      if IsReserved(trees[n].name) {
        TreesSkip(trees, keys, objects);
        TreesCount(trees[..n], keys[..n], objects, b);
      } else {
        var mine := InBucket(objects, trees[n].name);
        TreesLess(trees, keys, objects);
        TreesCount(trees[..n], keys[..n], objects - mine.Keys, b);
        ListingCounts(trees[n].records, keys[n], mine, b);
        BucketCounts(objects, trees[n].name, b);
      }
    }
  }

  lemma TreesReadable(trees: seq<Tree>, keys: seq<seq<ObjectKey>>, objects: map<ObjectKey, seq<BlockId>>)
    requires TreesOf(trees, keys, objects)
    ensures forall i :: 0 <= i < |trees| && !IsReserved(trees[i].name) ==> Readable(trees[i].records)
  {
  }

  /** What a recount found for a block. */
  function Found(counts: map<BlockId, nat>, b: BlockId): nat {
    if b in counts then counts[b] else 0
  }

  /** After a crash at any point of any run, a walk over the trees and the part
      records finds, for every block, what its record counts less what the run
      leaked and what objects in the store's own trees name; and no object lies in
      such a tree when no request named one. */
  lemma RecountAfterCrash(n: nat, run: seq<Action>, trees: seq<Tree>, names: seq<seq<ObjectKey>>, parts: seq<Raw>,
                          keys: seq<PartKey>,
                          b: BlockId)
    requires n > 0 && IsRun(Init(n), run)
    requires var s := Exec(Init(n), run); TreesOf(trees, names, s.objects) && Lists(parts, keys, s.parts)
    ensures var c := DoCrash(Exec(Init(n), run));
            && AllReadable(trees, parts)
            && InTrees(trees, b) + InRecords(parts, b) + Count(c.leaked, b)
                 + Refs(InReserved(c.objects), Listed, b) == Rc(c.blocks, b)
            && ((forall a :: a in run ==> Unreserved(a)) ==>
                  InTrees(trees, b) + InRecords(parts, b) + Count(c.leaked, b) == Rc(c.blocks, b))
  {
    var s := Exec(Init(n), run);
    CrashAnywhereIsSafe(n, run);
    TreesCount(trees, names, s.objects, b);
    TreesReadable(trees, names, s.objects);
    ListingCounts(parts, keys, s.parts, b);
    if forall a :: a in run ==> Unreserved(a) {
      RunNamed(Init(n), run);
      assert InReserved(s.objects) == map[];
    }
  }

  /** The recount of a crashed store, as fsck runs it: it is never refused, and for
      every block it falls short of the record's count by exactly the leak. */
  method RecountCrashed(trees: seq<Tree>, parts: seq<Raw>, ghost n: nat, ghost run: seq<Action>,
                        ghost names: seq<seq<ObjectKey>>,
                        ghost keys: seq<PartKey>)
      returns (r: Recount)
    requires n > 0 && IsRun(Init(n), run) && forall a :: a in run ==> Unreserved(a)
    requires var s := Exec(Init(n), run); TreesOf(trees, names, s.objects) && Lists(parts, keys, s.parts)
    ensures r.Counts?
    ensures var c := DoCrash(Exec(Init(n), run));
            forall b: BlockId :: Found(r.counts, b) + Count(c.leaked, b) == Rc(c.blocks, b)
  {
    r := ExpectedCounts(trees, parts);
    ghost var c := DoCrash(Exec(Init(n), run));
    forall b: BlockId
      ensures AllReadable(trees, parts)
      ensures r.Counts? ==> Found(r.counts, b) + Count(c.leaked, b) == Rc(c.blocks, b)
    {
      RecountAfterCrash(n, run, trees, names, parts, keys, b);
    }
    ghost var some: BlockId :| true;
    RecountAfterCrash(n, run, trees, names, parts, keys, some);
  }
}
