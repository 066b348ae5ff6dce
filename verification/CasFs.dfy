/** The object operations end to end: PUT, overwrite, DELETE and clone over the
    namespace database and the block store together. */
module CasFs {
  import opened Ids
  import opened Accounting
  import opened Records
  import opened Protocol
  import opened GroupCommit
  import opened References
  import opened WritePath
  import opened Usage
  import opened Words
  import opened Sequences
  import BlockStream

  function BlocksOf(o: Object): seq<BlockId> { o.blocks }

  lemma BucketRefs(objects: Objects, bucket: string, b: BlockId)
    ensures Refs(objects, BlocksOf, b) == Refs(Outside(objects, bucket), BlocksOf, b)
              + Refs(Inside(objects, bucket), BlocksOf, b)
  {
    var mine := Inside(objects, bucket);
    RefsSplit(objects, BlocksOf, mine.Keys, b);
    assert objects - mine.Keys == Outside(objects, bucket) && Only(objects, mine.Keys) == mine;
  }

  lemma TakenFrom(objects: Objects, bucket: string, k: ObjectKey)
    requires k in Inside(objects, bucket)
    ensures Inside(objects - {k}, bucket).Keys == Inside(objects, bucket).Keys - {k}
    ensures Outside(objects - {k}, bucket) == Outside(objects, bucket)
  {
  }

  /** The bytes of the chunks, each by itself. */
  function Bodies(chunks: seq<Chunk>): seq<seq<byte>>
    requires Unbroken(chunks)
  {
    seq(|chunks|, i requires 0 <= i < |chunks| => chunks[i].bytes)
  }

  lemma {:induction false} SizeOfBodies(chunks: seq<Chunk>)
    requires Unbroken(chunks)
    ensures SizeOf(chunks) == |Flatten(Bodies(chunks))|
    decreases |chunks|
  {
    if chunks != [] {
      var n := |chunks| - 1;
      assert Unbroken(chunks[..n]);
      SizeOfBodies(chunks[..n]);
      FlattenStep(Bodies(chunks[..n]), chunks[n].bytes);
      assert Bodies(chunks) == Bodies(chunks[..n]) + [chunks[n].bytes];
    }
  }

  /** The record a PUT stores lists one address per chunk, in order. */
  lemma {:induction false} AddressAt(chunks: seq<Chunk>, hash: seq<byte> -> BlockId, i: nat)
    requires Unbroken(chunks) && i < |chunks|
    ensures |Addresses(chunks, hash)| == |chunks| && Addresses(chunks, hash)[i] == hash(chunks[i].bytes)
    decreases |chunks|
  {
    var n := |chunks| - 1;
    assert Unbroken(chunks[..n]);
    if n > 0 { AddressAt(chunks[..n], hash, if i < n then i else 0); }
  }

  /** What a PUT stored is what a verified GET of its record returns: whatever the disk
      holds, a read that ends has yielded the chunks of the body, in order. */
  lemma PutThenGet(chunks: seq<Chunk>, hash: seq<byte> -> BlockId, o: Object, s: BlockStream.Stream)
    requires Unbroken(chunks) && SizeOf(chunks) < TwoTo64 && o == Object(SizeOf(chunks), Addresses(chunks, hash))
    requires BlockStream.Injective(hash) && s.verify.Some? && s.Checked() && s.Finished()
    requires s.verify.value.hash == hash && s.verify.value.ids == o.blocks && s.size == o.size
    ensures s.out == Flatten(Bodies(chunks))
  {
    SizeOfBodies(chunks);
    forall i | 0 <= i < |chunks| ensures |o.blocks| == |chunks| && o.blocks[i] == hash(Bodies(chunks)[i]) {
      AddressAt(chunks, hash, i);
    }
    BlockStream.VerifiedIsOriginal(s, Bodies(chunks));
  }

  datatype Cloned = Copied | NotThere | CloneError

  class Fs {
    const ns: Namespace
    const store: BlockStore

    constructor (ns: Namespace, store: BlockStore)
      ensures this.ns == ns && this.store == store
    {
      this.ns, this.store := ns, store;
    }

    /** References to `b` beyond those the object records hold. */
    ghost function Slack(b: BlockId): int
      reads ns`objects, store`records
    {
      Rc(store.records, b) - Refs(ns.objects, BlocksOf, b)
    }

    /** Every object's references are counted, and every record has its file. */
    ghost predicate Sound()
      reads ns`objects, store`records, store`files
    {
      Filed(store.records, store.files) && forall b: BlockId :: Slack(b) >= 0
    }

    /** The block store refused nothing since it counted `s0` faults. */
    ghost predicate Calm(s0: nat)
      reads store`faults
    {
      store.faults == s0
    }

    /** `create_object_meta`: the record is replaced first, then the displaced
        object's references go. The new record's references were taken before. */
    method CreateObjectMeta(k: ObjectKey, o: Object) returns (ok: bool)
      requires Filed(store.records, store.files) && forall b: BlockId :: Slack(b) >= Count(o.blocks, b)
      modifies ns`objects, ns`usage, ns`faults, store
      ensures Sound() && store.faults >= old(store.faults)
      ensures ns.faults == old(ns.faults) + if ok then 0 else 1
      ensures ns.Value() == if ok then Apply(old(ns.Value()), Replace(k, o)) else old(ns.Value())
      ensures ns.objects == if ok then old(ns.objects)[k := o] else old(ns.objects)
      ensures !ok ==> store.records == old(store.records) && store.faults == old(store.faults)
      ensures ok ==> forall b: BlockId ::
                0 <= Slack(b) - (old(Slack(b)) - Count(o.blocks, b)) <= store.faults - old(store.faults)
      ensures ok && Calm(old(store.faults)) ==> forall b: BlockId :: Slack(b) == old(Slack(b)) - Count(o.blocks, b)
    {
      ghost var before, records := ns.objects, store.records;
      var displaced;
      ok, displaced := ns.ReplaceObjectRecord(k, o);
      if !ok { return; }
      var gone := if displaced.Some? then displaced.value.blocks else [];
      forall b: BlockId
        ensures Refs(ns.objects, BlocksOf, b) + Count(gone, b) == Refs(before, BlocksOf, b) + Count(o.blocks, b)
        ensures Count(gone, b) <= Rc(records, b)
      {
        RefsPut(before, BlocksOf, k, o, b);
        assert old(Slack(b)) >= Count(o.blocks, b);
        RefsDrop(before, BlocksOf, k, b);
      }
      var released, lost := ReleaseBlocks(store, gone);
      forall b: BlockId
        ensures Slack(b) == old(Slack(b)) - Count(o.blocks, b) + Count(lost, b)
        ensures Count(lost, b) <= store.faults - old(store.faults)
      {
        ReleaseAllCounts(records, released, b);
        CountAtMost(lost, b);
      }
      forall b: BlockId ensures Slack(b) >= 0 { assert old(Slack(b)) >= Count(o.blocks, b); }
    }

    /** PUT: store the blocks, then publish the record, over whatever was there.
        When nothing fails, the counts beyond the object records are exactly what
        they were: blocks shared by the old and the new object, or repeated
        within either, included. */
    method PutObject(k: ObjectKey, chunks: seq<Chunk>, hash: seq<byte> -> BlockId, cap: nat, station: bool)
        returns (ok: bool, ghost done: nat)
      requires Sound() && (Unbroken(chunks) ==> SizeOf(chunks) < TwoTo64)
      modifies ns`objects, ns`usage, ns`faults, store
      ensures Sound()
      ensures done <= |chunks| && Unbroken(chunks[..done])
      ensures !ok ==> forall b: BlockId :: Slack(b) == old(Slack(b)) + Count(Addresses(chunks[..done], hash), b)
      ensures ok ==> forall b: BlockId :: 0 <= Slack(b) - old(Slack(b)) <= store.faults - old(store.faults)
      ensures !ok ==> ns.Value() == old(ns.Value())
      ensures ok ==>
                Unbroken(chunks) && ns.objects == old(ns.objects)[k := Object(SizeOf(chunks), Addresses(chunks, hash))]
      ensures ok ==>
                Unbroken(chunks) &&
                ns.Value() == Apply(old(ns.Value()), Replace(k, Object(SizeOf(chunks), Addresses(chunks, hash))))
      ensures Unbroken(chunks) && Calm(old(store.faults)) && ns.faults == old(ns.faults) ==>
                ok && forall b: BlockId :: Slack(b) == old(Slack(b))
    {
      var stored;
      stored, done := StoreObject(store, cap, station, chunks, hash);
      ghost var flushed := Addresses(chunks[..done], hash);
      assert chunks[..|chunks|] == chunks;
      forall b: BlockId ensures Slack(b) == old(Slack(b)) + Count(flushed, b) && old(Slack(b)) >= 0 { }
      if stored.StoredErr? { return false, done; }
      ok := CreateObjectMeta(k, Object(stored.size, stored.blocks));
    }

    /** DELETE: the record goes first, then its references, one per occurrence. */
    method DeleteObject(k: ObjectKey) returns (ok: bool, found: bool)
      requires Sound()
      modifies ns`objects, ns`usage, ns`faults, store
      ensures Sound() && store.faults >= old(store.faults)
      ensures ns.faults == old(ns.faults) + if ok then 0 else 1
      ensures ns.Value() == if ok then Apply(old(ns.Value()), Delete(k)) else old(ns.Value())
      ensures ns.objects == if ok then old(ns.objects) - {k} else old(ns.objects)
      ensures ok ==> found == (k in old(ns.objects))
      ensures !ok ==> store.records == old(store.records)
      ensures forall b: BlockId :: 0 <= Slack(b) - old(Slack(b)) <= store.faults - old(store.faults)
      ensures Calm(old(store.faults)) ==> forall b: BlockId :: Slack(b) == old(Slack(b))
    {
      ghost var before, records := ns.objects, store.records;
      var taken;
      ok, taken := ns.TakeObject(k);
      found := taken.Some?;
      if !found { return; }
      var gone := taken.value.blocks;
      forall b: BlockId
        ensures Refs(before, BlocksOf, b) == Refs(ns.objects, BlocksOf, b) + Count(gone, b)
        ensures Count(gone, b) <= Rc(records, b)
      {
        RefsDrop(before, BlocksOf, k, b);
        assert old(Slack(b)) >= 0;
      }
      var released, lost := ReleaseBlocks(store, gone);
      forall b: BlockId
        ensures Slack(b) == old(Slack(b)) + Count(lost, b) && old(Slack(b)) >= 0
        ensures Count(lost, b) <= store.faults - old(store.faults)
      {
        ReleaseAllCounts(records, released, b);
        CountAtMost(lost, b);
      }
    }

    /** `clone_object_by_reference`: references first, record second. A clone that
        copied or was refused leaves no more surplus than there were faults; one that
        ended in an error at most the source's references on top. */
    method CloneObject(src: ObjectKey, dest: ObjectKey) returns (r: Cloned)
      requires Sound()
      modifies ns`objects, ns`usage, ns`faults, store
      ensures Sound() && store.faults >= old(store.faults)
      ensures forall b: BlockId :: Slack(b) >= old(Slack(b))
      ensures !r.CloneError? ==> forall b: BlockId :: Slack(b) - old(Slack(b)) <= store.faults - old(store.faults)
      ensures r.CloneError? ==> forall b: BlockId ::
                Slack(b) - old(Slack(b)) <= At(old(ns.objects), BlocksOf, src, b) + store.faults - old(store.faults)
      ensures r.Copied? ==> src in old(ns.objects) && ns.objects == old(ns.objects)[dest := old(ns.objects)[src]]
      ensures r.NotThere? ==> src !in old(ns.objects)
      ensures !r.CloneError? ==> ns.faults == old(ns.faults)
      ensures r.CloneError? ==> ns.faults > old(ns.faults) || store.faults > old(store.faults)
      ensures r.NotThere? || r.CloneError? ==> ns.Value() == old(ns.Value())
      ensures r.Copied? ==>
                src in old(ns.objects) && ns.Value() == Apply(old(ns.Value()), Replace(dest, old(ns.objects)[src]))
      ensures Calm(old(store.faults)) && ns.faults == old(ns.faults) ==>
                (r.Copied? <==> src in old(ns.objects)) && !r.CloneError? &&
                forall b: BlockId :: Slack(b) == old(Slack(b))
    {
      var readable := ns.Attempt();
      if !readable { return CloneError; }
      if src !in ns.objects { return NotThere; }
      var o := ns.objects[src];
      ghost var records := store.records;
      forall b | b in o.blocks ensures b in store.records {
        RefsDrop(ns.objects, BlocksOf, src, b);
        assert old(Slack(b)) >= 0;
      }
      var acquired, leaked := AcquireReferences(store, o.blocks);
      forall b: BlockId
        ensures Slack(b) >= old(Slack(b)) && old(Slack(b)) >= 0
        ensures !acquired.Taken? ==> Slack(b) - old(Slack(b)) == Count(leaked, b) <= |leaked|
      {
        CountAtMost(leaked, b);
      }
      if !acquired.Taken? {
        return if acquired.Refused? then NotThere else CloneError;
      }
      var ok := CreateObjectMeta(dest, o);
      r := if ok then Copied else CloneError;
    }

    /** `drop_bucket` alone, as a namespace flush calls it: every reference of the
        records it takes stays counted with nobody left to hold it. */
    method DropBucket(bucket: string) returns (ok: bool)
      requires Sound()
      modifies ns
      ensures Sound() && (ok <==> ns.faults == old(ns.faults))
      ensures ns.objects == if ok then Outside(old(ns.objects), bucket) else old(ns.objects)
      ensures ok ==> ns.rows == old(ns.rows) - {bucket} && ns.usage == old(ns.usage) - {bucket}
      ensures ns.rows == old(ns.rows) || ns.rows == old(ns.rows) - {bucket}
      ensures ok ==> forall b: BlockId :: Slack(b) == old(Slack(b)) + Refs(Inside(old(ns.objects), bucket), BlocksOf, b)
      ensures !ok ==> forall b: BlockId :: Slack(b) == old(Slack(b))
    {
      ghost var before := ns.objects;
      ok := ns.DropBucket(bucket);
      if ok {
        forall b: BlockId
          ensures Slack(b) == old(Slack(b)) + Refs(Inside(before, bucket), BlocksOf, b) && old(Slack(b)) >= 0
        {
          BucketRefs(before, bucket, b);
        }
      } else {
        forall b: BlockId ensures Slack(b) == old(Slack(b)) && old(Slack(b)) >= 0 { }
      }
    }

    /** The walk of `bucket_delete`: each object it meets is deleted, and the first
        error ends it. */
    method EmptyBucket(bucket: string) returns (ok: bool)
      requires Sound()
      modifies ns`objects, ns`usage, ns`faults, store
      ensures Sound() && store.faults >= old(store.faults)
      ensures Outside(ns.objects, bucket) == Outside(old(ns.objects), bucket)
      ensures (ok <==> ns.faults == old(ns.faults)) && (ok ==> Inside(ns.objects, bucket) == map[])
      ensures forall b: BlockId :: 0 <= Slack(b) - old(Slack(b)) <= store.faults - old(store.faults)
      ensures Calm(old(store.faults)) ==> forall b: BlockId :: Slack(b) == old(Slack(b))
    {
      ok := true;
      var left := Inside(ns.objects, bucket).Keys;
      while left != {}
        invariant ok && ns.faults == old(ns.faults) && Sound() && store.faults >= old(store.faults)
        invariant left == Inside(ns.objects, bucket).Keys
        invariant Outside(ns.objects, bucket) == Outside(old(ns.objects), bucket)
        invariant forall b: BlockId :: 0 <= Slack(b) - old(Slack(b)) <= store.faults - old(store.faults)
        invariant Calm(old(store.faults)) ==> forall b: BlockId :: Slack(b) == old(Slack(b))
        decreases |left|
      {
        var k :| k in left;
        ok := ns.Attempt();
        if !ok { return; }
        TakenFrom(ns.objects, bucket, k);
        var found;
        ok, found := DeleteObject(k);
        if !ok { return; }
        left := left - {k};
      }
    }

    /** `bucket_delete`: the row, then every object of the tree, then the tree. When it
        succeeds no record is left for the drop to take, and no reference is leaked
        unless the block store failed to give one back; an error on the way leaves the
        remaining objects their records. Other buckets are as they were. */
    method BucketDelete(bucket: string) returns (ok: bool)
      requires Sound()
      modifies ns, store
      ensures Sound()
      ensures Outside(ns.objects, bucket) == Outside(old(ns.objects), bucket)
      ensures ok <==> ns.faults == old(ns.faults)
      ensures ok ==> ns.objects == Outside(old(ns.objects), bucket) && bucket !in ns.usage
      ensures ns.rows == old(ns.rows) - {bucket} ||
              (!ok && ns.Value() == old(ns.Value()) && ns.rows == old(ns.rows) && store.records == old(store.records))
      ensures ok ==> ns.rows == old(ns.rows) - {bucket}
      ensures forall b: BlockId :: 0 <= Slack(b) - old(Slack(b)) <= store.faults - old(store.faults)
      ensures Calm(old(store.faults)) ==> forall b: BlockId :: Slack(b) == old(Slack(b))
    {
      ok := ns.Attempt();
      if !ok { return; }
      ns.rows := ns.rows - {bucket};
      ok := EmptyBucket(bucket);
      if !ok { return; }
      ghost var empty := Inside(ns.objects, bucket);
      assert forall b: BlockId :: Refs(empty, BlocksOf, b) == 0;
      ok := DropBucket(bucket);
    }
  }
}
