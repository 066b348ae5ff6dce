/** `store_object`: chunks become batch entries, batches close at the cap and at
    the end of the request. */
module WritePath {
  import opened Ids
  import opened Accounting
  import opened Records
  import opened GroupCommit
  import opened GroupFiles
  import opened CloseGroup
  import opened CloseAlone

  lemma OccurrencesCount(e: Entry, b: BlockId)
    ensures Count(Occurrences(e), b) == if b == e.id then e.occurrences else 0
    decreases e.occurrences
  {
    if e.occurrences > 0 {
      var less := e.(occurrences := e.occurrences - 1);
      OccurrencesCount(less, b);
      assert Occurrences(e) == Occurrences(less) + [e.id];
      CountAppend(Occurrences(less), [e.id], b);
    } else {
      assert Occurrences(e) == [];
    }
  }

  /** References to `b` the entries add. */
  function Adds(entries: seq<Entry>, b: BlockId): nat {
    if entries == [] then 0
    else
      var n := |entries| - 1;
      Adds(entries[..n], b) + if entries[n].id == b then entries[n].occurrences else 0
  }

  lemma {:induction false} AddsIsCount(entries: seq<Entry>, b: BlockId)
    ensures Adds(entries, b) == Count(Listing(entries), b)
    decreases |entries|
  {
    if entries != [] {
      var n := |entries| - 1;
      AddsIsCount(entries[..n], b);
      CountAppend(Listing(entries[..n]), Occurrences(entries[n]), b);
      OccurrencesCount(entries[n], b);
    }
  }

  function OneMore(e: Entry): Entry { e.(occurrences := e.occurrences + 1) }

  /** One more occurrence of an entry is one more reference to its block. */
  lemma {:induction false} AddsBump(entries: seq<Entry>, slot: nat, b: BlockId)
    requires slot < |entries|
    ensures Adds(entries[slot := OneMore(entries[slot])], b)
         == Adds(entries, b) + if b == entries[slot].id then 1 else 0
    decreases |entries|
  {
    var n, more := |entries| - 1, entries[slot := OneMore(entries[slot])];
    if slot < n {
      AddsBump(entries[..n], slot, b);
      assert more[..n] == entries[..n][slot := OneMore(entries[slot])];
    } else {
      assert more[..n] == entries[..n];
    }
  }

  /** The blocks of a request that are not committed yet, one entry per distinct
      id, found again through `seen`. */
  class BlockBatch {
    const cap: nat
    var entries: seq<Entry>
    var seen: map<BlockId, nat>

    ghost predicate Valid()
      reads this
    {
      && cap > 0 && |entries| <= cap
      && (forall i :: 0 <= i < |entries| ==> EntryOk(entries[i]) && entries[i].id in seen && seen[entries[i].id] == i)
      && (forall id :: id in seen ==> seen[id] < |entries| && entries[seen[id]].id == id)
    }

    constructor (cap: nat)
      ensures Valid() && entries == [] && this.cap == if cap == 0 then 1 else cap
    {
      this.cap := if cap == 0 then 1 else cap;
      entries, seen := [], map[];
    }

    /** A repeat of a block in the batch costs one more reference, not an entry. */
    method AddOccurrence(id: BlockId) returns (found: bool)
      requires Valid()
      modifies this`entries
      ensures Valid() && found == (id in seen) && (!found ==> entries == old(entries)) && |entries| == |old(entries)|
      ensures found ==> forall b: BlockId :: Adds(entries, b) == Adds(old(entries), b) + if b == id then 1 else 0
    {
      found := id in seen;
      if found {
        var slot := seen[id];
        forall b: BlockId
          ensures Adds(entries[slot := OneMore(entries[slot])], b) == Adds(entries, b) + if b == id then 1 else 0
        {
          AddsBump(entries, slot, b);
        }
        entries := entries[slot := OneMore(entries[slot])];
      }
    }

    method Push(e: Entry)
      requires Valid() && EntryOk(e) && e.occurrences == 1 && e.id !in seen && |entries| < cap
      modifies this
      ensures Valid() && entries == old(entries) + [e]
      ensures forall b: BlockId :: Adds(entries, b) == Adds(old(entries), b) + if b == e.id then 1 else 0
    {
      assert (entries + [e])[..|entries|] == entries;
      seen := seen[e.id := |entries|];
      entries := entries + [e];
    }

    /** What the batch holds goes to the closer, and the batch starts over. */
    method Take() returns (taken: seq<Entry>)
      requires Valid()
      modifies this
      ensures Valid() && entries == [] && taken == old(entries)
    {
      taken := entries;
      entries, seen := [], map[];
    }
  }

  /** `accumulate`: an occurrence of something the batch holds, a hit against a
      committed record, or a file staged at a fresh depth. */
  method Accumulate(store: BlockStore, batch: BlockBatch, id: BlockId) returns (ok: bool)
    requires batch.Valid() && |batch.entries| < batch.cap
    modifies batch, store`faults
    ensures batch.Valid() && store.faults >= old(store.faults) && |batch.entries| <= |old(batch.entries)| + 1
    ensures ok ==> batch.entries != [] && forall b: BlockId ::
              Adds(batch.entries, b) == Adds(old(batch.entries), b) + if b == id then 1 else 0
    ensures ok && id !in old(batch.seen) ==>
              && |batch.entries| == |old(batch.entries)| + 1
              && batch.entries[..|old(batch.entries)|] == old(batch.entries)
              && var e := batch.entries[|old(batch.entries)|];
              && (e.payload.Deduped? <==> id in store.records)
              && (e.payload.Staged? ==>
                    forall d :: Lies(store.files, id, d) ==> Lies(store.files, id, e.payload.at) && e.payload.at <= d)
    ensures !ok ==> batch.entries == old(batch.entries)
    ensures ok <==> store.faults == old(store.faults)
  {
    var found := batch.AddOccurrence(id);
    if found { return true; }
    var live := store.HasLiveRecord(id);
    if live.None? { return false; }
    if live.value {
      batch.Push(Entry(id, 1, Deduped, None));
    } else {
      var depth := store.ChooseDepth(id);
      var staged := store.Attempt();
      if !staged { return false; }
      batch.Push(Entry(id, 1, Staged(depth), Some(depth)));
    }
    ok := true;
  }

  datatype Chunk = Bytes(bytes: seq<byte>) | Broken

  datatype Stored = StoredOk(blocks: seq<BlockId>, size: nat) | StoredErr

  /** The body arrived whole. */
  predicate Unbroken(chunks: seq<Chunk>) { forall c :: c in chunks ==> c.Bytes? }

  /** The block addresses of a chunk list, in chunk order. */
  function Addresses(chunks: seq<Chunk>, hash: seq<byte> -> BlockId): seq<BlockId>
    requires Unbroken(chunks)
  {
    if chunks == [] then [] else Addresses(chunks[..|chunks| - 1], hash) + [hash(chunks[|chunks| - 1].bytes)]
  }

  function SizeOf(chunks: seq<Chunk>): nat
    requires Unbroken(chunks)
  {
    if chunks == [] then 0 else SizeOf(chunks[..|chunks| - 1]) + |chunks[|chunks| - 1].bytes|
  }

  lemma NextChunk(chunks: seq<Chunk>, i: nat, hash: seq<byte> -> BlockId)
    requires i < |chunks| && Unbroken(chunks[..i]) && chunks[i].Bytes?
    ensures Unbroken(chunks[..i + 1]) && SizeOf(chunks[..i + 1]) == SizeOf(chunks[..i]) + |chunks[i].bytes|
    ensures Addresses(chunks[..i + 1], hash) == Addresses(chunks[..i], hash) + [hash(chunks[i].bytes)]
  {
    assert chunks[..i + 1] == chunks[..i] + [chunks[i]] && chunks[..i + 1][..i] == chunks[..i];
  }

  lemma OneMoreBlock(blocks: seq<BlockId>, id: BlockId)
    ensures forall b: BlockId :: Count(blocks + [id], b) == Count(blocks, b) + if b == id then 1 else 0
  {
    forall b: BlockId
      ensures Count(blocks + [id], b) == Count(blocks, b) + if b == id then 1 else 0
    {
      CountAppend(blocks, [id], b);
    }
  }

  /** Over `start`, exactly the occurrences of `flushed` have been counted. */
  ghost predicate Flushed(records: Blocks, start: Blocks, flushed: seq<BlockId>) {
    forall b: BlockId :: Rc(records, b) == Rc(start, b) + Count(flushed, b)
  }

  /** What is flushed and what waits in the batch make up `blocks`. */
  ghost predicate Accounted(flushed: seq<BlockId>, entries: seq<Entry>, blocks: seq<BlockId>) {
    forall b: BlockId :: Count(flushed, b) + Adds(entries, b) == Count(blocks, b)
  }

  /** The member of a group of one that has no lost write, and landed its files, fails only
      after the group's transaction and its own did. */
  lemma FailedTwice(members: seq<seq<Entry>>, records: Blocks, answers: seq<Outcome>, w: FileWork, h: Housing,
                    faults: int, lost: int, spent: int)
    requires Tried(members, records, w, h, faults, lost) && Extends(w.rewritten, w.placed)
    requires |answers| == |members| == 1 && Isolated(members, answers, w, h, spent)
    ensures answers[0].Err? && h.landed && lost == 0 ==> spent >= 2
    ensures !h.landed ==> answers[0].Err? && faults > 0
  {
    if answers[0].Err? && h.landed && lost == 0 {
      NobodyHomeless(members, records, w, h, faults);
      NoneFailed(answers, Refusals(members, h.live, w.placed));
    }
  }

  /** A close at the station, as far as a request is told about it. */
  method CloseForRequest(store: BlockStore, members: seq<seq<Entry>>)
      returns (answers: seq<Outcome>, ghost w: FileWork, ghost h: Housing)
    requires Filed(store.records, store.files) && GroupOk(members)
    modifies store
    ensures Filed(store.records, store.files) && |answers| == |members|
    ensures store.records == InOrder(old(store.records), members, answers, w.placed)
    ensures Exact(old(store.records), members, answers, w.placed) && Extends(w.rewritten, w.placed)
    ensures old(store.faults) <= h.faults <= store.faults
    ensures Tried(members, old(store.records), w, h, h.faults - old(store.faults),
                  store.lostWrites - old(store.lostWrites))
    ensures Isolated(members, answers, w, h, store.faults - h.faults)
    ensures store.faults == old(store.faults) ==> forall i :: 0 <= i < |answers| ==> answers[i].Ok?
  {
    answers, w, h := CloseGroup.CloseGroup(store, members);
  }

  /** A batch closed at the commit station, here as a group of its own: a transaction that
      failed is tried again. */
  method CloseAtStation(store: BlockStore, members: seq<seq<Entry>>) returns (ok: bool, ghost h: Housing)
    requires |members| == 1 && Filed(store.records, store.files) && GroupOk(members)
    modifies store
    ensures Filed(store.records, store.files)
    ensures forall b: BlockId ::
              Rc(store.records, b) == Rc(old(store.records), b) + if ok then Adds(members[0], b) else 0
    ensures old(store.faults) <= h.faults <= store.faults && (store.faults == old(store.faults) ==> ok)
    ensures !ok && h.landed && store.lostWrites == old(store.lostWrites) ==> store.faults >= h.faults + 2
    ensures !h.landed ==> !ok && h.faults > old(store.faults)
  {
    ghost var before := store.records;
    var answers;
    ghost var w;
    answers, w, h := CloseForRequest(store, members);
    ok := answers[0].Ok?;
    FailedTwice(members, before, answers, w, h, h.faults - old(store.faults),
                store.lostWrites - old(store.lostWrites), store.faults - h.faults);
    OneCounts(before, members, answers, w.placed);
  }

  lemma OneCounts(blocks: Blocks, members: seq<seq<Entry>>, answers: seq<Outcome>, placed: map<BlockId, nat>)
    requires |answers| == |members| == 1 && Exact(blocks, members, answers, placed)
    ensures forall b: BlockId :: Rc(InOrder(blocks, members, answers, placed), b)
              == Rc(blocks, b) + if answers[0].Ok? then Adds(members[0], b) else 0
  {
    forall b: BlockId
      ensures Rc(InOrder(blocks, members, answers, placed), b)
           == Rc(blocks, b) + if answers[0].Ok? then Adds(members[0], b) else 0
    {
      InOrderCounts(blocks, members, answers, placed, b);
      assert members[..0] == [] && answers[..0] == [];
      AddsIsCount(members[0], b);
    }
  }

  /** A batch its own request closes: the first failure ends it. */
  method CloseByItself(store: BlockStore, entries: seq<Entry>) returns (ok: bool)
    requires Filed(store.records, store.files) && forall i :: 0 <= i < |entries| ==> EntryOk(entries[i])
    modifies store
    ensures Filed(store.records, store.files)
    ensures forall b: BlockId :: Rc(store.records, b) == Rc(old(store.records), b) + if ok then Adds(entries, b) else 0
    ensures store.faults >= old(store.faults) && (ok <==> store.faults == old(store.faults))
  {
    ghost var before := store.records;
    var answer, w := CommitBatch(store, entries, [entries]);
    ok := answer.Ok?;
    OneInOrder(before, entries, answer, w.placed);
    OneCounts(before, [entries], [answer], w.placed);
  }

  /** `flush_batch`: syncs the staged files, then closes the batch, at the commit station
      or alone. Afterwards all of `blocks` is counted, or no more than was before. Alone
      it fails exactly when something was refused; at the station, files in place and no
      write lost, only when the transaction and its repetition both were. */
  method FlushBatch(store: BlockStore, batch: BlockBatch, station: bool, ghost start: Blocks,
                    ghost flushed: seq<BlockId>, ghost blocks: seq<BlockId>)
      returns (ok: bool, ghost h: Option<Housing>)
    requires batch.Valid() && Filed(store.records, store.files)
    requires Flushed(store.records, start, flushed) && Accounted(flushed, batch.entries, blocks)
    modifies batch, store
    ensures batch.Valid() && batch.entries == [] && Filed(store.records, store.files)
    ensures Flushed(store.records, start, if ok then blocks else flushed)
    ensures store.faults >= old(store.faults) && (store.faults == old(store.faults) ==> ok)
    ensures !station ==> (ok <==> store.faults == old(store.faults))
    ensures !ok && h.Some? && h.value.landed && store.lostWrites == old(store.lostWrites) ==>
              store.faults >= h.value.faults + 2
    ensures station && !ok && h.None? ==> store.faults == old(store.faults) + 1 && store.trail == old(store.trail)
    ensures old(batch.entries) == [] ==> ok && store.faults == old(store.faults) && store.trail == old(store.trail)
  {
    h := None;
    if batch.entries == [] { return true, h; }
    var entries := batch.Take();
    var synced := store.Attempt();
    if !synced { return false, h; }
    if station {
      ghost var housing;
      ok, housing := CloseAtStation(store, [entries]);
      h := Some(housing);
    } else {
      ok := CloseByItself(store, entries);
    }
  }

  lemma OneInOrder(blocks: Blocks, entries: seq<Entry>, answer: Outcome, placed: map<BlockId, nat>)
    ensures InOrder(blocks, [entries], [answer], placed) == CommitOne(blocks, entries, answer, placed)
  {
    assert [entries][..0] == [] && [answer][..0] == [];
  }

  /** The first `done` blocks are counted over `start`; the batch owes those from
      there to the first `i`, which are `blocks` and `size` bytes. */
  ghost predicate Storing(records: Blocks, start: Blocks, entries: seq<Entry>, chunks: seq<Chunk>,
                          hash: seq<byte> -> BlockId,
                          i: nat, done: nat, blocks: seq<BlockId>, size: nat)
  {
    && done <= i <= |chunks| && Unbroken(chunks[..i]) && Unbroken(chunks[..done])
    && blocks == Addresses(chunks[..i], hash) && size == SizeOf(chunks[..i])
    && Flushed(records, start, Addresses(chunks[..done], hash))
    && Accounted(Addresses(chunks[..done], hash), entries, blocks)
  }

  /** One chunk, and a flush when it fills the batch, and only then. */
  method StoreChunk(store: BlockStore, batch: BlockBatch, station: bool, chunks: seq<Chunk>,
                    hash: seq<byte> -> BlockId, i: nat, blocks: seq<BlockId>, size: nat,
                    ghost start: Blocks, ghost done: nat)
      returns (ok: bool, blocks': seq<BlockId>, size': nat, ghost done': nat)
    requires batch.Valid() && |batch.entries| < batch.cap && Filed(store.records, store.files) && i < |chunks|
    requires Storing(store.records, start, batch.entries, chunks, hash, i, done, blocks, size)
    modifies batch, store
    ensures batch.Valid() && Filed(store.records, store.files) && store.faults >= old(store.faults)
    ensures ok ==>
              |batch.entries| < batch.cap &&
              Storing(store.records, start, batch.entries, chunks, hash, i + 1, done', blocks', size')
    ensures done' <= |chunks| && Unbroken(chunks[..done'])
    ensures Flushed(store.records, start, Addresses(chunks[..done'], hash))
    ensures store.faults == old(store.faults) && chunks[i].Bytes? ==> ok
    ensures |old(batch.entries)| + 1 < batch.cap ==> done' == done && store.trail == old(store.trail)
    ensures !station ==> (ok <==> store.faults == old(store.faults) && chunks[i].Bytes?)
  {
    ok, blocks', size', done' := false, blocks, size, done;
    if chunks[i].Broken? { return; }
    NextChunk(chunks, i, hash);
    var id := hash(chunks[i].bytes);
    OneMoreBlock(blocks, id);
    blocks', size' := blocks + [id], size + |chunks[i].bytes|;
    ok := Accumulate(store, batch, id);
    if !ok { return; }
    assert Accounted(Addresses(chunks[..done], hash), batch.entries, blocks');
    if |batch.entries| >= batch.cap {
      ghost var h;
      ok, h := FlushBatch(store, batch, station, start, Addresses(chunks[..done], hash), blocks');
      if ok { done' := i + 1; }
    }
  }

  /** `store_object`: on success every occurrence of the object's block list is
      counted once and nothing else is; on failure exactly the first `done` blocks
      are, those that earlier batches flushed. */
  method StoreObject(store: BlockStore, cap: nat, station: bool, chunks: seq<Chunk>, hash: seq<byte> -> BlockId)
      returns (r: Stored, ghost done: nat)
    requires Filed(store.records, store.files)
    modifies store
    ensures Filed(store.records, store.files)
    ensures done <= |chunks| && Unbroken(chunks[..done])
    ensures Flushed(store.records, old(store.records), Addresses(chunks[..done], hash))
    ensures r.StoredOk? ==>
              done == |chunks| && Unbroken(chunks) && r.blocks == Addresses(chunks, hash) && r.size == SizeOf(chunks)
    ensures store.faults >= old(store.faults)
    ensures store.faults == old(store.faults) && Unbroken(chunks) ==> r.StoredOk?
    ensures !station && r.StoredOk? ==> store.faults == old(store.faults)
  {
    var batch := new BlockBatch(cap);
    var blocks: seq<BlockId>, size := [], 0;
    ghost var start := store.records;
    done := 0;
    for i := 0 to |chunks|
      invariant batch.Valid() && |batch.entries| < batch.cap && Filed(store.records, store.files) && fresh(batch)
      invariant Storing(store.records, start, batch.entries, chunks, hash, i, done, blocks, size)
      invariant store.faults >= old(store.faults) && (!station ==> store.faults == old(store.faults))
    {
      var ok;
      ok, blocks, size, done := StoreChunk(store, batch, station, chunks, hash, i, blocks, size, start, done);
      if !ok { return StoredErr, done; }
    }
    assert chunks[..|chunks|] == chunks;
    ghost var h;
    var ok;
    ok, h := FlushBatch(store, batch, station, start, Addresses(chunks[..done], hash), blocks);
    if !ok { return StoredErr, done; }
    done := |chunks|;
    r := StoredOk(blocks, size);
  }
}
