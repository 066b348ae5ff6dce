/** Closing a group of sealed batches: one set of files, one transaction, and a
    replay member by member when that transaction fails. */
module GroupCommit {
  import opened Ids
  import opened Records

  /** What a batch entry still needs: a staged temp file to rename, or bytes kept
      in case the record it deduplicated against is gone. */
  datatype Payload = Staged(at: nat) | Deduped

  /** One distinct block of one request, with the references it adds. */
  datatype Entry = Entry(id: BlockId, occurrences: nat, payload: Payload, depth: Option<nat>)

  datatype Outcome = Ok(written: nat, ignored: nat) | Err

  type Files = set<(BlockId, nat)>

  /** A depth a block's file can lie at. */
  predicate InRange(id: BlockId, depth: nat) { 1 <= depth <= |id| }

  /** The block has a file at this depth. */
  predicate Lies(files: Files, id: BlockId, depth: nat) { InRange(id, depth) && (id, depth) in files }

  predicate EntryOk(e: Entry) {
    && e.occurrences >= 1 && (e.payload.Staged? ==> InRange(e.id, e.payload.at))
    && e.depth == if e.payload.Staged? then Some(e.payload.at) else None
  }

  /** The references an entry adds, one per occurrence. */
  function Occurrences(e: Entry): seq<BlockId> {
    seq(e.occurrences, _ => e.id)
  }

  /** The references a member adds, entry by entry. */
  function Listing(entries: seq<Entry>): seq<BlockId> {
    if entries == [] then [] else Listing(entries[..|entries| - 1]) + Occurrences(entries[|entries| - 1])
  }

  function IdsOf(entries: seq<Entry>): set<BlockId> {
    set i | 0 <= i < |entries| :: entries[i].id
  }

  /** Entries whose block has no record when their turn comes: absent from
      `known` and from the entries before them. */
  function FreshIn(known: set<BlockId>, entries: seq<Entry>): nat {
    if entries == [] then 0
    else
      var before := entries[..|entries| - 1];
      FreshIn(known, before) + if entries[|entries| - 1].id in known + IdsOf(before) then 0 else 1
  }

  /** The two lists differ at most in where the files went. */
  predicate SameEntries(a: seq<Entry>, b: seq<Entry>) {
    |a| == |b| && forall i :: 0 <= i < |a| ==> a[i].(depth := None) == b[i].(depth := None)
  }

  lemma IdsStep(entries: seq<Entry>, i: nat)
    requires i < |entries|
    ensures IdsOf(entries[..i + 1]) == IdsOf(entries[..i]) + {entries[i].id}
  {
    var longer, shorter := entries[..i + 1], entries[..i];
    forall k | 0 <= k < i ensures longer[k] == shorter[k] { }
    assert longer[i] == entries[i];
    forall x | x in IdsOf(longer) ensures x in IdsOf(shorter) + {entries[i].id} {
      var k :| 0 <= k < |longer| && longer[k].id == x;
      if k < i { assert shorter[k].id == x; }
    }
    forall x | x in IdsOf(shorter) ensures x in IdsOf(longer) {
      var k :| 0 <= k < |shorter| && shorter[k].id == x;
      assert longer[k].id == x;
    }
  }

  lemma {:induction false} ListingIds(entries: seq<Entry>, x: BlockId)
    requires forall i :: 0 <= i < |entries| ==> entries[i].occurrences >= 1
    ensures x in Listing(entries) <==> x in IdsOf(entries)
    decreases |entries|
  {
    if entries != [] {
      var n := |entries| - 1;
      ListingIds(entries[..n], x);
      IdsStep(entries, n);
      assert entries[..n + 1] == entries;
      assert Occurrences(entries[n])[0] == entries[n].id;
    }
  }

  /** The records after one member has committed alone. A member whose blocks
      are not all recordable changes nothing. */
  function CommitOne(blocks: Blocks, entries: seq<Entry>, answer: Outcome, placed: map<BlockId, nat>): Blocks {
    if answer.Ok? && Recordable(blocks, Listing(entries), placed)
    then RecordAll(blocks, Listing(entries), placed)
    else blocks
  }

  /** The members answered Ok, committed one at a time in order; the others add
      nothing. */
  function InOrder(blocks: Blocks, members: seq<seq<Entry>>, answers: seq<Outcome>, placed: map<BlockId, nat>): Blocks
    requires |members| == |answers|
    decreases |members|
  {
    if members == [] then blocks
    else
      var n := |members| - 1;
      CommitOne(InOrder(blocks, members[..n], answers[..n], placed), members[n], answers[n], placed)
  }

  function EntryCount(members: seq<seq<Entry>>): nat {
    if members == [] then 0 else EntryCount(members[..|members| - 1]) + |members[|members| - 1]|
  }

  /** The block store under the stripes of the group: nobody else writes the
      records or files of its blocks. `trail` collects every durable state passed
      through, which are the states a kill can leave; `faults` counts the
      operations the disk or the database refused, `lostWrites` the block writes
      among them, and `strayed` lists the files of those that failed after their
      rename. */
  class BlockStore {
    var records: Blocks
    var files: Files
    ghost var trail: seq<(Blocks, Files)>
    ghost var faults: nat
    ghost var lostWrites: nat
    ghost var strayed: seq<(BlockId, nat)>

    constructor ()
      ensures records == map[] && files == {} && trail == [] && faults == 0 && lostWrites == 0 && strayed == []
    {
      records, files, trail, faults, lostWrites, strayed := map[], {}, [], 0, 0, [];
    }

    /** Whether the environment lets an operation through. */
    method Attempt() returns (ok: bool)
      modifies this`faults
      ensures faults == old(faults) + if ok then 0 else 1
    {
      ok := *;
      if !ok { faults := faults + 1; }
    }

    /** `has_live_record`: whether there is a record, unless the read fails. */
    method HasLiveRecord(id: BlockId) returns (live: Option<bool>)
      modifies this`faults
      ensures faults == old(faults) + if live.Some? then 0 else 1
      ensures live.Some? ==> live.value == (id in records)
    {
      var readable := Attempt();
      live := if readable then Some(id in records) else None;
    }

    /** `choose_depth`: where a file of the block already lies, the shallowest if
        there are several; otherwise wherever the policy likes. */
    method ChooseDepth(id: BlockId) returns (depth: nat)
      ensures InRange(id, depth) && forall d :: Lies(files, id, d) ==> Lies(files, id, depth) && depth <= d
    {
      for level := 1 to |id| + 1
        invariant forall d: nat :: Lies(files, id, d) ==> level <= d
      {
        if (id, level) in files { return level; }
      }
      assert InRange(id, 1);
      depth :| InRange(id, depth);
    }

    /** `write_block`: a failure may come before or after the rename. After it, the
        file has strayed: it is in place, and nobody was told. */
    method WriteBlock(id: BlockId, depth: nat) returns (ok: bool)
      requires InRange(id, depth)
      modifies this`files, this`trail, this`faults, this`lostWrites, this`strayed
      ensures strayed == old(strayed) || (!ok && strayed == old(strayed) + [(id, depth)])
      ensures files == if ok || strayed != old(strayed) then old(files) + {(id, depth)} else old(files)
      ensures trail == old(trail) + [(records, files)]
      ensures faults >= old(faults) && (ok <==> faults == old(faults))
      ensures lostWrites == old(lostWrites) + if ok then 0 else 1
    {
      var renamed := Attempt();
      if renamed { files := files + {(id, depth)}; }
      trail := trail + [(records, files)];
      var synced := Attempt();
      ok := renamed && synced;
      if renamed && !synced { strayed := strayed + [(id, depth)]; }
      if !ok { lostWrites := lostWrites + 1; }
    }

    /** One staged file is renamed into place. */
    method LandOne(id: BlockId, depth: nat) returns (ok: bool)
      modifies this`files, this`trail, this`faults
      ensures files == if ok then old(files) + {(id, depth)} else old(files)
      ensures trail == if ok then old(trail) + [(records, files)] else old(trail)
      ensures faults == old(faults) + if ok then 0 else 1
    {
      ok := Attempt();
      if ok {
        files := files + {(id, depth)};
        trail := trail + [(records, files)];
      }
    }

    /** `commit`: publishes the transaction's copy, or changes nothing. */
    method Commit(tx: Blocks) returns (ok: bool)
      modifies this`records, this`trail, this`faults
      ensures records == if ok then tx else old(records)
      ensures trail == old(trail) + [(records, files)]
      ensures faults == old(faults) + if ok then 0 else 1
    {
      ok := Attempt();
      if ok { records := tx; }
      trail := trail + [(records, files)];
    }
  }

  /** `record_entry`: the first occurrence inserts or bumps, every later one
      bumps; the store may fail any of them. */
  method RecordEntry(store: BlockStore, tx: Blocks, e: Entry, ghost placed: map<BlockId, nat>)
      returns (ok: bool, inserted: bool, after: Blocks)
    requires e.occurrences >= 1
    requires e.id !in tx ==> e.id in placed && e.depth == Some(placed[e.id])
    modifies store`faults
    ensures ok ==> inserted == (e.id !in tx) && after == RecordAll(tx, Occurrences(e), placed)
    ensures store.faults >= old(store.faults) && (ok <==> store.faults == old(store.faults))
  {
    ok := store.Attempt();
    inserted, after := false, tx;
    if !ok { return; }
    ghost var occ := Occurrences(e);
    assert occ[..1] == [e.id] && occ[..1][..0] == [];
    match Bump(after, e.id) {
      case Some(bumped) =>
        after := bumped;
      case None =>
        after := after[e.id := Record(1, e.depth.value)];
        inserted := true;
    }
    assert after == RecordAll(tx, occ[..1], placed) by { RecordAllOne(tx, e.id, placed); }
    for i := 1 to e.occurrences
      invariant ok && store.faults == old(store.faults)
      invariant inserted == (e.id !in tx) && e.id in after
      invariant Recordable(tx, occ[..i], placed) && after == RecordAll(tx, occ[..i], placed)
    {
      ok := store.Attempt();
      if !ok { return; }
      assert occ[..i + 1][..i] == occ[..i] && occ[..i + 1][i] == e.id;
      after := Bump(after, e.id).value;
    }
    assert occ[..e.occurrences] == Occurrences(e);
  }

  lemma RecordAllOne(blocks: Blocks, id: BlockId, placed: map<BlockId, nat>)
    requires id in blocks || id in placed
    ensures RecordAll(blocks, [id], placed) == RecordOne(blocks, id, placed)
  {
    assert [id][..0] == [];
  }

  // ------------------------------------------------------ one member's records

  /** Every entry has a record to bump or knows the depth of the file placed
      for it. */
  ghost predicate Ready(tx: Blocks, entries: seq<Entry>, placed: map<BlockId, nat>) {
    forall i :: 0 <= i < |entries| ==>
      entries[i].occurrences >= 1 &&
      (entries[i].id !in tx ==> entries[i].id in placed && entries[i].depth == Some(placed[entries[i].id]))
  }

  lemma ReadyIsRecordable(tx: Blocks, entries: seq<Entry>, placed: map<BlockId, nat>)
    requires Ready(tx, entries, placed)
    ensures Recordable(tx, Listing(entries), placed)
  {
    forall x | x in Listing(entries) ensures x in tx || x in placed { ListingIds(entries, x); }
  }

  lemma {:induction false} RecordedKeys(tx: Blocks, entries: seq<Entry>, placed: map<BlockId, nat>)
    requires Ready(tx, entries, placed) && Recordable(tx, Listing(entries), placed)
    ensures RecordAll(tx, Listing(entries), placed).Keys == tx.Keys + IdsOf(entries)
  {
    forall x: BlockId ensures x in RecordAll(tx, Listing(entries), placed) <==> x in tx.Keys + IdsOf(entries) {
      ListingIds(entries, x);
      RecordAllDepths(tx, Listing(entries), placed, x);
    }
  }

  /** One more entry of a member. */
  lemma RecordStep(tx: Blocks, entries: seq<Entry>, placed: map<BlockId, nat>, i: nat)
    requires Ready(tx, entries, placed) && i < |entries|
    requires Recordable(tx, Listing(entries[..i]), placed)
    ensures var before := RecordAll(tx, Listing(entries[..i]), placed);
            && Recordable(tx, Listing(entries[..i + 1]), placed)
            && Recordable(before, Occurrences(entries[i]), placed)
            && RecordAll(before, Occurrences(entries[i]), placed) == RecordAll(tx, Listing(entries[..i + 1]), placed)
            && (entries[i].id in before <==> entries[i].id in tx.Keys + IdsOf(entries[..i]))
            && FreshIn(tx.Keys, entries[..i + 1])
               == FreshIn(tx.Keys, entries[..i]) + if entries[i].id in before then 0 else 1
  {
    assert entries[..i + 1][..i] == entries[..i];
    assert Ready(tx, entries[..i], placed) && Ready(tx, entries[..i + 1], placed);
    RecordedKeys(tx, entries[..i], placed);
    ReadyIsRecordable(tx, entries[..i + 1], placed);
    RecordAllConcat(tx, Listing(entries[..i]), Occurrences(entries[i]), placed);
  }

  /** The entries of one member inside a transaction, and how many were new. */
  method RecordMember(store: BlockStore, tx: Blocks, entries: seq<Entry>, ghost placed: map<BlockId, nat>)
      returns (ok: bool, written: nat, ignored: nat, after: Blocks)
    requires Ready(tx, entries, placed)
    modifies store`faults
    ensures store.faults >= old(store.faults) && (ok <==> store.faults == old(store.faults))
    ensures ok ==> Recordable(tx, Listing(entries), placed) && after == RecordAll(tx, Listing(entries), placed)
    ensures ok ==> written == FreshIn(tx.Keys, entries) && written + ignored == |entries|
  {
    ok, written, ignored, after := true, 0, 0, tx;
    for i := 0 to |entries|
      invariant ok && store.faults == old(store.faults)
      invariant Recordable(tx, Listing(entries[..i]), placed)
      invariant after == RecordAll(tx, Listing(entries[..i]), placed)
      invariant written == FreshIn(tx.Keys, entries[..i]) && written + ignored == i
    {
      RecordStep(tx, entries, placed, i);
      var inserted;
      ok, inserted, after := RecordEntry(store, after, entries[i], placed);
      if !ok { return; }
      if inserted { written := written + 1; } else { ignored := ignored + 1; }
    }
    assert entries[..|entries|] == entries;
  }
}
