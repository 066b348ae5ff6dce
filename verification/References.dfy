/** Giving references back and taking them: `release_blocks` and
    `acquire_references`, one occurrence at a time. */
module References {
  import opened Ids
  import opened Accounting
  import opened Records
  import opened GroupCommit
  import opened Sequences

  /** The records after one decrement per occurrence, in order. */
  function ReleaseAll(blocks: Blocks, ids: seq<BlockId>): Blocks
    decreases |ids|
  {
    if ids == [] then blocks
    else AfterDecrement(ReleaseAll(blocks, ids[..|ids| - 1]), ids[|ids| - 1])
  }

  ghost predicate Counting(blocks: Blocks) {
    forall b :: b in blocks ==> blocks[b].rc >= 1
  }

  /** Releasing takes one reference off per occurrence, and none that is not
      counted; a record goes exactly when its last one does, and keeps its depth
      until then. */
  lemma {:induction false} ReleaseAllCounts(blocks: Blocks, ids: seq<BlockId>, b: BlockId)
    requires Counting(blocks)
    ensures Rc(ReleaseAll(blocks, ids), b)
         == if Count(ids, b) <= Rc(blocks, b) then Rc(blocks, b) - Count(ids, b) else 0
    ensures b in ReleaseAll(blocks, ids) <==> Rc(blocks, b) > Count(ids, b)
    ensures b in ReleaseAll(blocks, ids) ==> b in blocks && ReleaseAll(blocks, ids)[b].depth == blocks[b].depth
    decreases |ids|
  {
    if ids != [] {
      var n := |ids| - 1;
      ReleaseAllCounts(blocks, ids[..n], b);
      assert ids == ids[..n] + [ids[n]];
      CountAppend(ids[..n], [ids[n]], b);
    }
  }

  /** Taking a list of references and giving the same list back is no change at
      all, whatever the order of either. */
  lemma TakeThenGiveBack(blocks: Blocks, ids: seq<BlockId>)
    requires Counting(blocks) && Recordable(blocks, ids, map[])
    ensures ReleaseAll(RecordAll(blocks, ids, map[]), ids) == blocks
  {
    var taken := RecordAll(blocks, ids, map[]);
    forall b: BlockId ensures Count(ids, b) <= Rc(taken, b) { RecordAllCounts(blocks, ids, map[], b); }
    forall b | b in taken ensures taken[b].rc >= 1 {
      RecordAllCounts(blocks, ids, map[], b);
      RecordAllDepths(blocks, ids, map[], b);
    }
    var back := ReleaseAll(taken, ids);
    forall b: BlockId ensures (b in back <==> b in blocks) && (b in blocks ==> back[b] == blocks[b]) {
      RecordAllCounts(blocks, ids, map[], b);
      RecordAllDepths(blocks, ids, map[], b);
      ReleaseAllCounts(taken, ids, b);
    }
  }

  /** `decrement_one_block`: decrement and commit, then unlink when the last
      reference went. A block that is not there is no failure; a failed unlink
      leaves the file behind. */
  method DecrementOneBlock(store: BlockStore, id: BlockId) returns (ok: bool)
    requires Filed(store.records, store.files)
    modifies store
    ensures Filed(store.records, store.files)
    ensures store.records == if ok then AfterDecrement(old(store.records), id) else old(store.records)
    ensures store.files == old(store.files) ||
            (id in old(store.records) && id !in store.records &&
             store.files == old(store.files) - {(id, old(store.records)[id].depth)})
    ensures id !in old(store.records) ==> ok && store.faults == old(store.faults)
    ensures store.faults >= old(store.faults)
    ensures store.faults == old(store.faults) ==>
              ok && store.files == if id in old(store.records) && id !in store.records
                                   then old(store.files) - {(id, old(store.records)[id].depth)}
                                   else old(store.files)
  {
    var found := DecrementOf(store.records, id);
    if found.Missing? { return true; }
    ok := store.Commit(AfterDecrement(store.records, id));
    if ok && found.Removed? {
      var unlinked := store.Attempt();
      if unlinked { store.files := store.files - {(id, found.record.depth)}; }
    }
  }

  /** Files of records that went, still there. */
  function Leftover(start: Blocks, after: Blocks, files: Files): Files {
    set f | f in files && f.0 in start && f.0 !in after && f.1 == start[f.0].depth
  }

  /** The first `i` occurrences are released or lost. No file is gone but those of
      records that went; each reference lost, and each such file that is still there,
      is one of the faults since `f0`. */
  ghost predicate ReleasedSoFar(store: BlockStore, ids: seq<BlockId>, i: nat, released: seq<BlockId>,
                                lost: seq<BlockId>,
                                start: Blocks, files: Files, f0: nat)
    reads store
    requires i <= |ids|
  {
    && Filed(store.records, store.files) && store.records == ReleaseAll(start, released)
    && Split(ids, i, released, lost)
    && |lost| + |Leftover(start, store.records, store.files)| <= store.faults - f0
    && FilesKept(start, store.records, files, store.files)
    && (lost == [] ==> released == ids[..i])
  }

  /** One more occurrence. */
  method ReleaseOne(store: BlockStore, ids: seq<BlockId>, i: nat, released: seq<BlockId>, lost: seq<BlockId>,
                    ghost start: Blocks, ghost files: Files, ghost f0: nat)
      returns (released': seq<BlockId>, lost': seq<BlockId>)
    requires i < |ids| && Counting(start) && ReleasedSoFar(store, ids, i, released, lost, start, files, f0)
    modifies store
    ensures ReleasedSoFar(store, ids, i + 1, released', lost', start, files, f0)
  {
    var id := ids[i];
    SplitStep(ids, released, lost, i);
    ReleaseAllCounts(start, released, id);
    ghost var was, left := store.records, store.files;
    var ok := DecrementOneBlock(store, id);
    assert ids[..i + 1] == ids[..i] + [id] && (released + [id])[..|released|] == released;
    FilesStep(start, was, id, files, left);
    released', lost' := if ok then released + [id] else released, if ok then lost else lost + [id];
  }

  /** `release_blocks`: one occurrence at a time, never giving up. What could not
      be released stays counted; each such reference, and each file left behind of a
      record that went, had a failed attempt of its own. */
  method ReleaseBlocks(store: BlockStore, ids: seq<BlockId>) returns (released: seq<BlockId>, lost: seq<BlockId>)
    requires Filed(store.records, store.files)
    modifies store
    ensures Filed(store.records, store.files)
    ensures store.records == ReleaseAll(old(store.records), released)
    ensures forall b: BlockId :: Count(released, b) + Count(lost, b) == Count(ids, b)
    ensures |lost| + |Leftover(old(store.records), store.records, store.files)| <= store.faults - old(store.faults)
    ensures FilesKept(old(store.records), store.records, old(store.files), store.files)
    ensures store.faults >= old(store.faults) && store.files <= old(store.files)
    ensures store.faults == old(store.faults) ==>
              released == ids && lost == [] &&
              FilesLeft(old(store.records), store.records, old(store.files), store.files)
  {
    released, lost := [], [];
    ghost var start, files, f0 := store.records, store.files, store.faults;
    for i := 0 to |ids|
      invariant ReleasedSoFar(store, ids, i, released, lost, start, files, f0)
    {
      released, lost := ReleaseOne(store, ids, i, released, lost, start, files, f0);
    }
    assert ids[..|ids|] == ids;
    if store.faults == f0 { NothingLeft(start, store.records, files, store.files); }
  }

  /** No file is gone but those of records that went. */
  ghost predicate FilesKept(start: Blocks, after: Blocks, files: Files, files': Files) {
    files' <= files &&
    forall f :: f in files && !(f.0 in start && f.0 !in after && f.1 == start[f.0].depth) ==> f in files'
  }

  /** The files of the records that went are gone, at their recorded depth; no
      other file is. */
  ghost predicate FilesLeft(start: Blocks, after: Blocks, files: Files, files': Files) {
    forall f :: f in files' <==> f in files && !(f.0 in start && f.0 !in after && f.1 == start[f.0].depth)
  }

  lemma NothingLeft(start: Blocks, after: Blocks, files: Files, files': Files)
    requires FilesKept(start, after, files, files') && |Leftover(start, after, files')| <= 0
    ensures FilesLeft(start, after, files, files')
  {
    forall f | f in files' ensures !(f.0 in start && f.0 !in after && f.1 == start[f.0].depth) {
      assert f !in Leftover(start, after, files');
    }
  }

  /** One decrement: a file that is unlinked with its record is neither missing nor left
      over; one that is not is left over, and nothing else changes. */
  lemma FilesStep(start: Blocks, was: Blocks, id: BlockId, files: Files, left: Files)
    requires FilesKept(start, was, files, left) && (id in was ==> id in start && was[id].depth == start[id].depth)
    ensures var after := AfterDecrement(was, id);
            && FilesKept(start, after, files, left)
            && |Leftover(start, after, left)| <= |Leftover(start, was, left)| + 1
            && (!(id in was && id !in after) ==> Leftover(start, after, left) == Leftover(start, was, left))
            && (id in was && id !in after ==>
                  FilesKept(start, after, files, left - {(id, was[id].depth)}) &&
                  |Leftover(start, after, left - {(id, was[id].depth)})| <= |Leftover(start, was, left)|)
  {
    var after, had := AfterDecrement(was, id), Leftover(start, was, left);
    if id in was && id !in after {
      var f := (id, was[id].depth);
      SubsetIsSmaller(Leftover(start, after, left), had + {f});
      SubsetIsSmaller(Leftover(start, after, left - {f}), had);
    } else {
      assert Leftover(start, after, left) == had;
    }
  }

  /** Among the first `i` occurrences, those released and those lost. */
  ghost predicate Split(ids: seq<BlockId>, i: nat, released: seq<BlockId>, lost: seq<BlockId>)
    requires i <= |ids|
  {
    forall b: BlockId :: Count(released, b) + Count(lost, b) == Count(ids[..i], b)
  }

  lemma SplitStep(ids: seq<BlockId>, released: seq<BlockId>, lost: seq<BlockId>, i: nat)
    requires i < |ids| && Split(ids, i, released, lost)
    ensures Split(ids, i + 1, released + [ids[i]], lost) && Split(ids, i + 1, released, lost + [ids[i]])
  {
    assert ids[..i + 1] == ids[..i] + [ids[i]];
    forall b: BlockId
      ensures Count(released + [ids[i]], b) + Count(lost, b) == Count(ids[..i + 1], b)
      ensures Count(released, b) + Count(lost + [ids[i]], b) == Count(ids[..i + 1], b)
    {
      CountAppend(released, [ids[i]], b);
      CountAppend(lost, [ids[i]], b);
      CountAppend(ids[..i], [ids[i]], b);
      assert Count(released, b) + Count(lost, b) == Count(ids[..i], b);
    }
  }

  datatype Bumped = Held | Gone | BumpError | NoReport(committed: bool)

  /** One bump under the block's stripe. It may fail, or never report whether it
      committed. */
  method BumpOne(store: BlockStore, id: BlockId) returns (o: Bumped)
    requires Filed(store.records, store.files)
    modifies store`records, store`trail, store`faults
    ensures Filed(store.records, store.files)
    ensures o.Gone? <==> id !in old(store.records)
    ensures o.Held? || o == NoReport(true) ==> Bump(old(store.records), id) == Some(store.records)
    ensures o.Gone? || o.BumpError? || o == NoReport(false) ==> store.records == old(store.records)
    ensures store.faults >= old(store.faults) && (store.faults == old(store.faults) <==> o.Held? || o.Gone?)
  {
    match Bump(store.records, id) {
      case None => o := Gone;
      case Some(bumped) =>
        var committed := store.Commit(bumped);
        var reported := store.Attempt();
        o := if !reported then NoReport(committed) else if committed then Held else BumpError;
    }
  }

  /** Releases what a refused list had taken. */
  method GiveBack(store: BlockStore, taken: seq<BlockId>, ghost start: Blocks) returns (lost: seq<BlockId>)
    requires Counting(start) && Recordable(start, taken, map[])
    requires store.records == RecordAll(start, taken, map[]) && Filed(store.records, store.files)
    modifies store
    ensures Filed(store.records, store.files)
    ensures forall b: BlockId :: Rc(store.records, b) == Rc(start, b) + Count(lost, b) &&
              Count(lost, b) <= Count(taken, b)
    ensures |lost| <= store.faults - old(store.faults)
    ensures store.faults == old(store.faults) ==>
              lost == [] && store.records == start && store.files == old(store.files)
  {
    ghost var all, files := store.records, store.files;
    var released;
    released, lost := ReleaseBlocks(store, taken);
    GivenBack(start, taken, released, lost);
    if store.faults == old(store.faults) {
      forall f | f in files ensures f in store.files { RecordAllDepths(start, taken, map[], f.0); }
    }
  }

  lemma PartOf(ids: seq<BlockId>, n: nat)
    requires n <= |ids|
    ensures ids[..n] <= ids && forall b: BlockId :: Count(ids[..n], b) <= Count(ids, b)
  {
    assert ids == ids[..n] + ids[n..];
    forall b: BlockId ensures Count(ids[..n], b) <= Count(ids, b) { CountAppend(ids[..n], ids[n..], b); }
  }

  datatype Acquired = Taken | Refused | StoreError | TaskLost

  /** `acquire_references`: one reference per occurrence, or none. A block that is
      not there refuses the whole list and gives back what was taken; so does a
      bump that never reported. A store error returns at once and leaves what was
      taken counted, the list up to some point. What a failure leaves counted is
      never more than the list asked for, and after a refusal or a lost report no more
      than there were faults. Without faults the list is taken exactly
      when every block is there, and a refusal changes nothing at all. */
  method AcquireReferences(store: BlockStore, ids: seq<BlockId>) returns (r: Acquired, ghost leaked: seq<BlockId>)
    requires Filed(store.records, store.files)
    modifies store
    ensures Filed(store.records, store.files)
    ensures r.Taken? ==>
              Recordable(old(store.records), ids, map[]) && store.records == RecordAll(old(store.records), ids, map[])
    ensures r.Taken? ==> store.files == old(store.files)
    ensures forall b: BlockId :: Rc(store.records, b)
              == Rc(old(store.records), b) + if r.Taken? then Count(ids, b) else Count(leaked, b)
    ensures !r.Taken? ==> forall b: BlockId :: Count(leaked, b) <= Count(ids, b)
    ensures r.StoreError? ==> leaked <= ids && store.faults > old(store.faults)
    ensures r.Refused? ==> !Recordable(old(store.records), ids, map[])
    ensures r.Refused? || r.TaskLost? ==> |leaked| <= store.faults - old(store.faults)
    ensures r.TaskLost? ==> store.faults > old(store.faults)
    ensures store.faults >= old(store.faults) && (r.Taken? ==> store.faults == old(store.faults))
    ensures store.faults == old(store.faults) ==>
              (r.Taken? <==> Recordable(old(store.records), ids, map[])) &&
              (!r.Taken? ==> r.Refused? && store.records == old(store.records) && store.files == old(store.files))
  {
    ghost var start, files := store.records, store.files;
    var taken: seq<BlockId> := [];
    leaked := [];
    for i := 0 to |ids|
      invariant taken == ids[..i] && Recordable(start, taken, map[]) && store.records == RecordAll(start, taken, map[])
      invariant store.files == files && store.faults == old(store.faults)
      invariant Filed(store.records, store.files)
    {
      var id := ids[i];
      RecordAllDepths(start, taken, map[], id);
      assert ids[..i + 1] == ids[..i] + [id] && (taken + [id])[..i] == taken;
      var o := BumpOne(store, id);
      match o {
        case Held =>
          taken := taken + [id];
        case BumpError =>
          PartOf(ids, i);
          forall b: BlockId
            ensures Rc(store.records, b) == Rc(start, b) + Count(taken, b)
          {
            RecordAllCounts(start, taken, map[], b);
          }
          return StoreError, taken;
        case Gone =>
          assert id in ids && id !in start;
          PartOf(ids, i);
          leaked := GiveBack(store, taken, start);
          return Refused, leaked;
        case NoReport(committed) =>
          PartOf(ids, i + 1);
          leaked := AfterLostBump(store, id, taken, start, committed);
          return TaskLost, leaked;
      }
    }
    assert ids[..|ids|] == ids;
    forall b: BlockId
      ensures Rc(store.records, b) == Rc(start, b) + Count(ids, b)
    {
      RecordAllCounts(start, ids, map[], b);
    }
    r := Taken;
  }

  /** The give-back after a bump that never reported; if that bump had committed,
      its reference stays counted. */
  method AfterLostBump(store: BlockStore, id: BlockId, taken: seq<BlockId>, ghost start: Blocks, ghost committed: bool)
      returns (ghost leaked: seq<BlockId>)
    requires Counting(start) && Recordable(start, taken, map[]) && id in start
    requires Filed(store.records, store.files)
    requires store.records
          == if committed then RecordAll(start, taken + [id], map[]) else RecordAll(start, taken, map[])
    modifies store
    ensures Filed(store.records, store.files)
    ensures forall b: BlockId :: Rc(store.records, b) == Rc(start, b) + Count(leaked, b) &&
              Count(leaked, b) <= Count(taken + [id], b)
    ensures |leaked| <= store.faults - old(store.faults) + 1
    ensures store.faults >= old(store.faults)
  {
    assert (taken + [id])[..|taken|] == taken;
    forall b: BlockId ensures Count(taken, b) <= Rc(store.records, b) {
      RecordAllCounts(start, taken, map[], b);
      if committed { RecordAllCounts(start, taken + [id], map[], b); CountAppend(taken, [id], b); }
    }
    ghost var all := store.records;
    var released, lost := ReleaseBlocks(store, taken);
    leaked := if committed then lost + [id] else lost;
    forall b: BlockId
      ensures Rc(store.records, b) == Rc(start, b) + Count(leaked, b) && Count(leaked, b) <= Count(taken + [id], b)
    {
      RecordAllCounts(start, taken, map[], b);
      ReleaseAllCounts(all, released, b);
      CountAppend(lost, [id], b);
      CountAppend(taken, [id], b);
      if committed { RecordAllCounts(start, taken + [id], map[], b); }
    }
  }

  lemma GivenBack(start: Blocks, taken: seq<BlockId>, released: seq<BlockId>, lost: seq<BlockId>)
    requires Counting(start) && Recordable(start, taken, map[])
    requires forall b: BlockId :: Count(released, b) + Count(lost, b) == Count(taken, b)
    ensures forall b: BlockId :: Rc(ReleaseAll(RecordAll(start, taken, map[]), released), b)
              == Rc(start, b) + Count(lost, b)
    ensures released == taken ==> ReleaseAll(RecordAll(start, taken, map[]), released) == start
  {
    var all := RecordAll(start, taken, map[]);
    forall b | b in all ensures all[b].rc >= 1 {
      RecordAllCounts(start, taken, map[], b);
      RecordAllDepths(start, taken, map[], b);
    }
    forall b: BlockId ensures Rc(ReleaseAll(all, released), b) == Rc(start, b) + Count(lost, b) {
      RecordAllCounts(start, taken, map[], b);
      ReleaseAllCounts(all, released, b);
    }
    TakeThenGiveBack(start, taken);
  }
}
