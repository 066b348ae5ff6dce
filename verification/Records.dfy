/** The `_BLOCKS` records and the transactional primitives that move them. */
module Records {
  import opened Ids
  import opened Accounting

  /** A block record: the references it counts, and how deep its file lies. */
  datatype Record = Record(rc: nat, depth: nat)

  type Blocks = map<BlockId, Record>

  /** The three ways one decrement can resolve, and the subtraction below zero
      that a record counting no reference would be. */
  datatype Decrement = Missing | Decremented(record: Record) | Removed(record: Record) | Underflow

  /** References the records count for `id`; an absent record counts none. */
  function Rc(blocks: Blocks, id: BlockId): nat {
    if id in blocks then blocks[id].rc else 0
  }

  /** A block record counts at least one reference and names a file that is
      there. */
  ghost predicate Filed(blocks: Blocks, files: set<(BlockId, nat)>) {
    forall b :: b in blocks ==> blocks[b].rc >= 1 && (b, blocks[b].depth) in files
  }

  /** `bump_block_rc`: one more reference, or nothing when there is no record. */
  function Bump(blocks: Blocks, id: BlockId): (r: Option<Blocks>) {
    if id in blocks then Some(blocks[id := blocks[id].(rc := blocks[id].rc + 1)]) else None
  }

  /** `decrement_block_rc`: what one decrement of `id` finds. */
  function DecrementOf(blocks: Blocks, id: BlockId): (r: Decrement) {
    if id !in blocks then Missing
    else if blocks[id].rc == 1 then Removed(blocks[id])
    else if blocks[id].rc == 0 then Underflow
    else Decremented(blocks[id].(rc := blocks[id].rc - 1))
  }

  /** The records after that decrement commits. */
  function AfterDecrement(blocks: Blocks, id: BlockId): (r: Blocks) {
    match DecrementOf(blocks, id)
    case Missing => blocks
    case Underflow => blocks
    case Decremented(record) => blocks[id := record]
    case Removed(_) => blocks - {id}
  }

  /** Every id of `ids` can be recorded: it has a record to bump, or a file
      placed for it to name. */
  predicate Recordable(blocks: Blocks, ids: seq<BlockId>, placed: map<BlockId, nat>) {
    forall id :: id in ids ==> id in blocks || id in placed
  }

  /** One reference to `id`: a bump of the record there, or a fresh record that
      names the depth its file was placed at. */
  function RecordOne(blocks: Blocks, id: BlockId, placed: map<BlockId, nat>): (r: Blocks)
    requires id in blocks || id in placed
  {
    match Bump(blocks, id)
    case Some(bumped) => bumped
    case None => blocks[id := Record(1, placed[id])]
  }

  /** One reference per occurrence in `ids`, in order. */
  function RecordAll(blocks: Blocks, ids: seq<BlockId>, placed: map<BlockId, nat>): (r: Blocks)
    requires Recordable(blocks, ids, placed)
    ensures blocks.Keys <= r.Keys
    decreases |ids|
  {
    if ids == [] then blocks
    else
      RecordOne(RecordAll(blocks, ids[..|ids| - 1], placed), ids[|ids| - 1], placed)
  }

  /** Recording adds one reference per occurrence and nothing else. */
  lemma {:induction false} RecordAllCounts(blocks: Blocks, ids: seq<BlockId>, placed: map<BlockId, nat>, b: BlockId)
    requires Recordable(blocks, ids, placed)
    ensures Rc(RecordAll(blocks, ids, placed), b) == Rc(blocks, b) + Count(ids, b)
    decreases |ids|
  {
    if ids != [] {
      RecordAllCounts(blocks, ids[..|ids| - 1], placed, b);
      assert ids == ids[..|ids| - 1] + [ids[|ids| - 1]];
    }
  }

  /** Recording keeps the depth of a record that was there and takes the placed
      depth for one that was not. */
  lemma {:induction false} RecordAllDepths(blocks: Blocks, ids: seq<BlockId>, placed: map<BlockId, nat>, b: BlockId)
    requires Recordable(blocks, ids, placed)
    ensures b in RecordAll(blocks, ids, placed) <==> b in blocks || b in ids
    ensures b in blocks ==> RecordAll(blocks, ids, placed)[b].depth == blocks[b].depth
    ensures b !in blocks && b in ids ==> RecordAll(blocks, ids, placed)[b].depth == placed[b]
    ensures b !in ids && b in blocks ==> RecordAll(blocks, ids, placed)[b] == blocks[b]
    decreases |ids|
  {
    if ids != [] {
      RecordAllDepths(blocks, ids[..|ids| - 1], placed, b);
      assert ids == ids[..|ids| - 1] + [ids[|ids| - 1]];
    }
  }

  /** Recording two lists after one another is recording their concatenation. */
  lemma {:induction false} RecordAllConcat(blocks: Blocks, xs: seq<BlockId>, ys: seq<BlockId>,
                                           placed: map<BlockId, nat>)
    requires Recordable(blocks, xs + ys, placed)
    ensures Recordable(blocks, xs, placed)
    ensures Recordable(RecordAll(blocks, xs, placed), ys, placed)
    ensures RecordAll(RecordAll(blocks, xs, placed), ys, placed) == RecordAll(blocks, xs + ys, placed)
    decreases |ys|
  {
    assert Recordable(blocks, xs, placed) by {
      assert forall id :: id in xs ==> id in xs + ys;
    }
    assert forall id :: id in ys ==> id in xs + ys;
    forall id | id in ys ensures id in RecordAll(blocks, xs, placed) || id in placed {
      RecordAllDepths(blocks, xs, placed, id);
    }
    if ys == [] {
      assert xs + ys == xs;
    } else {
      var ys' := ys[..|ys| - 1];
      assert (xs + ys)[..|xs + ys| - 1] == xs + ys';
      RecordAllConcat(blocks, xs, ys', placed);
    }
  }

  /** Recording over files that are in place leaves every record its file. */
  lemma RecordAllFiled(blocks: Blocks, ids: seq<BlockId>, placed: map<BlockId, nat>, files: set<(BlockId, nat)>)
    requires Recordable(blocks, ids, placed) && Filed(blocks, files)
    requires forall id :: id in placed ==> (id, placed[id]) in files
    ensures Filed(RecordAll(blocks, ids, placed), files)
  {
    var after := RecordAll(blocks, ids, placed);
    forall b | b in after ensures after[b].rc >= 1 && (b, after[b].depth) in files {
      RecordAllCounts(blocks, ids, placed, b);
      RecordAllDepths(blocks, ids, placed, b);
    }
  }

  /** Every record of `from` is still there, and its file where it was. */
  ghost predicate Grown(from: Blocks, to: Blocks) {
    forall id :: id in from ==> id in to && to[id].depth == from[id].depth
  }

  lemma RecordAllGrows(blocks: Blocks, ids: seq<BlockId>, placed: map<BlockId, nat>)
    requires Recordable(blocks, ids, placed)
    ensures Grown(blocks, RecordAll(blocks, ids, placed))
  {
    forall b | b in blocks
      ensures b in RecordAll(blocks, ids, placed) && RecordAll(blocks, ids, placed)[b].depth == blocks[b].depth
    {
      RecordAllDepths(blocks, ids, placed, b);
    }
  }

  /** A bump adds one reference to a recorded block and touches no other. */
  lemma BumpCountsOne(blocks: Blocks, id: BlockId, b: BlockId)
    requires id in blocks
    ensures Bump(blocks, id).Some? && Rc(Bump(blocks, id).value, b) == Rc(blocks, b) + (if b == id then 1 else 0)
    ensures Count([id], b) == if b == id then 1 else 0
  {
  }

  /** A decrement takes one reference off a counted block and touches no other. */
  lemma DecrementCounts(blocks: Blocks, id: BlockId, b: BlockId)
    requires Rc(blocks, id) > 0
    ensures !DecrementOf(blocks, id).Missing? && !DecrementOf(blocks, id).Underflow?
    ensures Rc(AfterDecrement(blocks, id), b) == Rc(blocks, b) - (if b == id then 1 else 0)
  {
  }
}
