/** What dropping a bucket's tree leaks, and how a write can come too late for the
    walk that empties it. */
module ProtocolTeardown {
  import opened Ids
  import opened Accounting
  import opened Records
  import opened Protocol
  import opened ProtocolFiles
  import opened Holders

  /** Dropping a tree leaks the references of the records still in it. */
  lemma DropLeaks(s: State, bucket: string, b: BlockId)
    ensures Count(DoDropBucket(s, bucket).leaked, b)
              == Count(s.leaked, b) + Refs(InBucket(s.objects, bucket), Listed, b)
  {
    var gone := set k | k in s.objects && k.bucket == bucket;
    assert Only(s.objects, gone) == InBucket(s.objects, bucket);
    CountAppend(s.leaked, Flat(Only(s.objects, gone), Listed), b);
    FlatCounts(Only(s.objects, gone), Listed, b);
  }

  lemma {:induction false} NothingHeld<K(!new)>(m: map<K, seq<BlockId>>, b: BlockId)
    requires forall k :: k in m ==> m[k] == []
    ensures Refs(m, Listed, b) == 0
    decreases |m|
  {
    if k :| k in m {
      CardDrop(m, k);
      NothingHeld(m - {k}, b);
      RefsDrop(m, Listed, k, b);
    }
  }

  /** It leaks nothing exactly when no object left in the bucket has a block. */
  lemma DropLeaksExactly(s: State, bucket: string)
    ensures (forall b: BlockId :: Count(DoDropBucket(s, bucket).leaked, b) == Count(s.leaked, b))
       <==> (forall k :: k in s.objects && k.bucket == bucket ==> s.objects[k] == [])
  {
    var mine := InBucket(s.objects, bucket);
    if forall k :: k in s.objects && k.bucket == bucket ==> s.objects[k] == [] {
      forall b: BlockId ensures Count(DoDropBucket(s, bucket).leaked, b) == Count(s.leaked, b) {
        DropLeaks(s, bucket, b);
        NothingHeld(mine, b);
      }
    }
    forall k | k in s.objects && k.bucket == bucket && s.objects[k] != []
      ensures Count(DoDropBucket(s, bucket).leaked, s.objects[k][0]) > Count(s.leaked, s.objects[k][0])
    {
      DropLeaks(s, bucket, s.objects[k][0]);
      RefsDrop(mine, Listed, k, s.objects[k][0]);
    }
  }

  // ------------------------------------------------------ a write too late

  function OneSealed(n: nat, goal: Goal, id: BlockId): State
    requires n > 0
  {
    Init(n).(tasks := map[0 := Parked(goal, [], [id], None, true)])
  }

  /** The write has its reference, and the record is still to come. */
  function AboutToPublish(n: nat, goal: Goal, id: BlockId, d: nat): State
    requires n > 0
  {
    Init(n).(tasks := map[0 := Publishing(goal, [id]), 1 := Done(Finished)],
             blocks := map[id := Record(1, d)], files := {(id, d)})
  }

  lemma OneSealedRun(n: nat, goal: Goal, id: BlockId) returns (run: seq<Action>)
    requires n > 0 && goal.ObjectGoal?
    ensures Leads(Init(n), run, OneSealed(n, goal, id))
  {
    var s0 := Init(n);
    assert Leads(s0, [], s0);
    Onward(s0, [], s0, Request(0, BeginPut(goal)));
    var s1 := SetTask(s0, 0, Writing(goal, []));
    run := [] + [Request(0, BeginPut(goal))];
    Onward(s0, run, s1, Request(0, SealBatch([id])));
    run := run + [Request(0, SealBatch([id]))];
    assert SetTask(s1, 0, Parked(goal, [], [id], None, true)).tasks == OneSealed(n, goal, id).tasks;
  }

  lemma CommitAndEnd(n: nat, goal: Goal, id: BlockId, d: nat)
    requires n > 0 && 1 <= d <= |id|
    ensures var s := Placed(OneSealed(n, goal, id), 0, 1, id, d);
            && CanCommit(s, 1) && CanEndGroup(DoCommit(s, 1), 1)
            && var e := DoEndGroup(DoCommit(s, 1), 1);
            && Is(e, 0) && e.tasks[0] == Writing(goal, [id])
            && SetTask(e, 0, Publishing(goal, [id])) == AboutToPublish(n, goal, id, d)
  {
    var s := Placed(OneSealed(n, goal, id), 0, 1, id, d);
    assert [0][1..] == [] && [id][..0] == [];
    var none: seq<BlockId> := [];
    assert none + [id] == [id];
    assert RecordAll(map[], [id], map[id := d]) == map[id := Record(1, d)];
    var e := DoEndGroup(DoCommit(s, 1), 1);
    assert e.locks == map[] && e.files == {(id, d)};
    assert e.tasks[0 := Publishing(goal, [id])] == AboutToPublish(n, goal, id, d).tasks;
  }

  lemma AboutToPublishRun(n: nat, goal: Goal, id: BlockId, d: nat) returns (run: seq<Action>)
    requires n > 0 && goal.ObjectGoal? && 1 <= d <= |id|
    ensures Leads(Init(n), run, AboutToPublish(n, goal, id, d))
  {
    run := OneSealedRun(n, goal, id);
    run := PlacedRun(Init(n), run, OneSealed(n, goal, id), 1, 0, id, d);
    CommitAndEnd(n, goal, id, d);
    var s := Placed(OneSealed(n, goal, id), 0, 1, id, d);
    Onward(Init(n), run, s, Group(1, CommitMember));
    run := run + [Group(1, CommitMember)];
    Onward(Init(n), run, DoCommit(s, 1), Group(1, EndGroup));
    run := run + [Group(1, EndGroup)];
    Onward(Init(n), run, DoEndGroup(DoCommit(s, 1), 1), Request(0, EndStream));
    run := run + [Request(0, EndStream)];
  }

  /** The record is there, published after the walk. */
  function LatePublished(n: nat, key: ObjectKey, id: BlockId, d: nat): State
    requires n > 0
  {
    AboutToPublish(n, ObjectGoal(key), id, d)
      .(tasks := map[0 := Done(Stored), 1 := Done(Finished)], objects := map[key := [id]])
  }

  lemma LatePublish(n: nat, key: ObjectKey, id: BlockId, d: nat)
    requires n > 0
    ensures var s := AboutToPublish(n, ObjectGoal(key), id, d);
            && DoOnStore(s, RemoveRow(key.bucket)) == s
            && Is(s, 0) && s.tasks[0].Publishing? && DoPublish(s, 0) == LatePublished(n, key, id, d)
  {
    var s := AboutToPublish(n, ObjectGoal(key), id, d);
    assert s.rows - {key.bucket} == s.rows;
    assert s.tasks[0 := Done(Stored)] == LatePublished(n, key, id, d).tasks;
    assert s.objects[key := [id]] == map[key := [id]];
  }

  lemma LateDrop(n: nat, key: ObjectKey, id: BlockId, d: nat)
    requires n > 0
    ensures var s := DoDropBucket(LatePublished(n, key, id, d), key.bucket);
            s.objects == map[] && s.parts == map[] && s.blocks == map[id := Record(1, d)] && Count(s.leaked, id) == 1
  {
    var s := LatePublished(n, key, id, d);
    DropLeaks(s, key.bucket, id);
    assert InBucket(s.objects, key.bucket) == map[key := [id]];
    RefsDrop(map[key := [id]], Listed, key, id);
    assert map[key := [id]] - {key} == map[];
    assert DoDropBucket(s, key.bucket).objects == map[];
  }

  /** For every table, object and block: the bucket's row goes while a write of the
      object has its reference and no record, so a walk over the tree finds nothing;
      the record is published, and the drop takes it. The block keeps a count and a
      file, and no record anywhere names it. */
  lemma LateWriteIsLeaked(n: nat, key: ObjectKey, id: BlockId, d: nat) returns (walked: seq<Action>, run: seq<Action>)
    requires n > 0 && 1 <= d <= |id|
    ensures run == walked + [Request(0, Publish)] + [OnStore(DropBucket(key.bucket))]
    ensures walked != [] && walked[|walked| - 1] == OnStore(RemoveRow(key.bucket))
    ensures IsRun(Init(n), walked) && Exec(Init(n), walked).objects == map[]
    ensures IsRun(Init(n), run)
    ensures var s := Exec(Init(n), run);
            s.objects == map[] && s.parts == map[] && s.blocks == map[id := Record(1, d)] && Count(s.leaked, id) == 1
  {
    var s, s' := AboutToPublish(n, ObjectGoal(key), id, d), LatePublished(n, key, id, d);
    LatePublish(n, key, id, d);
    LateDrop(n, key, id, d);
    walked := AboutToPublishRun(n, ObjectGoal(key), id, d);
    walked := TakeAction(n, walked, s, OnStore(RemoveRow(key.bucket)), s);
    run := TakeAction(n, walked, s, Request(0, Publish), s');
    run := TakeAction(n, run, s', OnStore(DropBucket(key.bucket)), DoDropBucket(s', key.bucket));
  }

  lemma TakeAction(n: nat, run: seq<Action>, s: State, a: Action, s': State) returns (more: seq<Action>)
    requires n > 0 && Leads(Init(n), run, s) && s.n > 0 && Enabled(s, a) && Next(s, a) == s'
    ensures more == run + [a] && Leads(Init(n), more, s')
  {
    Onward(Init(n), run, s, a);
    more := run + [a];
  }
}
