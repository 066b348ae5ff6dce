/** The invariant of the block protocol, kept by every step of every task. */
module ProtocolInvariant {
  import opened Ids
  import opened Accounting
  import opened Records
  import opened Protocol

  /** Every block counts exactly the references somebody accounts for. */
  ghost predicate Counted(s: State) {
    forall b: BlockId :: Rc(s.blocks, b) == Total(s, b)
  }

  /** The members of a group are parked batches that belong to it alone. */
  ghost predicate MembersOk(s: State, c: TaskId, members: seq<TaskId>, ids: set<BlockId>) {
    NoDup(members) &&
    forall m :: m in members ==>
      m in s.tasks && s.tasks[m].Parked? && s.tasks[m].owner == Some(c) &&
      forall b :: b in s.tasks[m].batch ==> b in ids
  }

  /** What one task may rely on between its steps. */
  ghost predicate TaskOk(s: State, t: TaskId)
    requires s.n > 0 && t in s.tasks
  {
    match s.tasks[t]
    case Releasing(todo, Striped, _, _) => todo != [] && Holds(s, t, StripeOf(todo[0], s.n))
    case Releasing(_, Unlinking(id, _), _, _) => id !in s.blocks && Holds(s, t, StripeOf(id, s.n))
    case Acquiring(_, blocks, taken, locked) =>
      taken <= |blocks| && (locked ==> taken < |blocks| && Holds(s, t, StripeOf(blocks[taken], s.n)))
    case Gathering(members, ids, _) => MembersOk(s, t, members, ids)
    case Closing(members, ids, wanted, held, placed, _) =>
      && MembersOk(s, t, members, ids)
      && (forall k :: k in held ==> Holds(s, t, k))
      && (forall id :: id in ids ==> StripeOf(id, s.n) in held || StripeOf(id, s.n) in wanted)
      && (placed != map[] ==> wanted == [])
      && (forall id :: id in placed ==> id in ids && (id, placed[id]) in s.files)
    case _ => true
  }

  ghost predicate TasksOk(s: State) {
    s.n > 0 && forall t :: t in s.tasks ==> TaskOk(s, t)
  }

  ghost predicate Inv(s: State) {
    TasksOk(s) && Counted(s) && Filed(s.blocks, s.files)
  }

  // ------------------------------------------------------- what a step moves

  /** A task that still owes a reference finds the block counted, so neither a
      missing record nor a count below one can be met. */
  lemma OwedIsCounted(s: State, t: TaskId, b: BlockId)
    requires Counted(s) && t in s.tasks && b in Owed(s.tasks[t])
    ensures Rc(s.blocks, b) >= 1
    ensures !DecrementOf(s.blocks, b).Missing? && !DecrementOf(s.blocks, b).Underflow?
  {
    RefsDrop(s.tasks, Owed, t, b);
    assert Rc(s.blocks, b) == Total(s, b);
  }

  // ------------------------------------------------------------ what it spares

  /** What `u` relies on survives a step of somebody else. */
  ghost predicate Spares(s: State, s': State, u: TaskId)
    requires s.n > 0 && u in s.tasks
  {
    && s'.n == s.n
    && u in s'.tasks && s'.tasks[u] == s.tasks[u]
    && (forall k :: Holds(s, u, k) ==> Holds(s', u, k))
    && (forall id :: Holds(s, u, StripeOf(id, s.n)) && id in s'.blocks ==> id in s.blocks)
    && (forall id, d :: Holds(s, u, StripeOf(id, s.n)) && (id, d) in s.files ==> (id, d) in s'.files)
    && (forall m :: m in s.tasks && s.tasks[m].Parked? && s.tasks[m].owner == Some(u) ==>
          m in s'.tasks && s'.tasks[m].Parked? && s'.tasks[m].owner == Some(u) &&
          s'.tasks[m].batch == s.tasks[m].batch)
  }

  lemma SparedTaskOk(s: State, s': State, u: TaskId)
    requires s.n > 0 && u in s.tasks && TaskOk(s, u) && Spares(s, s', u)
    ensures TaskOk(s', u)
  {
    match s.tasks[u]
    case Closing(members, ids, wanted, held, placed, _) =>
      forall id | id in placed ensures (id, placed[id]) in s'.files {
        assert StripeOf(id, s.n) in held;
        assert Holds(s, u, StripeOf(id, s.n));
      }
    case _ =>
  }

  /** A step that rewrites task `t` alone and leaves block records, files and
      stripes as they were. */
  lemma MoveKeepsTasks(s: State, s': State, t: TaskId, x: Task)
    requires TasksOk(s)
    requires s'.n == s.n && s'.blocks == s.blocks && s'.files == s.files && s'.locks == s.locks
    requires s'.tasks == s.tasks[t := x]
    requires t in s.tasks && s.tasks[t].Parked? ==>
               x.Parked? && x.owner == s.tasks[t].owner && x.batch == s.tasks[t].batch
    requires TaskOk(s', t)
    ensures TasksOk(s')
  {
    forall u | u in s'.tasks ensures TaskOk(s', u) {
      if u != t { SparedTaskOk(s, s', u); }
    }
  }

  /** A step that rewrites task `t` alone and takes or gives back stripes. */
  lemma StripeMoveKeepsTasks(s: State, s': State, t: TaskId, x: Task)
    requires TasksOk(s)
    requires s'.n == s.n && s'.blocks == s.blocks && s.files <= s'.files
    requires s'.tasks == s.tasks[t := x]
    requires t in s.tasks && !s.tasks[t].Parked?
    requires forall u, k :: u != t && Holds(s, u, k) ==> Holds(s', u, k)
    requires TaskOk(s', t)
    ensures TasksOk(s')
  {
    forall u | u in s'.tasks ensures TaskOk(s', u) {
      if u != t { SparedTaskOk(s, s', u); }
    }
  }

  /** A step of `t` on block `id`, whose stripe it holds. */
  lemma BlockStepKeepsTasks(s: State, s': State, t: TaskId, id: BlockId, x: Task)
    requires TasksOk(s)
    requires t in s.tasks && !s.tasks[t].Parked? && Holds(s, t, StripeOf(id, s.n))
    requires s'.n == s.n && s'.tasks == s.tasks[t := x]
    requires s'.locks == s.locks || s'.locks == s.locks - {StripeOf(id, s.n)}
    requires forall b :: b != id ==> (b in s'.blocks <==> b in s.blocks)
    requires forall b, d :: b != id && (b, d) in s.files ==> (b, d) in s'.files
    requires TaskOk(s', t)
    ensures TasksOk(s')
  {
    forall u | u in s'.tasks ensures TaskOk(s', u) {
      if u != t {
        assert forall b :: Holds(s, u, StripeOf(b, s.n)) ==> b != id;
        SparedTaskOk(s, s', u);
      }
    }
  }

  // ------------------------------------------------- steps of one task alone

  lemma TaskMoveCounts(s: State, s': State, t: TaskId, x: Task)
    requires Counted(s)
    requires s'.tasks == s.tasks[t := x] && (if t in s.tasks then Owed(s.tasks[t]) else []) == Owed(x)
    requires s'.objects == s.objects && s'.parts == s.parts && s'.leaked == s.leaked && s'.blocks == s.blocks
    ensures Counted(s')
  {
    forall b: BlockId ensures Rc(s'.blocks, b) == Total(s', b) { RefsPut(s.tasks, Owed, t, x, b); }
  }

  /** A step that changes nothing but what task `t` does next. */
  lemma TaskMoveKeeps(s: State, t: TaskId, x: Task)
    requires Inv(s)
    requires t in s.tasks ==> !s.tasks[t].Parked?
    requires (if t in s.tasks then Owed(s.tasks[t]) else []) == Owed(x)
    requires TaskOk(SetTask(s, t, x), t)
    ensures Inv(SetTask(s, t, x))
  {
    TaskMoveCounts(s, SetTask(s, t, x), t, x);
    MoveKeepsTasks(s, SetTask(s, t, x), t, x);
  }

  // ------------------------------------------------- steps that move records

  lemma PublishObjectCounts(s: State, t: TaskId, k: ObjectKey)
    requires Counted(s) && t in s.tasks && s.tasks[t].Publishing? && s.tasks[t].goal == ObjectGoal(k)
    ensures Counted(DoPublish(s, t))
  {
    var s' := DoPublish(s, t);
    forall b: BlockId ensures Rc(s'.blocks, b) == Total(s', b) {
      RefsPut(s.tasks, Owed, t, s'.tasks[t], b);
      RefsPut(s.objects, Listed, k, s.tasks[t].got, b);
    }
  }

  lemma PublishPartCounts(s: State, t: TaskId, pk: PartKey)
    requires Counted(s) && t in s.tasks && s.tasks[t].Publishing? && s.tasks[t].goal == PartGoal(pk)
    ensures Counted(DoPublish(s, t))
  {
    var s' := DoPublish(s, t);
    forall b: BlockId ensures Rc(s'.blocks, b) == Total(s', b) {
      RefsPut(s.tasks, Owed, t, Done(Stored), b);
      RefsPut(s.parts, Listed, pk, s.tasks[t].got, b);
      CountAppend(s.leaked, if pk in s.parts then s.parts[pk] else [], b);
    }
  }

  lemma PublishKeeps(s: State, t: TaskId)
    requires Inv(s) && t in s.tasks && s.tasks[t].Publishing?
    ensures Inv(DoPublish(s, t))
  {
    match s.tasks[t].goal {
      case ObjectGoal(k) => PublishObjectCounts(s, t, k);
      case PartGoal(pk) => PublishPartCounts(s, t, pk);
    }
    MoveKeepsTasks(s, DoPublish(s, t), t, DoPublish(s, t).tasks[t]);
  }

  lemma AbandonKeeps(s: State, t: TaskId)
    requires Inv(s) && CanAbandon(s, t)
    ensures Inv(DoAbandon(s, t))
  {
    var s' := DoAbandon(s, t);
    assert Counted(s') by {
      forall b: BlockId ensures Rc(s'.blocks, b) == Total(s', b) {
        RefsPut(s.tasks, Owed, t, s'.tasks[t], b);
        CountAppend(s.leaked, Owed(s.tasks[t]), b);
      }
    }
    MoveKeepsTasks(s, s', t, s'.tasks[t]);
  }

  lemma BeginDeleteKeeps(s: State, t: TaskId, k: ObjectKey)
    requires Inv(s) && Fresh(s, t)
    ensures Inv(DoBeginDelete(s, t, k))
  {
    if k in s.objects {
      var s', x := DoBeginDelete(s, t, k), Releasing(s.objects[k], Idle, [], Finished);
      assert Counted(s') by {
        forall b: BlockId ensures Rc(s'.blocks, b) == Total(s', b) {
          RefsPut(s.tasks, Owed, t, x, b);
          RefsDrop(s.objects, Listed, k, b);
        }
      }
      MoveKeepsTasks(s, s', t, x);
    } else {
      TaskMoveKeeps(s, t, Done(Finished));
    }
  }

  lemma NextPartCounts(s: State, t: TaskId)
    requires Counted(s) && BetweenParts(s, t) && s.tasks[t].rest != []
    ensures Counted(DoNextPart(s, t))
  {
    var s', pk := DoNextPart(s, t), s.tasks[t].rest[0];
    if pk in s.parts {
      forall b: BlockId ensures Rc(s'.blocks, b) == Total(s', b) {
        RefsPut(s.tasks, Owed, t, s'.tasks[t], b);
        RefsDrop(s.parts, Listed, pk, b);
      }
    } else {
      TaskMoveCounts(s, s', t, s'.tasks[t]);
    }
  }

  lemma NextPartKeeps(s: State, t: TaskId)
    requires Inv(s) && BetweenParts(s, t) && s.tasks[t].rest != []
    ensures Inv(DoNextPart(s, t))
  {
    NextPartCounts(s, t);
    MoveKeepsTasks(s, DoNextPart(s, t), t, DoNextPart(s, t).tasks[t]);
  }

  /** A claim moves the named parts' references, all of them and no others. */
  lemma {:induction false} TakePartsConserves(parts: map<PartKey, seq<BlockId>>, u: Upload, numbers: seq<int>,
                                              b: BlockId)
    ensures var r := TakeParts(parts, u, numbers);
            r.Some? ==> Refs(parts, Listed, b) == Refs(r.value.0, Listed, b) + Count(r.value.1, b)
    decreases |numbers|
  {
    if numbers != [] && PartKey(u, numbers[0]) in parts {
      var pk := PartKey(u, numbers[0]);
      TakePartsConserves(parts - {pk}, u, numbers[1..], b);
      RefsDrop(parts, Listed, pk, b);
    }
  }

  lemma BeginCompleteKeeps(s: State, t: TaskId, u: Upload, numbers: seq<int>)
    requires Inv(s) && Fresh(s, t)
    ensures Inv(DoBeginComplete(s, t, u, numbers))
  {
    if u in s.uploads && TakeParts(s.parts, u, numbers).Some? {
      var s' := DoBeginComplete(s, t, u, numbers);
      var x := Publishing(ObjectGoal(ObjectKey(u.bucket, u.key)), TakeParts(s.parts, u, numbers).value.1);
      assert Counted(s') by {
        forall b: BlockId ensures Rc(s'.blocks, b) == Total(s', b) {
          RefsPut(s.tasks, Owed, t, x, b);
          TakePartsConserves(s.parts, u, numbers, b);
        }
      }
      MoveKeepsTasks(s, s', t, x);
    } else {
      TaskMoveKeeps(s, t, Done(Failed));
    }
  }

  lemma BeginAbortKeeps(s: State, t: TaskId, u: Upload, keys: seq<PartKey>)
    requires Inv(s) && Fresh(s, t)
    ensures Inv(DoBeginAbort(s, t, u, keys))
  {
    if u in s.uploads {
      var s', x := DoBeginAbort(s, t, u, keys), Releasing([], Idle, keys, Finished);
      TaskMoveCounts(s, s', t, x);
      MoveKeepsTasks(s, s', t, x);
    } else {
      TaskMoveKeeps(s, t, Done(Failed));
    }
  }

  lemma DropBucketCounts(s: State, bucket: string)
    requires Counted(s)
    ensures Counted(DoDropBucket(s, bucket))
  {
    var s' := DoDropBucket(s, bucket);
    var gone := set k | k in s.objects && k.bucket == bucket;
    var dropped := Only(s.objects, gone);
    forall b: BlockId ensures Rc(s'.blocks, b) == Total(s', b) {
      RefsSplit(s.objects, Listed, gone, b);
      FlatCounts(dropped, Listed, b);
      CountAppend(s.leaked, Flat(dropped, Listed), b);
    }
  }

  lemma DropBucketKeeps(s: State, bucket: string)
    requires Inv(s)
    ensures Inv(DoDropBucket(s, bucket))
  {
    var s' := DoDropBucket(s, bucket);
    DropBucketCounts(s, bucket);
    forall u | u in s'.tasks ensures TaskOk(s', u) { SparedTaskOk(s, s', u); }
  }

  lemma CrashKeeps(s: State)
    requires Inv(s)
    ensures Inv(DoCrash(s))
  {
    forall b: BlockId ensures Total(DoCrash(s), b) == Total(s, b) {
      FlatCounts(s.tasks, Owed, b);
      CountAppend(s.leaked, Flat(s.tasks, Owed), b);
    }
  }

  lemma RowMoveKeeps(s: State, s': State)
    requires Inv(s)
    requires s'.n == s.n && s'.tasks == s.tasks && s'.locks == s.locks && s'.leaked == s.leaked
    requires s'.objects == s.objects && s'.parts == s.parts && s'.blocks == s.blocks && s'.files == s.files
    ensures Inv(s')
  {
    assert Counted(s') by { forall b: BlockId ensures Total(s', b) == Total(s, b) { } }
    forall u | u in s'.tasks ensures TaskOk(s', u) { SparedTaskOk(s, s', u); }
  }

  // ------------------------------------------------- steps of a closer

  lemma JoinCounts(s: State, c: TaskId, m: TaskId)
    requires Counted(s) && CanJoin(s, c, m)
    ensures Counted(DoJoin(s, c, m))
  {
    var s' := DoJoin(s, c, m);
    var y := s.tasks[m].(owner := Some(c));
    forall b: BlockId ensures Rc(s'.blocks, b) == Total(s', b) {
      RefsPut(s.tasks, Owed, m, y, b);
      RefsPut(s.tasks[m := y], Owed, c, s'.tasks[c], b);
    }
  }

  lemma JoinKeeps(s: State, c: TaskId, m: TaskId)
    requires Inv(s) && CanJoin(s, c, m)
    ensures Inv(DoJoin(s, c, m))
  {
    var s' := DoJoin(s, c, m);
    JoinCounts(s, c, m);
    forall u | u in s'.tasks ensures TaskOk(s', u) {
      if u == c {
        assert TaskOk(s, c);
      } else if u != m {
        SparedTaskOk(s, s', u);
      }
    }
  }

  lemma LockStripeKeeps(s: State, c: TaskId)
    requires Inv(s) && CanLockStripe(s, c)
    ensures Inv(DoLockStripe(s, c))
  {
    var s' := DoLockStripe(s, c);
    TaskMoveCounts(s, s', c, s'.tasks[c]);
    assert TaskOk(s, c);
    StripeMoveKeepsTasks(s, s', c, s'.tasks[c]);
  }

  lemma PlaceKeeps(s: State, c: TaskId, id: BlockId, depth: nat, known: bool)
    requires Inv(s) && CanPlace(s, c, id, depth)
    ensures Inv(DoPlace(s, c, id, depth, known))
  {
    var s' := DoPlace(s, c, id, depth, known);
    TaskMoveCounts(s, s', c, s'.tasks[c]);
    assert TaskOk(s, c);
    StripeMoveKeepsTasks(s, s', c, s'.tasks[c]);
  }

  lemma EndGroupKeeps(s: State, c: TaskId)
    requires Inv(s) && CanEndGroup(s, c)
    ensures Inv(DoEndGroup(s, c))
  {
    TaskMoveCounts(s, DoEndGroup(s, c), c, Done(Finished));
    StripeMoveKeepsTasks(s, DoEndGroup(s, c), c, Done(Finished));
  }

  lemma LockBlockKeeps(s: State, t: TaskId)
    requires Inv(s) && CanLockBlock(s, t)
    ensures Inv(DoLockBlock(s, t))
  {
    var s' := DoLockBlock(s, t);
    TaskMoveCounts(s, s', t, s'.tasks[t]);
    assert TaskOk(s, t);
    StripeMoveKeepsTasks(s, s', t, s'.tasks[t]);
  }

  /** Answering the member at the head of a group leaves every other task what
      it relied on. */
  lemma AnswerKeepsTasks(s: State, s': State, c: TaskId, m: TaskId, y: Task)
    requires TasksOk(s) && Is(s, c) && s.tasks[c].Closing? && s.tasks[c].members != [] && s.tasks[c].members[0] == m
    requires m != c
    requires s'.n == s.n && s'.locks == s.locks && s'.files == s.files
    requires s'.tasks == s.tasks[m := y][c := s.tasks[c].(members := s.tasks[c].members[1..])]
    requires y.Writing? || y.Done?
    requires s'.blocks != s.blocks ==> IsStriped(s, c)
    requires forall id :: id in s'.blocks && id !in s.blocks ==> id in s.tasks[c].ids
    ensures TasksOk(s')
  {
    assert TaskOk(s, c);
    forall u | u in s'.tasks ensures TaskOk(s', u) {
      if u != c && u != m {
        forall id | Holds(s, u, StripeOf(id, s.n)) && id in s'.blocks ensures id in s.blocks {
          assert IsStriped(s, c) && id in s.tasks[c].ids ==> Holds(s, c, StripeOf(id, s.n));
        }
        SparedTaskOk(s, s', u);
      }
    }
  }

  lemma AnswerCounts(s: State, s': State, c: TaskId, m: TaskId, x: Task, y: Task, b: BlockId)
    requires c in s.tasks && m in s.tasks && m != c && Owed(s.tasks[c]) == Owed(x)
    requires s'.tasks == s.tasks[m := y][c := x]
    ensures Refs(s'.tasks, Owed, b) + Count(Owed(s.tasks[m]), b) == Refs(s.tasks, Owed, b) + Count(Owed(y), b)
  {
    RefsPut(s.tasks, Owed, m, y, b);
    var answered := s.tasks[m := y];
    RefsPut(answered, Owed, c, x, b);
    assert s'.tasks == answered[c := x];
  }

  lemma CommitCounts(s: State, c: TaskId)
    requires Counted(s) && CanCommit(s, c)
    ensures Counted(DoCommit(s, c))
  {
    var x, s' := s.tasks[c], DoCommit(s, c);
    var m, x' := x.members[0], x.(members := x.members[1..]);
    var p := s.tasks[m];
    var y := if p.waiting then Writing(p.goal, p.got + p.batch) else Done(Failed);
    forall b: BlockId ensures Rc(s'.blocks, b) == Total(s', b) {
      RecordAllCounts(s.blocks, p.batch, x.placed, b);
      AnswerCounts(s, s', c, m, x', y, b);
      CountAppend(p.got, p.batch, b);
      CountAppend(s.leaked, p.got + p.batch, b);
    }
  }

  lemma CommitKeeps(s: State, c: TaskId)
    requires Inv(s) && CanCommit(s, c)
    ensures Inv(DoCommit(s, c))
  {
    var s' := DoCommit(s, c);
    var m := s.tasks[c].members[0];
    CommitCounts(s, c);
    assert TaskOk(s, c);
    RecordAllFiled(s.blocks, s.tasks[m].batch, s.tasks[c].placed, s.files);
    forall id | id in s'.blocks && id !in s.blocks ensures id in s.tasks[c].ids {
      RecordAllDepths(s.blocks, s.tasks[m].batch, s.tasks[c].placed, id);
    }
    AnswerKeepsTasks(s, s', c, m, s'.tasks[m]);
  }

  lemma FailMemberCounts(s: State, c: TaskId)
    requires Counted(s) && CanFailMember(s, c)
    ensures Counted(DoFailMember(s, c))
  {
    var s' := DoFailMember(s, c);
    var m := s.tasks[c].members[0];
    forall b: BlockId ensures Rc(s'.blocks, b) == Total(s', b) {
      RefsPut(s.tasks, Owed, m, Done(Failed), b);
      RefsPut(s.tasks[m := Done(Failed)], Owed, c, s'.tasks[c], b);
      CountAppend(s.leaked, s.tasks[m].got, b);
    }
  }

  lemma FailMemberKeeps(s: State, c: TaskId)
    requires Inv(s) && CanFailMember(s, c)
    ensures Inv(DoFailMember(s, c))
  {
    FailMemberCounts(s, c);
    AnswerKeepsTasks(s, DoFailMember(s, c), c, s.tasks[c].members[0], Done(Failed));
  }

  // ------------------------------------------------- steps on one block

  lemma DecrementTotal(s: State, s': State, t: TaskId, x: Task, id: BlockId, b: BlockId)
    requires Counted(s) && t in s.tasks && Owed(s.tasks[t]) == [id] + Owed(x)
    requires s'.objects == s.objects && s'.parts == s.parts && s'.leaked == s.leaked
    requires s'.tasks == s.tasks[t := x] && s'.blocks == AfterDecrement(s.blocks, id)
    ensures Rc(s'.blocks, b) == Total(s', b)
  {
    OwedIsCounted(s, t, id);
    DecrementCounts(s.blocks, id, b);
    CountAppend([id], Owed(x), b);
    RefsPut(s.tasks, Owed, t, x, b);
  }

  lemma DecrementCountsOwed(s: State, t: TaskId)
    requires Counted(s) && s.n > 0 && CanDecrement(s, t)
    ensures Counted(DoDecrement(s, t))
  {
    var s', x := DoDecrement(s, t), s.tasks[t];
    var y := s'.tasks[t];
    assert Owed(x) == [x.todo[0]] + Owed(y);
    forall b: BlockId ensures Rc(s'.blocks, b) == Total(s', b) {
      DecrementTotal(s, s', t, y, x.todo[0], b);
    }
  }

  lemma DecrementKeeps(s: State, t: TaskId)
    requires Inv(s) && CanDecrement(s, t)
    ensures Inv(DoDecrement(s, t))
  {
    DecrementCountsOwed(s, t);
    assert TaskOk(s, t);
    OwedIsCounted(s, t, s.tasks[t].todo[0]);
    BlockStepKeepsTasks(s, DoDecrement(s, t), t, s.tasks[t].todo[0], DoDecrement(s, t).tasks[t]);
  }

  lemma FailDecrementCounts(s: State, t: TaskId)
    requires Counted(s) && s.n > 0 && CanDecrement(s, t)
    ensures Counted(DoFailDecrement(s, t))
  {
    var s', x := DoFailDecrement(s, t), s.tasks[t];
    assert x.todo == [x.todo[0]] + x.todo[1..];
    forall b: BlockId ensures Rc(s'.blocks, b) == Total(s', b) {
      RefsPut(s.tasks, Owed, t, s'.tasks[t], b);
      CountAppend([x.todo[0]], x.todo[1..], b);
      CountAppend(s.leaked, [x.todo[0]], b);
    }
  }

  lemma FailDecrementKeeps(s: State, t: TaskId)
    requires Inv(s) && CanDecrement(s, t)
    ensures Inv(DoFailDecrement(s, t))
  {
    FailDecrementCounts(s, t);
    assert TaskOk(s, t);
    BlockStepKeepsTasks(s, DoFailDecrement(s, t), t, s.tasks[t].todo[0], DoFailDecrement(s, t).tasks[t]);
  }

  lemma UnlinkKeeps(s: State, t: TaskId, ok: bool)
    requires Inv(s) && CanUnlink(s, t)
    ensures Inv(DoUnlink(s, t, ok))
  {
    var s' := DoUnlink(s, t, ok);
    TaskMoveCounts(s, s', t, s'.tasks[t]);
    assert TaskOk(s, t);
    BlockStepKeepsTasks(s, s', t, s.tasks[t].pc.id, s'.tasks[t]);
  }

  lemma BumpTotal(s: State, s': State, t: TaskId, x: Task, id: BlockId, b: BlockId)
    requires Counted(s) && t in s.tasks && Owed(x) == Owed(s.tasks[t]) + [id]
    requires s'.objects == s.objects && s'.parts == s.parts && s'.leaked == s.leaked
    requires s'.tasks == s.tasks[t := x] && Bump(s.blocks, id) == Some(s'.blocks)
    ensures Rc(s'.blocks, b) == Total(s', b)
  {
    assert Rc(s.blocks, b) == Total(s, b);
    CountAppend(Owed(s.tasks[t]), [id], b);
    RefsPut(s.tasks, Owed, t, x, b);
    BumpCountsOne(s.blocks, id, b);
  }

  lemma BumpCounts(s: State, t: TaskId)
    requires Counted(s) && s.n > 0 && CanBump(s, t)
    ensures Counted(DoBump(s, t))
  {
    var s', x := DoBump(s, t), s.tasks[t];
    var id := x.blocks[x.taken];
    if id in s.blocks {
      assert x.blocks[..x.taken + 1] == x.blocks[..x.taken] + [id];
      forall b: BlockId ensures Rc(s'.blocks, b) == Total(s', b) { BumpTotal(s, s', t, s'.tasks[t], id, b); }
    } else {
      TaskMoveCounts(s, s', t, s'.tasks[t]);
    }
  }

  lemma BumpKeeps(s: State, t: TaskId)
    requires Inv(s) && CanBump(s, t)
    ensures Inv(DoBump(s, t))
  {
    BumpCounts(s, t);
    assert TaskOk(s, t);
    BlockStepKeepsTasks(s, DoBump(s, t), t, s.tasks[t].blocks[s.tasks[t].taken], DoBump(s, t).tasks[t]);
  }

  lemma FailBumpKeeps(s: State, t: TaskId)
    requires Inv(s) && CanBump(s, t)
    ensures Inv(DoFailBump(s, t))
  {
    var s', x := DoFailBump(s, t), s.tasks[t];
    assert Counted(s') by {
      forall b: BlockId ensures Rc(s'.blocks, b) == Total(s', b) {
        RefsPut(s.tasks, Owed, t, Done(Failed), b);
        CountAppend(s.leaked, x.blocks[..x.taken], b);
      }
    }
    assert TaskOk(s, t);
    BlockStepKeepsTasks(s, s', t, x.blocks[x.taken], Done(Failed));
  }

  lemma LoseBumpCounts(s: State, t: TaskId, committed: bool)
    requires Counted(s) && s.n > 0 && CanBump(s, t)
    ensures Counted(DoLoseBump(s, t, committed))
  {
    var s', x := DoLoseBump(s, t, committed), s.tasks[t];
    var id := x.blocks[x.taken];
    if committed && id in s.blocks {
      forall b: BlockId ensures Rc(s'.blocks, b) == Total(s', b) {
        assert Rc(s.blocks, b) == Total(s, b);
        RefsPut(s.tasks, Owed, t, s'.tasks[t], b);
        BumpCountsOne(s.blocks, id, b);
        CountAppend(s.leaked, [id], b);
      }
    } else {
      TaskMoveCounts(s, s', t, s'.tasks[t]);
    }
  }

  lemma LoseBumpKeeps(s: State, t: TaskId, committed: bool)
    requires Inv(s) && CanBump(s, t)
    ensures Inv(DoLoseBump(s, t, committed))
  {
    var s', x := DoLoseBump(s, t, committed), s.tasks[t];
    LoseBumpCounts(s, t, committed);
    assert TaskOk(s, t);
    BlockStepKeepsTasks(s, s', t, x.blocks[x.taken], s'.tasks[t]);
  }

  // ------------------------------------------------- every step, every run

  lemma RequestKeeps(s: State, t: TaskId, a: RequestStep)
    requires Inv(s) && CanRequest(s, t, a)
    ensures Inv(DoRequest(s, t, a))
  {
    match a
    case BeginPut(goal) => TaskMoveKeeps(s, t, Writing(goal, []));
    case SealBatch(batch) => TaskMoveKeeps(s, t, Parked(s.tasks[t].goal, s.tasks[t].got, batch, None, true));
    case EndStream => TaskMoveKeeps(s, t, Publishing(s.tasks[t].goal, s.tasks[t].got));
    case Publish => PublishKeeps(s, t);
    case Abandon => AbandonKeeps(s, t);
    case BeginDelete(k) => BeginDeleteKeeps(s, t, k);
    case BeginClone(src, dest) => TaskMoveKeeps(s, t, DoRequest(s, t, a).tasks[t]);
    case EndAcquire => TaskMoveKeeps(s, t, Publishing(ObjectGoal(s.tasks[t].copy), s.tasks[t].blocks));
  }

  lemma GroupKeeps(s: State, t: TaskId, a: GroupStep)
    requires Inv(s) && CanGroup(s, t, a)
    ensures Inv(DoGroup(s, t, a))
  {
    match a
    case BeginGroup(m) =>
      TaskMoveKeeps(s, t, NewGroup);
      JoinKeeps(SetTask(s, t, NewGroup), t, m);
    case JoinGroup(m) => JoinKeeps(s, t, m);
    case BeginLocking(wanted) =>
      assert TaskOk(s, t);
      TaskMoveKeeps(s, t, StartClosing(s.tasks[t], wanted));
    case LockStripe => LockStripeKeeps(s, t);
    case PlaceFile(id, depth, known) => PlaceKeeps(s, t, id, depth, known);
    case CommitMember => CommitKeeps(s, t);
    case RefuseMember => FailMemberKeeps(s, t);
    case FailMember => FailMemberKeeps(s, t);
    case EndGroup => EndGroupKeeps(s, t);
  }

  lemma OnBlockKeeps(s: State, t: TaskId, a: BlockStep)
    requires Inv(s) && CanOnBlock(s, t, a)
    ensures Inv(DoOnBlock(s, t, a))
  {
    match a
    case LockBlock => LockBlockKeeps(s, t);
    case DecrementBlock => DecrementKeeps(s, t);
    case FailDecrement => FailDecrementKeeps(s, t);
    case UnlinkFile(ok) => UnlinkKeeps(s, t, ok);
    case BumpBlock => BumpKeeps(s, t);
    case FailBump => FailBumpKeeps(s, t);
    case LoseBump(committed) => LoseBumpKeeps(s, t, committed);
  }

  lemma OnUploadKeeps(s: State, t: TaskId, a: UploadStep)
    requires Inv(s) && CanOnUpload(s, t, a)
    ensures Inv(DoOnUpload(s, t, a))
  {
    match a
    case BeginComplete(u, numbers) => BeginCompleteKeeps(s, t, u, numbers);
    case BeginAbort(u, keys) => BeginAbortKeeps(s, t, u, keys);
    case NextPart => NextPartKeeps(s, t);
    case BeginSweep => TaskMoveKeeps(s, t, Sweeping([]));
    case CollectOrphan(pk) => TaskMoveKeeps(s, t, Sweeping(s.tasks[t].orphans + [pk]));
    case EndSweep => TaskMoveKeeps(s, t, Releasing([], Idle, s.tasks[t].orphans, Finished));
    case SkipPart => TaskMoveKeeps(s, t, s.tasks[t].(rest := s.tasks[t].rest[1..]));
    case EndRelease => TaskMoveKeeps(s, t, Done(s.tasks[t].answer));
  }

  lemma OnStoreKeeps(s: State, a: StoreStep)
    requires Inv(s)
    ensures Inv(DoOnStore(s, a))
  {
    match a
    case DropBucket(b) => DropBucketKeeps(s, b);
    case Crash => CrashKeeps(s);
    case _ => RowMoveKeeps(s, DoOnStore(s, a));
  }

  /** Every step of every task keeps the invariant. */
  lemma StepKeeps(s: State, a: Action)
    requires Inv(s) && Enabled(s, a)
    ensures Inv(Next(s, a))
  {
    match a
    case Request(t, step) => RequestKeeps(s, t, step);
    case Group(t, step) => GroupKeeps(s, t, step);
    case OnBlock(t, step) => OnBlockKeeps(s, t, step);
    case OnUpload(t, step) => OnUploadKeeps(s, t, step);
    case OnStore(step) => OnStoreKeeps(s, step);
  }

  lemma InitInv(n: nat)
    requires n > 0
    ensures Inv(Init(n))
  {
  }

  /** Every state of every run satisfies the invariant. */
  lemma {:induction false} RunKeeps(s: State, run: seq<Action>)
    requires Inv(s) && IsRun(s, run)
    ensures Inv(Exec(s, run))
    decreases |run|
  {
    if run != [] {
      StepKeeps(s, run[0]);
      RunKeeps(Next(s, run[0]), run[1..]);
    }
  }
}
