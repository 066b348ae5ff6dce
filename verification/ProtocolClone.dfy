/** Clone by reference under concurrent deletes of its source. */
module ProtocolClone {
  import opened Ids
  import opened Accounting
  import opened Records
  import opened Protocol
  import opened ProtocolInvariant
  import opened ProtocolTheorems

  /** Whose step it is. */
  function Actor(a: Action): Option<TaskId> {
    if a.OnStore? then None else Some(a.t)
  }

  /** What the steps of `t` in a run did to the count of `b`, added up. */
  ghost function Net(s: State, run: seq<Action>, t: TaskId, b: BlockId): int
    requires s.n > 0 && IsRun(s, run)
    decreases |run|
  {
    if run == [] then 0
    else
      var s' := Next(s, run[0]);
      (if Actor(run[0]) == Some(t) then Rc(s'.blocks, b) - Rc(s.blocks, b) else 0) + Net(s', run[1..], t, b)
  }

  /** What the steps of `t` in a run added to the leak of `b`. */
  ghost function LeakedBy(s: State, run: seq<Action>, t: TaskId, b: BlockId): int
    requires s.n > 0 && IsRun(s, run)
    decreases |run|
  {
    if run == [] then 0
    else
      var s' := Next(s, run[0]);
      (if Actor(run[0]) == Some(t) then Count(s'.leaked, b) - Count(s.leaked, b) else 0) + LeakedBy(s', run[1..], t, b)
  }

  /** Some step of `t` in the run wrote or removed an object or part record. */
  ghost predicate WritesRecord(s: State, run: seq<Action>, t: TaskId)
    requires s.n > 0 && IsRun(s, run)
    decreases |run|
  {
    run != [] &&
    var s' := Next(s, run[0]);
    (Actor(run[0]) == Some(t) && (s'.objects != s.objects || s'.parts != s.parts)) || WritesRecord(s', run[1..], t)
  }

  predicate NoCrash(run: seq<Action>) {
    forall i :: 0 <= i < |run| ==> run[i] != OnStore(Crash)
  }

  /** A clone that may still refuse: taking references, or giving them back. */
  predicate Refusable(x: Task) {
    x.Acquiring? || (x.Releasing? && x.answer == NotCloned && x.rest == []) || x == Done(NotCloned)
  }

  /** A clone that took everything, or failed: it can no longer refuse. */
  predicate PastRefusal(x: Task) {
    (x.Publishing? && x.goal.ObjectGoal?) || (x.Releasing? && x.answer != NotCloned) ||
        (x.Done? && x.answer != NotCloned)
  }

  lemma GroupSpares(s: State, u: TaskId, a: GroupStep, t: TaskId)
    requires s.n > 0 && CanGroup(s, u, a) && t in s.tasks && t != u && !s.tasks[t].Parked?
    ensures t in DoGroup(s, u, a).tasks && DoGroup(s, u, a).tasks[t] == s.tasks[t]
  {
  }

  /** Nobody else's step touches a task that is not parked. */
  lemma StrangersSpare(s: State, a: Action, t: TaskId)
    requires s.n > 0 && Enabled(s, a) && t in s.tasks && !s.tasks[t].Parked?
    requires Actor(a) != Some(t) && a != OnStore(Crash)
    ensures t in Next(s, a).tasks && Next(s, a).tasks[t] == s.tasks[t]
  {
    match a
    case Request(u, step) => assert DoRequest(s, u, step).tasks == s.tasks[u := DoRequest(s, u, step).tasks[u]];
    case Group(u, step) => GroupSpares(s, u, step, t);
    case OnBlock(u, step) => assert DoOnBlock(s, u, step).tasks == s.tasks[u := DoOnBlock(s, u, step).tasks[u]];
    case OnUpload(u, step) => assert DoOnUpload(s, u, step).tasks == s.tasks[u := DoOnUpload(s, u, step).tasks[u]];
    case OnStore(step) =>
  }

  /** What one step of a clone that may still refuse does. */
  ghost predicate CloneStep(s: State, s': State, t: TaskId)
    requires t in s.tasks
  {
    && t in s'.tasks
    && s'.objects == s.objects && s'.parts == s.parts
    && (PastRefusal(s'.tasks[t]) ||
        (Refusable(s'.tasks[t]) && forall b: BlockId ::
           Rc(s'.blocks, b) - Rc(s.blocks, b)
           == Count(Owed(s'.tasks[t]), b) - Count(Owed(s.tasks[t]), b) + Count(s'.leaked, b) - Count(s.leaked, b)))
  }

  lemma CloneDecrement(s: State, t: TaskId)
    requires Inv(s) && CanDecrement(s, t) && Refusable(s.tasks[t])
    ensures CloneStep(s, DoDecrement(s, t), t)
  {
    var s', x := DoDecrement(s, t), s.tasks[t];
    var id := x.todo[0];
    OwedIsCounted(s, t, id);
    assert x.todo == [id] + x.todo[1..];
    forall b: BlockId ensures Rc(s'.blocks, b) - Rc(s.blocks, b) == Count(Owed(s'.tasks[t]), b) - Count(Owed(x), b) {
      DecrementCounts(s.blocks, id, b);
      CountAppend([id], x.todo[1..], b);
    }
  }

  lemma CloneFailDecrement(s: State, t: TaskId)
    requires s.n > 0 && CanDecrement(s, t) && Refusable(s.tasks[t])
    ensures CloneStep(s, DoFailDecrement(s, t), t)
  {
    var s', x := DoFailDecrement(s, t), s.tasks[t];
    var id := x.todo[0];
    assert x.todo == [id] + x.todo[1..];
    forall b: BlockId
      ensures Count(Owed(x), b) - Count(Owed(s'.tasks[t]), b) == Count(s'.leaked, b) - Count(s.leaked, b)
    {
      CountAppend([id], x.todo[1..], b);
      CountAppend(s.leaked, [id], b);
    }
  }

  lemma TakenCounts(blocks: Blocks, list: seq<BlockId>, taken: nat, b: BlockId)
    requires taken < |list| && list[taken] in blocks
    ensures Rc(Bump(blocks, list[taken]).value, b) - Rc(blocks, b)
         == Count(list[..taken + 1], b) - Count(list[..taken], b)
  {
    assert list[..taken + 1] == list[..taken] + [list[taken]];
    CountAppend(list[..taken], [list[taken]], b);
  }

  lemma CloneBump(s: State, t: TaskId)
    requires s.n > 0 && CanBump(s, t)
    ensures CloneStep(s, DoBump(s, t), t)
  {
    var x := s.tasks[t];
    if x.blocks[x.taken] in s.blocks {
      forall b: BlockId { TakenCounts(s.blocks, x.blocks, x.taken, b); }
    }
  }

  lemma CloneBlockStep(s: State, t: TaskId, a: BlockStep)
    requires Inv(s) && CanOnBlock(s, t, a) && Refusable(s.tasks[t])
    ensures CloneStep(s, DoOnBlock(s, t, a), t)
  {
    match a
    case DecrementBlock => CloneDecrement(s, t);
    case FailDecrement => CloneFailDecrement(s, t);
    case BumpBlock => CloneBump(s, t);
    case _ =>
  }

  lemma CloneRequestStep(s: State, t: TaskId, a: RequestStep)
    requires CanRequest(s, t, a) && t in s.tasks && Refusable(s.tasks[t])
    ensures CloneStep(s, DoRequest(s, t, a), t)
  {
    assert a.Abandon? || a.EndAcquire?;
  }

  lemma CloneUploadStep(s: State, t: TaskId, a: UploadStep)
    requires CanOnUpload(s, t, a) && t in s.tasks && Refusable(s.tasks[t])
    ensures CloneStep(s, DoOnUpload(s, t, a), t)
  {
    assert a.EndRelease?;
  }

  lemma CloneOwnStep(s: State, a: Action, t: TaskId)
    requires Inv(s) && Enabled(s, a) && Actor(a) == Some(t) && t in s.tasks && Refusable(s.tasks[t])
    ensures CloneStep(s, Next(s, a), t)
  {
    match a
    case OnBlock(_, step) => CloneBlockStep(s, t, step);
    case Request(_, step) => CloneRequestStep(s, t, step);
    case OnUpload(_, step) => CloneUploadStep(s, t, step);
    case Group(_, step) =>
  }

  lemma PastRefusalRequest(s: State, t: TaskId, a: RequestStep)
    requires CanRequest(s, t, a) && t in s.tasks && PastRefusal(s.tasks[t])
    ensures PastRefusal(DoRequest(s, t, a).tasks[t])
  {
    assert a.Publish? || a.Abandon?;
  }

  lemma PastRefusalBlock(s: State, t: TaskId, a: BlockStep)
    requires s.n > 0 && CanOnBlock(s, t, a) && PastRefusal(s.tasks[t])
    ensures PastRefusal(DoOnBlock(s, t, a).tasks[t])
  {
    assert a.LockBlock? || a.DecrementBlock? || a.FailDecrement? || a.UnlinkFile?;
  }

  lemma PastRefusalUpload(s: State, t: TaskId, a: UploadStep)
    requires CanOnUpload(s, t, a) && t in s.tasks && PastRefusal(s.tasks[t])
    ensures PastRefusal(DoOnUpload(s, t, a).tasks[t])
  {
    assert a.NextPart? || a.SkipPart? || a.EndRelease?;
  }

  lemma PastRefusalStep(s: State, a: Action, t: TaskId)
    requires s.n > 0 && Enabled(s, a) && t in s.tasks && PastRefusal(s.tasks[t]) && a != OnStore(Crash)
    ensures t in Next(s, a).tasks && PastRefusal(Next(s, a).tasks[t])
  {
    if Actor(a) == Some(t) {
      match a
      case Request(_, step) => PastRefusalRequest(s, t, step);
      case OnBlock(_, step) => PastRefusalBlock(s, t, step);
      case OnUpload(_, step) => PastRefusalUpload(s, t, step);
      case Group(_, step) =>
    } else {
      StrangersSpare(s, a, t);
    }
  }

  lemma {:induction false} PastRefusalForGood(s: State, run: seq<Action>, t: TaskId)
    requires s.n > 0 && IsRun(s, run) && NoCrash(run) && t in s.tasks && PastRefusal(s.tasks[t])
    ensures t in Exec(s, run).tasks && Exec(s, run).tasks[t] != Done(NotCloned)
    decreases |run|
  {
    if run != [] {
      assert run[0] != OnStore(Crash);
      PastRefusalStep(s, run[0], t);
      assert NoCrash(run[1..]);
      PastRefusalForGood(Next(s, run[0]), run[1..], t);
    }
  }

  /** A clone that ends refused gave back all it owed: its own steps change no
      count beyond what its failed decrements leaked, and write no record. */
  lemma {:induction false} RefusedCloneBalances(s: State, run: seq<Action>, t: TaskId, b: BlockId)
    requires Inv(s) && IsRun(s, run) && NoCrash(run) && t in s.tasks && Refusable(s.tasks[t])
    requires t in Exec(s, run).tasks && Exec(s, run).tasks[t] == Done(NotCloned)
    ensures Net(s, run, t, b) + Count(Owed(s.tasks[t]), b) == LeakedBy(s, run, t, b)
    ensures !WritesRecord(s, run, t)
    decreases |run|
  {
    if run != [] {
      var a, s' := run[0], Next(s, run[0]);
      assert a != OnStore(Crash);
      assert NoCrash(run[1..]);
      StepKeeps(s, a);
      if Actor(a) == Some(t) {
        CloneOwnStep(s, a, t);
        if PastRefusal(s'.tasks[t]) { PastRefusalForGood(s', run[1..], t); }
      } else {
        StrangersSpare(s, a, t);
      }
      RefusedCloneBalances(s', run[1..], t, b);
    }
  }

  /** A clone answered "not cloned", over any interleaving from any reachable
      state: no record of its own and no net change to any count, unless one of
      its give-backs failed and leaked. */
  lemma RefusedCloneIsNeutral(s: State, t: TaskId, src: ObjectKey, dest: ObjectKey, run: seq<Action>, b: BlockId)
    requires Inv(s) && Fresh(s, t)
    requires var begin := Request(t, BeginClone(src, dest));
             IsRun(Next(s, begin), run) && NoCrash(run) &&
             t in Exec(Next(s, begin), run).tasks && Exec(Next(s, begin), run).tasks[t] == Done(NotCloned)
    ensures var s1 := Next(s, Request(t, BeginClone(src, dest)));
            && Net(s1, run, t, b) == LeakedBy(s1, run, t, b)
            && !WritesRecord(s1, run, t)
            && s1.blocks == s.blocks && s1.objects == s.objects
  {
    var begin := Request(t, BeginClone(src, dest));
    StepKeeps(s, begin);
    RefusedCloneBalances(Next(s, begin), run, t, b);
  }

  lemma PublishedIsLive(s: State, t: TaskId, b: BlockId)
    requires Inv(s) && Is(s, t) && s.tasks[t].Publishing? && b in s.tasks[t].got
    ensures var s', got := DoPublish(s, t), s.tasks[t].got;
            b in s'.blocks && (b, s'.blocks[b].depth) in s'.files && Count(got, b) <= s'.blocks[b].rc
  {
    var s', x := DoPublish(s, t), s.tasks[t];
    PublishKeeps(s, t);
    InvIsSafe(s');
    match x.goal {
      case ObjectGoal(k) => assert s'.objects[k] == x.got;
      case PartGoal(pk) => assert s'.parts[pk] == x.got;
    }
  }

  /** A record published by any write, a clone's included: every occurrence in
      it is counted and every block it names has its file, in the very state the
      record appears in, whatever concurrent deletes did to the source. */
  lemma PublishedRecordIsLive(n: nat, run: seq<Action>, t: TaskId, b: BlockId)
    requires n > 0 && IsRun(Init(n), run)
    requires CanRequest(Exec(Init(n), run), t, Publish)
    ensures var s := Exec(Init(n), run);
            var s' := DoPublish(s, t);
            var got := s.tasks[t].got;
            && (s.tasks[t].goal.ObjectGoal? ==> s'.objects == s.objects[s.tasks[t].goal.dest := got])
            && (s.tasks[t].goal.PartGoal? ==> s'.parts == s.parts[s.tasks[t].goal.part := got])
            && (b in got ==> b in s'.blocks && (b, s'.blocks[b].depth) in s'.files && Count(got, b) <= s'.blocks[b].rc)
  {
    InitInv(n);
    RunKeeps(Init(n), run);
    var s := Exec(Init(n), run);
    if b in s.tasks[t].got { PublishedIsLive(s, t, b); }
  }
}
