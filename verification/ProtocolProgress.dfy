/** No state of the protocol is stuck: whatever is unfinished, some task can take
    its next proper step. */
module ProtocolProgress {
  import opened Ids
  import opened Records
  import opened Protocol
  import opened ProtocolInvariant
  import Stripes

  /** The program counter of `x` says it holds stripe `k`. */
  predicate HeldBy(x: Task, k: nat, n: nat)
    requires n > 0
  {
    match x
    case Releasing(todo, Striped, _, _) => todo != [] && k == StripeOf(todo[0], n)
    case Releasing(_, Unlinking(id, _), _, _) => k == StripeOf(id, n)
    case Acquiring(_, blocks, taken, locked) => locked && taken < |blocks| && k == StripeOf(blocks[taken], n)
    case Closing(_, _, _, held, _, _) => k in held
    case _ => false
  }

  /** Every stripe is held by a task that knows it and will give it back. */
  ghost predicate LocksOk(s: State)
    requires s.n > 0
  {
    forall k :: k in s.locks ==> s.locks[k] in s.tasks && HeldBy(s.tasks[s.locks[k]], k, s.n)
  }

  /** A closer takes its stripes upwards. */
  ghost predicate Upwards(x: Task) {
    x.Closing? ==> Stripes.Increasing(x.wanted) && forall k, w :: k in x.held && w in x.wanted ==> k < w
  }

  predicate HasMember(x: Task, m: TaskId) {
    (x.Gathering? && m in x.group) || (x.Closing? && m in x.members)
  }

  predicate Owned(s: State, m: TaskId, c: TaskId) {
    m in s.tasks && s.tasks[m].Parked? && s.tasks[m].owner == Some(c)
  }

  /** A batch that was handed over is in the group of a closer. */
  ghost predicate OwnersOk(s: State) {
    forall m, c :: Owned(s, m, c) ==> c in s.tasks && HasMember(s.tasks[c], m)
  }

  ghost predicate LockInv(s: State) {
    s.n > 0 && LocksOk(s) && OwnersOk(s) && forall t :: t in s.tasks ==> Upwards(s.tasks[t])
  }

  /** A step of `t` alone keeps the locks in order. */
  lemma OneTaskKeepsLocks(s: State, s': State, t: TaskId, x: Task)
    requires LockInv(s) && s'.n == s.n && s'.tasks == s.tasks[t := x] && Upwards(x)
    requires forall k :: k in s'.locks ==>
               if s'.locks[k] == t then HeldBy(x, k, s.n) else k in s.locks && s.locks[k] == s'.locks[k]
    requires x.Parked? && x.owner.Some? ==> t in s.tasks && s.tasks[t].Parked? && s.tasks[t].owner == x.owner
    requires t in s.tasks ==> forall m :: HasMember(s.tasks[t], m) ==> HasMember(x, m)
    ensures LockInv(s')
  {
    forall k | k in s'.locks ensures s'.locks[k] in s'.tasks && HeldBy(s'.tasks[s'.locks[k]], k, s'.n) {
      if s'.locks[k] != t { assert k in s.locks; }
    }
    forall u | u in s'.tasks ensures Upwards(s'.tasks[u]) {
      if u != t { assert Upwards(s.tasks[u]); }
    }
    forall m, c | Owned(s', m, c) ensures c in s'.tasks && HasMember(s'.tasks[c], m) { assert Owned(s, m, c); }
  }

  // ----------------------------------------------------------- every step

  /** Holds no stripe and has no group. */
  predicate Free(x: Task) {
    match x
    case Releasing(_, pc, _, _) => pc.Idle?
    case Acquiring(_, _, _, locked) => !locked
    case Gathering(_, _, _) => false
    case Closing(_, _, _, _, _, _) => false
    case _ => true
  }

  /** A parked batch stays with whoever has it. */
  predicate SameOwner(s: State, t: TaskId, x: Task) {
    x.Parked? && x.owner.Some? ==> t in s.tasks && s.tasks[t].Parked? && s.tasks[t].owner == x.owner
  }

  lemma FreeMoveKeepsLocks(s: State, s': State, t: TaskId, x: Task)
    requires LockInv(s) && s'.n == s.n && s'.locks == s.locks && s'.tasks == s.tasks[t := x]
    requires (t in s.tasks ==> Free(s.tasks[t])) && Free(x) && SameOwner(s, t, x)
    ensures LockInv(s')
  {
    OneTaskKeepsLocks(s, s', t, x);
  }

  lemma PublishKeepsLocks(s: State, t: TaskId)
    requires LockInv(s) && Is(s, t) && s.tasks[t].Publishing?
    ensures LockInv(DoPublish(s, t))
  {
    var x := match s.tasks[t].goal
             case ObjectGoal(k) => if k in s.objects then Releasing(s.objects[k], Idle, [], Stored) else Done(Stored)
             case PartGoal(_) => Done(Stored);
    FreeMoveKeepsLocks(s, DoPublish(s, t), t, x);
  }

  lemma AbandonKeepsLocks(s: State, t: TaskId)
    requires LockInv(s) && CanAbandon(s, t)
    ensures LockInv(DoAbandon(s, t))
  {
    FreeMoveKeepsLocks(s, DoAbandon(s, t), t, DoAbandon(s, t).tasks[t]);
  }

  lemma BeginDeleteKeepsLocks(s: State, t: TaskId, k: ObjectKey)
    requires LockInv(s) && Fresh(s, t)
    ensures LockInv(DoBeginDelete(s, t, k))
  {
    var x := if k in s.objects then Releasing(s.objects[k], Idle, [], Finished) else Done(Finished);
    FreeMoveKeepsLocks(s, DoBeginDelete(s, t, k), t, x);
  }

  lemma RequestKeepsLocks(s: State, t: TaskId, a: RequestStep)
    requires LockInv(s) && CanRequest(s, t, a)
    ensures LockInv(DoRequest(s, t, a))
  {
    match a
    case Publish => PublishKeepsLocks(s, t);
    case Abandon => AbandonKeepsLocks(s, t);
    case BeginDelete(k) => BeginDeleteKeepsLocks(s, t, k);
    case _ => FreeMoveKeepsLocks(s, DoRequest(s, t, a), t, DoRequest(s, t, a).tasks[t]);
  }

  lemma BeginCompleteKeepsLocks(s: State, t: TaskId, u: Upload, numbers: seq<int>)
    requires LockInv(s) && Fresh(s, t)
    ensures LockInv(DoBeginComplete(s, t, u, numbers))
  {
    if u in s.uploads && TakeParts(s.parts, u, numbers).Some? {
      var x := Publishing(ObjectGoal(ObjectKey(u.bucket, u.key)), TakeParts(s.parts, u, numbers).value.1);
      FreeMoveKeepsLocks(s, DoBeginComplete(s, t, u, numbers), t, x);
    } else {
      FreeMoveKeepsLocks(s, SetTask(s, t, Done(Failed)), t, Done(Failed));
    }
  }

  lemma BeginAbortKeepsLocks(s: State, t: TaskId, u: Upload, keys: seq<PartKey>)
    requires LockInv(s) && Fresh(s, t)
    ensures LockInv(DoBeginAbort(s, t, u, keys))
  {
    if u in s.uploads {
      FreeMoveKeepsLocks(s, DoBeginAbort(s, t, u, keys), t, Releasing([], Idle, keys, Finished));
    } else {
      FreeMoveKeepsLocks(s, SetTask(s, t, Done(Failed)), t, Done(Failed));
    }
  }

  lemma NextPartKeepsLocks(s: State, t: TaskId)
    requires LockInv(s) && BetweenParts(s, t) && s.tasks[t].rest != []
    ensures LockInv(DoNextPart(s, t))
  {
    FreeMoveKeepsLocks(s, DoNextPart(s, t), t, DoNextPart(s, t).tasks[t]);
  }

  lemma OnUploadKeepsLocks(s: State, t: TaskId, a: UploadStep)
    requires LockInv(s) && CanOnUpload(s, t, a)
    ensures LockInv(DoOnUpload(s, t, a))
  {
    match a
    case BeginComplete(u, numbers) => BeginCompleteKeepsLocks(s, t, u, numbers);
    case BeginAbort(u, keys) => BeginAbortKeepsLocks(s, t, u, keys);
    case NextPart => NextPartKeepsLocks(s, t);
    case _ => FreeMoveKeepsLocks(s, DoOnUpload(s, t, a), t, DoOnUpload(s, t, a).tasks[t]);
  }

  /** A task that holds at most one stripe and has no group. */
  predicate Single(x: Task) { x.Releasing? || x.Acquiring? || x.Done? }

  /** It gives back the one stripe it holds. */
  lemma UnlockKeepsLocks(s: State, s': State, t: TaskId, x: Task, k: nat)
    requires LockInv(s) && s'.n == s.n && s'.tasks == s.tasks[t := x] && s'.locks == s.locks - {k}
    requires t in s.tasks && Single(s.tasks[t]) && Single(x)
    requires forall j: nat :: HeldBy(s.tasks[t], j, s.n) ==> j == k
    ensures LockInv(s')
  {
    OneTaskKeepsLocks(s, s', t, x);
  }

  lemma LockBlockKeepsLocks(s: State, t: TaskId)
    requires LockInv(s) && CanLockBlock(s, t)
    ensures LockInv(DoLockBlock(s, t))
  {
    assert forall j: nat :: !HeldBy(s.tasks[t], j, s.n);
    OneTaskKeepsLocks(s, DoLockBlock(s, t), t, DoLockBlock(s, t).tasks[t]);
  }

  lemma DecrementKeepsLocks(s: State, t: TaskId)
    requires LockInv(s) && CanDecrement(s, t)
    ensures LockInv(DoDecrement(s, t))
  {
    var s', id := DoDecrement(s, t), s.tasks[t].todo[0];
    if DecrementOf(s.blocks, id).Removed? {
      OneTaskKeepsLocks(s, s', t, s'.tasks[t]);
    } else {
      UnlockKeepsLocks(s, s', t, s'.tasks[t], StripeOf(id, s.n));
    }
  }

  lemma FailDecrementKeepsLocks(s: State, t: TaskId)
    requires LockInv(s) && CanDecrement(s, t)
    ensures LockInv(DoFailDecrement(s, t))
  {
    var x := s.tasks[t];
    UnlockKeepsLocks(s, DoFailDecrement(s, t), t, x.(todo := x.todo[1..], pc := Idle), StripeOf(x.todo[0], s.n));
  }

  lemma UnlinkKeepsLocks(s: State, t: TaskId, ok: bool)
    requires LockInv(s) && CanUnlink(s, t)
    ensures LockInv(DoUnlink(s, t, ok))
  {
    UnlockKeepsLocks(s, DoUnlink(s, t, ok), t, s.tasks[t].(pc := Idle), StripeOf(s.tasks[t].pc.id, s.n));
  }

  lemma BumpKeepsLocks(s: State, s': State, t: TaskId)
    requires LockInv(s) && CanBump(s, t) && s'.n == s.n && t in s'.tasks && s'.tasks == s.tasks[t := s'.tasks[t]]
    requires s'.locks == s.locks - {StripeOf(s.tasks[t].blocks[s.tasks[t].taken], s.n)} && Single(s'.tasks[t])
    ensures LockInv(s')
  {
    var x := s.tasks[t];
    UnlockKeepsLocks(s, s', t, s'.tasks[t], StripeOf(x.blocks[x.taken], s.n));
  }

  lemma LoseBumpKeepsLocks(s: State, t: TaskId, committed: bool)
    requires LockInv(s) && CanBump(s, t)
    ensures LockInv(DoLoseBump(s, t, committed))
  {
    BumpKeepsLocks(s, DoLoseBump(s, t, committed), t);
  }

  lemma OnBlockKeepsLocks(s: State, t: TaskId, a: BlockStep)
    requires LockInv(s) && CanOnBlock(s, t, a)
    ensures LockInv(DoOnBlock(s, t, a))
  {
    match a
    case LockBlock => LockBlockKeepsLocks(s, t);
    case DecrementBlock => DecrementKeepsLocks(s, t);
    case FailDecrement => FailDecrementKeepsLocks(s, t);
    case UnlinkFile(ok) => UnlinkKeepsLocks(s, t, ok);
    case BumpBlock => BumpKeepsLocks(s, DoBump(s, t), t);
    case FailBump => BumpKeepsLocks(s, DoFailBump(s, t), t);
    case LoseBump(committed) => LoseBumpKeepsLocks(s, t, committed);
  }

  lemma JoinKeepsLocks(s: State, c: TaskId, m: TaskId)
    requires LockInv(s) && CanJoin(s, c, m)
    ensures LockInv(DoJoin(s, c, m))
  {
    var s' := DoJoin(s, c, m);
    assert forall k :: k in s.locks ==> s.locks[k] != c && s.locks[k] != m;
    forall u, d | Owned(s', u, d) ensures d in s'.tasks && HasMember(s'.tasks[d], u) {
      if u != m { assert Owned(s, u, d); }
    }
  }

  lemma AnswerKeepsLocks(s: State, s': State, c: TaskId, m: TaskId, y: Task)
    requires LockInv(s) && Is(s, c) && s.tasks[c].Closing? && s.tasks[c].members != [] && s.tasks[c].members[0] == m
    requires m != c
    requires Is(s, m) && s.tasks[m].Parked? && s'.n == s.n && s'.locks == s.locks && (y.Writing? || y.Done?)
    requires s'.tasks == s.tasks[m := y][c := s.tasks[c].(members := s.tasks[c].members[1..])]
    ensures LockInv(s')
  {
    assert forall k :: k in s.locks ==> s.locks[k] != m;
    var members := s.tasks[c].members;
    assert members == [m] + members[1..];
    forall u | u in s'.tasks ensures Upwards(s'.tasks[u]) {
      assert u in s.tasks && (u != m ==> Upwards(s.tasks[u]));
    }
    forall u, d | Owned(s', u, d) ensures d in s'.tasks && HasMember(s'.tasks[d], u) { assert Owned(s, u, d); }
  }

  lemma LockStripeKeepsLocks(s: State, c: TaskId)
    requires LockInv(s) && CanLockStripe(s, c)
    ensures LockInv(DoLockStripe(s, c))
  {
    var s', x := DoLockStripe(s, c), s.tasks[c];
    assert Upwards(x);
    forall w | w in x.wanted[1..] ensures x.wanted[0] < w && w in x.wanted {
      var i :| 0 <= i < |x.wanted[1..]| && x.wanted[1..][i] == w;
      assert x.wanted[i + 1] == w;
    }
    assert x.wanted[0] in x.wanted;
    OneTaskKeepsLocks(s, s', c, s'.tasks[c]);
  }

  lemma ClosingKeepsLocks(s: State, t: TaskId, a: GroupStep)
    requires LockInv(s) && CanGroup(s, t, a)
    requires a.BeginLocking? || a.PlaceFile? || a.EndGroup?
    ensures LockInv(DoGroup(s, t, a))
  {
    var s' := DoGroup(s, t, a);
    assert t in s.tasks ==> Upwards(s.tasks[t]);
    OneTaskKeepsLocks(s, s', t, s'.tasks[t]);
  }

  lemma GroupKeepsLocks(s: State, t: TaskId, a: GroupStep)
    requires LockInv(s) && CanGroup(s, t, a)
    ensures LockInv(DoGroup(s, t, a))
  {
    match a
    case BeginGroup(m) =>
      var started := SetTask(s, t, NewGroup);
      OneTaskKeepsLocks(s, started, t, NewGroup);
      JoinKeepsLocks(started, t, m);
    case JoinGroup(m) => JoinKeepsLocks(s, t, m);
    case LockStripe => LockStripeKeepsLocks(s, t);
    case CommitMember =>
      var m := s.tasks[t].members[0];
      AnswerKeepsLocks(s, DoCommit(s, t), t, m, DoCommit(s, t).tasks[m]);
    case RefuseMember => AnswerKeepsLocks(s, DoFailMember(s, t), t, s.tasks[t].members[0], Done(Failed));
    case FailMember => AnswerKeepsLocks(s, DoFailMember(s, t), t, s.tasks[t].members[0], Done(Failed));
    case _ => ClosingKeepsLocks(s, t, a);
  }

  lemma OnStoreKeepsLocks(s: State, a: StoreStep)
    requires LockInv(s)
    ensures LockInv(DoOnStore(s, a))
  {
    var s' := DoOnStore(s, a);
    if !a.Crash? {
      assert s'.tasks == s.tasks && s'.locks == s.locks;
      assert forall m, c :: Owned(s', m, c) ==> Owned(s, m, c);
    }
  }

  lemma StepKeepsLocks(s: State, a: Action)
    requires LockInv(s) && Enabled(s, a)
    ensures LockInv(Next(s, a))
  {
    match a
    case Request(t, step) => RequestKeepsLocks(s, t, step);
    case Group(t, step) => GroupKeepsLocks(s, t, step);
    case OnBlock(t, step) => OnBlockKeepsLocks(s, t, step);
    case OnUpload(t, step) => OnUploadKeepsLocks(s, t, step);
    case OnStore(step) => OnStoreKeepsLocks(s, step);
  }

  lemma {:induction false} RunKeepsLocks(s: State, run: seq<Action>)
    requires LockInv(s) && IsRun(s, run)
    ensures LockInv(Exec(s, run))
    decreases |run|
  {
    if run != [] {
      StepKeepsLocks(s, run[0]);
      RunKeepsLocks(Next(s, run[0]), run[1..]);
    }
  }

  // ------------------------------------------------------------ progress

  /** The step moves an operation on: it is no fault, and starts nothing but the group
      a parked batch is waiting for. */
  predicate Advances(a: Action) {
    match a
    case Request(_, step) => step.EndStream? || step.Publish? || step.EndAcquire?
    case Group(_, step) => !step.FailMember? && (step.PlaceFile? ==> step.known)
    case OnBlock(_, step) => step.LockBlock? || step.DecrementBlock? || step.BumpBlock? || (step.UnlinkFile? && step.ok)
    case OnUpload(_, step) => step.EndSweep? || step.NextPart? || step.EndRelease?
    case OnStore(_) => false
  }

  ghost predicate CanMove(s: State)
    requires s.n > 0
  {
    exists a :: Enabled(s, a) && Advances(a)
  }

  /** Waits for a stripe. */
  predicate Waits(x: Task) {
    WantsBlock(x) || (x.Closing? && x.wanted != [])
  }

  function WaitsFor(x: Task, n: nat): nat
    requires n > 0 && Waits(x)
  {
    if x.Closing? then x.wanted[0] else StripeOf(WantedBlock(x), n)
  }

  function AllStripes(n: nat): (r: seq<nat>)
    ensures |r| == n && (forall i :: 0 <= i < n ==> r[i] == i)
    ensures Stripes.Increasing(r)
  {
    seq(n, i => i)
  }

  lemma GatheringMoves(s: State, t: TaskId)
    requires s.n > 0 && t in s.tasks && s.tasks[t].Gathering?
    ensures CanMove(s)
  {
    var all := AllStripes(s.n);
    forall id | id in s.tasks[t].named ensures StripeOf(id, s.n) in all {
      assert all[StripeOf(id, s.n)] == StripeOf(id, s.n);
    }
    assert Enabled(s, Group(t, BeginLocking(all)));
  }

  lemma ReleasingMoves(s: State, t: TaskId)
    requires Inv(s) && t in s.tasks && s.tasks[t].Releasing? && !Waits(s.tasks[t])
    ensures CanMove(s)
  {
    assert TaskOk(s, t);
    match s.tasks[t].pc
    case Striped => assert Enabled(s, OnBlock(t, DecrementBlock));
    case Unlinking(_, _) => assert Enabled(s, OnBlock(t, UnlinkFile(true)));
    case Idle =>
      if s.tasks[t].rest == [] {
        assert Enabled(s, OnUpload(t, EndRelease));
      } else {
        assert Enabled(s, OnUpload(t, NextPart));
      }
  }

  /** A task that waits for nothing can take its next step. */
  lemma UnblockedMoves(s: State, t: TaskId)
    requires Inv(s) && t in s.tasks && !s.tasks[t].Done? && !s.tasks[t].Parked? && !s.tasks[t].Closing?
    requires !Waits(s.tasks[t])
    ensures CanMove(s)
  {
    match s.tasks[t]
    case Writing(_, _) => assert Enabled(s, Request(t, EndStream));
    case Publishing(_, _) => assert Enabled(s, Request(t, Publish));
    case Releasing(_, _, _, _) => ReleasingMoves(s, t);
    case Acquiring(_, blocks, taken, locked) =>
      assert TaskOk(s, t);
      if locked { assert Enabled(s, OnBlock(t, BumpBlock)); } else { assert Enabled(s, Request(t, EndAcquire)); }
    case Gathering(_, _, _) => GatheringMoves(s, t);
    case Sweeping(_) => assert Enabled(s, OnUpload(t, EndSweep));
  }

  /** A closer with all its stripes places a file, commits or refuses a member, or
      ends. */
  lemma StripedMoves(s: State, c: TaskId)
    requires Inv(s) && IsStriped(s, c)
    ensures CanMove(s)
  {
    assert TaskOk(s, c);
    var x := s.tasks[c];
    if x.members == [] {
      assert Enabled(s, Group(c, EndGroup));
    } else {
      var m := x.members[0];
      assert m in x.members;
      if id :| id in s.tasks[m].batch && id !in s.blocks && id !in x.placed {
        if id in x.tries {
          assert Enabled(s, Group(c, PlaceFile(id, 1, true)));
        } else {
          assert Enabled(s, Group(c, RefuseMember));
        }
      } else {
        assert Enabled(s, Group(c, CommitMember));
      }
    }
  }

  /** A waiting task gets its stripe, or its holder can be followed: holders wait
      for higher stripes only. */
  lemma {:induction false} WaitingMoves(s: State, t: TaskId, top: nat)
    requires Inv(s) && LockInv(s) && t in s.tasks && Waits(s.tasks[t])
    requires forall k :: k in s.locks ==> k < top
    ensures CanMove(s)
    decreases top - WaitsFor(s.tasks[t], s.n)
  {
    var x := s.tasks[t];
    var w := WaitsFor(x, s.n);
    if w !in s.locks {
      if x.Closing? { assert Enabled(s, Group(t, LockStripe)); } else { assert Enabled(s, OnBlock(t, LockBlock)); }
    } else {
      var u := s.locks[w];
      assert HeldBy(s.tasks[u], w, s.n) && Upwards(s.tasks[u]);
      if Waits(s.tasks[u]) {
        assert s.tasks[u].Closing? && s.tasks[u].wanted[0] in s.tasks[u].wanted;
        WaitingMoves(s, u, top);
      } else if s.tasks[u].Closing? {
        StripedMoves(s, u);
      } else {
        UnblockedMoves(s, u);
      }
    }
  }

  lemma {:induction false} SomeTop(keys: set<nat>) returns (top: nat)
    ensures forall k :: k in keys ==> k < top
    decreases |keys|
  {
    if keys == {} {
      top := 0;
    } else {
      var k :| k in keys;
      var rest := SomeTop(keys - {k});
      top := if k < rest then rest else k + 1;
      forall j | j in keys ensures j < top {
        if j != k { assert j in keys - {k}; }
      }
    }
  }

  /** A task itself, or the closer that has its batch, or a new group for it,
      can move. */
  lemma AnyTaskMoves(s: State, t: TaskId)
    requires Inv(s) && LockInv(s) && t in s.tasks && !s.tasks[t].Done? && !s.tasks[t].Parked?
    ensures CanMove(s)
  {
    if Waits(s.tasks[t]) {
      var top := SomeTop(s.locks.Keys);
      WaitingMoves(s, t, top);
    } else if s.tasks[t].Closing? {
      StripedMoves(s, t);
    } else {
      UnblockedMoves(s, t);
    }
  }

  /** Whatever is unfinished, some operation can take a proper step: nothing waits
      in a circle, and nobody finished or failed still holds a stripe. */
  lemma UnfinishedMoves(s: State, t: TaskId)
    requires Inv(s) && LockInv(s) && t in s.tasks && !s.tasks[t].Done?
    ensures CanMove(s)
  {
    if !s.tasks[t].Parked? {
      AnyTaskMoves(s, t);
    } else if s.tasks[t].owner.Some? {
      assert Owned(s, t, s.tasks[t].owner.value);
      AnyTaskMoves(s, s.tasks[t].owner.value);
    } else {
      var c := SomeTop(s.tasks.Keys);
      assert Enabled(s, Group(c, BeginGroup(t)));
    }
  }
}
