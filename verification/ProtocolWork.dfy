/** Everything finishes: the work ahead of a state is finite, every step that is
    not new work consumes some of it, and nothing gets stuck before it is gone. */
module ProtocolWork {
  import opened Ids
  import opened Accounting
  import opened Records
  import opened Protocol
  import opened ProtocolInvariant
  import opened ProtocolTheorems
  import opened ProtocolProgress
  import Stripes

  // ------------------------------------------------------------- the work

  /** Releasing one occurrence takes three steps: stripe, decrement, unlink. */
  function ListWork(blocks: seq<BlockId>): nat { 3 * |blocks| }

  function TaskWork(x: Task, n: nat): nat {
    match x
    case Writing(_, got) => ListWork(got) + 3
    case Parked(_, got, batch, owner, waiting) =>
      ListWork(got) + ListWork(batch) + (if waiting then 5 else 4) + if owner.None? then n + |batch| + 4 else 0
    case Publishing(_, got) => ListWork(got) + 2
    case Releasing(todo, pc, rest, _) =>
      ListWork(todo) + |rest| + (match pc case Idle => 1 case Striped => 0 case Unlinking(_, _) => 2)
    case Acquiring(_, blocks, taken, locked) =>
      ListWork(blocks) + (if taken < |blocks| then 2 * (|blocks| - taken) else 0) + if locked then 2 else 3
    case Gathering(group, _, budget) => n + |budget| + |group| + 2
    case Closing(members, _, wanted, _, _, tries) => |members| + |wanted| + |tries| + 1
    case Sweeping(orphans) => |orphans| + 2
    case Done(_) => 0
  }

  function Weigh(n: nat): (TaskId, Task) -> nat { (t: TaskId, x: Task) => TaskWork(x, n) }

  function WeighList<K>(): (K, seq<BlockId>) -> nat { (k: K, blocks: seq<BlockId>) => ListWork(blocks) }

  lemma TaskPut(tasks: map<TaskId, Task>, n: nat, t: TaskId, x: Task)
    ensures SumOver(tasks[t := x], Weigh(n)) + (if t in tasks then TaskWork(tasks[t], n) else 0)
         == SumOver(tasks, Weigh(n)) + TaskWork(x, n)
  {
    SumPut(tasks, Weigh(n), t, x);
  }

  lemma ListPut<K(!new)>(lists: map<K, seq<BlockId>>, k: K, blocks: seq<BlockId>)
    ensures SumOver(lists[k := blocks], WeighList()) + (if k in lists then ListWork(lists[k]) else 0)
         == SumOver(lists, WeighList()) + ListWork(blocks)
  {
    SumPut(lists, WeighList(), k, blocks);
  }

  lemma ListDrop<K(!new)>(lists: map<K, seq<BlockId>>, k: K)
    requires k in lists
    ensures SumOver(lists, WeighList()) == ListWork(lists[k]) + SumOver(lists - {k}, WeighList())
  {
    SumDrop(lists, WeighList(), k);
  }

  /** What is left to do, counting the lists of records still to be displaced. */
  ghost function Work(s: State): nat {
    SumOver(s.objects, WeighList()) + SumOver(s.parts, WeighList()) + SumOver(s.tasks, Weigh(s.n))
  }

  /** Any step but new work, every kind of fault and cancellation included. */
  predicate Continues(a: Action) {
    match a
    case Request(_, step) => step.EndStream? || step.Publish? || step.Abandon? || step.EndAcquire?
    case Group(_, _) => true
    case OnBlock(_, _) => true
    case OnUpload(_, step) => step.EndSweep? || step.NextPart? || step.SkipPart? || step.EndRelease?
    case OnStore(_) => false
  }

  // -------------------------------------------------- every step does some

  lemma TaskStepWorks(s: State, s': State, t: TaskId, x: Task)
    requires t in s.tasks && s'.n == s.n && s'.objects == s.objects && s'.parts == s.parts
    requires s'.tasks == s.tasks[t := x] && TaskWork(x, s.n) < TaskWork(s.tasks[t], s.n)
    ensures Work(s') < Work(s)
  {
    TaskPut(s.tasks, s.n, t, x);
  }

  lemma TwoTaskStepWorks(s: State, s': State, m: TaskId, y: Task, c: TaskId, x: Task)
    requires m in s.tasks && c != m && s'.n == s.n && s'.objects == s.objects && s'.parts == s.parts
    requires s'.tasks == s.tasks[m := y][c := x]
    requires TaskWork(y, s.n) + TaskWork(x, s.n) < TaskWork(s.tasks[m], s.n)
               + if c in s.tasks then TaskWork(s.tasks[c], s.n) else 0
    ensures Work(s') < Work(s)
  {
    TaskPut(s.tasks, s.n, m, y);
    TaskPut(s.tasks[m := y], s.n, c, x);
  }

  lemma ObjectRecordWorks(s: State, s': State, t: TaskId, k: ObjectKey, y: Task)
    requires Is(s, t) && s.tasks[t].Publishing? && s'.n == s.n && s'.parts == s.parts
    requires s'.tasks == s.tasks[t := y] && s'.objects == s.objects[k := s.tasks[t].got]
    requires y == if k in s.objects then Releasing(s.objects[k], Idle, [], Stored) else Done(Stored)
    ensures Work(s') < Work(s)
  {
    TaskPut(s.tasks, s.n, t, y);
    ListPut(s.objects, k, s.tasks[t].got);
  }

  lemma PartRecordWorks(s: State, s': State, t: TaskId, pk: PartKey)
    requires Is(s, t) && s.tasks[t].Publishing? && s'.n == s.n && s'.objects == s.objects
    requires s'.tasks == s.tasks[t := Done(Stored)] && s'.parts == s.parts[pk := s.tasks[t].got]
    ensures Work(s') < Work(s)
  {
    TaskPut(s.tasks, s.n, t, Done(Stored));
    ListPut(s.parts, pk, s.tasks[t].got);
  }

  lemma NextPartWorks(s: State, t: TaskId)
    requires BetweenParts(s, t) && s.tasks[t].rest != []
    ensures Work(DoNextPart(s, t)) < Work(s)
  {
    var x := s.tasks[t];
    var pk := x.rest[0];
    if pk in s.parts {
      TaskPut(s.tasks, s.n, t, x.(todo := s.parts[pk], rest := x.rest[1..]));
      ListDrop(s.parts, pk);
    } else {
      TaskStepWorks(s, DoNextPart(s, t), t, x.(rest := x.rest[1..]));
    }
  }

  lemma PublishWorks(s: State, t: TaskId)
    requires Is(s, t) && s.tasks[t].Publishing?
    ensures Work(DoPublish(s, t)) < Work(s)
  {
    match s.tasks[t].goal
    case ObjectGoal(k) =>
      var y := if k in s.objects then Releasing(s.objects[k], Idle, [], Stored) else Done(Stored);
      ObjectRecordWorks(s, DoPublish(s, t), t, k, y);
    case PartGoal(pk) => PartRecordWorks(s, DoPublish(s, t), t, pk);
  }

  lemma AbandonWorks(s: State, t: TaskId)
    requires CanAbandon(s, t)
    ensures Work(DoAbandon(s, t)) < Work(s)
  {
    var x := s.tasks[t];
    TaskStepWorks(s, DoAbandon(s, t), t, if x.Parked? then x.(got := [], waiting := false) else Done(Failed));
  }

  lemma RequestWorks(s: State, t: TaskId, a: RequestStep)
    requires CanRequest(s, t, a) && (a.EndStream? || a.Publish? || a.Abandon? || a.EndAcquire?)
    ensures Work(DoRequest(s, t, a)) < Work(s)
  {
    match a
    case Publish => PublishWorks(s, t);
    case Abandon => AbandonWorks(s, t);
    case EndStream =>
      var y := Publishing(s.tasks[t].goal, s.tasks[t].got);
      TaskStepWorks(s, SetTask(s, t, y), t, y);
    case EndAcquire =>
      var y := Publishing(ObjectGoal(s.tasks[t].copy), s.tasks[t].blocks);
      TaskStepWorks(s, SetTask(s, t, y), t, y);
  }

  lemma OnUploadWorks(s: State, t: TaskId, a: UploadStep)
    requires CanOnUpload(s, t, a) && (a.EndSweep? || a.NextPart? || a.SkipPart? || a.EndRelease?)
    ensures Work(DoOnUpload(s, t, a)) < Work(s)
  {
    if a.NextPart? {
      NextPartWorks(s, t);
    } else {
      TaskStepWorks(s, DoOnUpload(s, t, a), t, DoOnUpload(s, t, a).tasks[t]);
    }
  }

  lemma LockBlockWorks(s: State, t: TaskId)
    requires s.n > 0 && CanLockBlock(s, t)
    ensures Work(DoLockBlock(s, t)) < Work(s)
  {
    var x := s.tasks[t];
    TaskStepWorks(s, DoLockBlock(s, t), t, if x.Releasing? then x.(pc := Striped) else x.(locked := true));
  }

  lemma DecrementWorks(s: State, t: TaskId)
    requires s.n > 0 && CanDecrement(s, t)
    ensures Work(DoDecrement(s, t)) < Work(s) && Work(DoFailDecrement(s, t)) < Work(s)
  {
    var x := s.tasks[t];
    TaskStepWorks(s, DoDecrement(s, t), t, DoDecrement(s, t).tasks[t]);
    TaskStepWorks(s, DoFailDecrement(s, t), t, x.(todo := x.todo[1..], pc := Idle));
  }

  lemma UnlinkWorks(s: State, t: TaskId, ok: bool)
    requires s.n > 0 && CanUnlink(s, t)
    ensures Work(DoUnlink(s, t, ok)) < Work(s)
  {
    TaskStepWorks(s, DoUnlink(s, t, ok), t, s.tasks[t].(pc := Idle));
  }

  /** Taking a reference, giving up on it, or giving back what was taken. */
  lemma BumpWorks(s: State, s': State, t: TaskId)
    requires s.n > 0 && CanBump(s, t) && s'.n == s.n && s'.objects == s.objects && s'.parts == s.parts
    requires t in s'.tasks && s'.tasks == s.tasks[t := s'.tasks[t]]
    requires var x, y := s.tasks[t], s'.tasks[t];
             y == x.(taken := x.taken + 1, locked := false) || y == Done(Failed) ||
             (y.Releasing? && y.todo == x.blocks[..x.taken] && y.pc.Idle? && y.rest == [])
    ensures Work(s') < Work(s)
  {
    TaskStepWorks(s, s', t, s'.tasks[t]);
  }

  lemma OnBlockWorks(s: State, t: TaskId, a: BlockStep)
    requires s.n > 0 && CanOnBlock(s, t, a)
    ensures Work(DoOnBlock(s, t, a)) < Work(s)
  {
    match a
    case LockBlock => LockBlockWorks(s, t);
    case DecrementBlock => DecrementWorks(s, t);
    case FailDecrement => DecrementWorks(s, t);
    case UnlinkFile(ok) => UnlinkWorks(s, t, ok);
    case BumpBlock => BumpWorks(s, DoBump(s, t), t);
    case FailBump => BumpWorks(s, DoFailBump(s, t), t);
    case LoseBump(committed) => BumpWorks(s, DoLoseBump(s, t, committed), t);
  }

  lemma {:induction false} FewNames(batch: seq<BlockId>)
    ensures |Names(batch)| <= |batch|
    decreases |batch|
  {
    if batch != [] {
      var last := |batch| - 1;
      FewNames(batch[..last]);
      assert Names(batch) == Names(batch[..last]) + {batch[last]};
    }
  }

  lemma JoinWorks(s: State, c: TaskId, m: TaskId)
    requires CanJoin(s, c, m)
    ensures Work(DoJoin(s, c, m)) + s.n + 3 <= Work(s)
  {
    var g, x := s.tasks[c], s.tasks[m];
    FewNames(x.batch);
    TaskPut(s.tasks, s.n, m, x.(owner := Some(c)));
    TaskPut(s.tasks[m := x.(owner := Some(c))], s.n, c, DoJoin(s, c, m).tasks[c]);
  }

  lemma OpenGroupWorks(s: State, c: TaskId)
    requires Fresh(s, c)
    ensures Work(SetTask(s, c, NewGroup)) == Work(s) + s.n + 2
  {
    TaskPut(s.tasks, s.n, c, NewGroup);
  }

  lemma BeginGroupWorks(s: State, c: TaskId, m: TaskId)
    requires CanBeginGroup(s, c, m)
    ensures Work(DoBeginGroup(s, c, m)) < Work(s)
  {
    OpenGroupWorks(s, c);
    JoinWorks(SetTask(s, c, NewGroup), c, m);
  }

  lemma {:induction false} PlanIsShort(wanted: seq<nat>, n: nat)
    requires Stripes.Increasing(wanted) && forall k :: k in wanted ==> k < n
    ensures |wanted| <= n
    decreases |wanted|
  {
    if wanted != [] {
      var last := |wanted| - 1;
      assert wanted[last] in wanted;
      forall k | k in wanted[..last] ensures k < wanted[last] { }
      PlanIsShort(wanted[..last], wanted[last]);
    }
  }

  lemma BeginLockingWorks(s: State, c: TaskId, wanted: seq<nat>)
    requires s.n > 0 && CanBeginLocking(s, c, wanted)
    ensures Work(DoGroup(s, c, BeginLocking(wanted))) < Work(s)
  {
    PlanIsShort(wanted, s.n);
    TaskStepWorks(s, SetTask(s, c, StartClosing(s.tasks[c], wanted)), c, StartClosing(s.tasks[c], wanted));
  }

  lemma LockStripeWorks(s: State, c: TaskId)
    requires CanLockStripe(s, c)
    ensures Work(DoLockStripe(s, c)) < Work(s)
  {
    var x := s.tasks[c];
    TaskStepWorks(s, DoLockStripe(s, c), c, x.(wanted := x.wanted[1..], held := x.held + {x.wanted[0]}));
  }

  lemma EndGroupWorks(s: State, c: TaskId)
    requires CanEndGroup(s, c)
    ensures Work(DoEndGroup(s, c)) < Work(s)
  {
    TaskStepWorks(s, DoEndGroup(s, c), c, Done(Finished));
  }

  lemma PlaceWorks(s: State, c: TaskId, id: BlockId, depth: nat, known: bool)
    requires CanPlace(s, c, id, depth)
    ensures Work(DoPlace(s, c, id, depth, known)) < Work(s)
  {
    var x := s.tasks[c].(tries := s.tasks[c].tries - multiset{id});
    assert |x.tries| == |s.tasks[c].tries| - 1;
    TaskStepWorks(s, DoPlace(s, c, id, depth, known), c, if known then x.(placed := x.placed[id := depth]) else x);
  }

  lemma AnswerWorks(s: State, s': State, c: TaskId, y: Task)
    requires CanFailMember(s, c) && s'.n == s.n && s'.objects == s.objects && s'.parts == s.parts
    requires s'.tasks == s.tasks[s.tasks[c].members[0] := y][c := s.tasks[c].(members := s.tasks[c].members[1..])]
    requires TaskWork(y, s.n) <= TaskWork(s.tasks[s.tasks[c].members[0]], s.n)
    ensures Work(s') < Work(s)
  {
    var x := s.tasks[c];
    TwoTaskStepWorks(s, s', x.members[0], y, c, x.(members := x.members[1..]));
  }

  lemma FailMemberWorks(s: State, c: TaskId)
    requires CanFailMember(s, c)
    ensures Work(DoFailMember(s, c)) < Work(s)
  {
    AnswerWorks(s, DoFailMember(s, c), c, Done(Failed));
  }

  lemma CommitWorks(s: State, c: TaskId)
    requires CanCommit(s, c)
    ensures Work(DoCommit(s, c)) < Work(s)
  {
    var p := s.tasks[s.tasks[c].members[0]];
    AnswerWorks(s, DoCommit(s, c), c, if p.waiting then Writing(p.goal, p.got + p.batch) else Done(Failed));
  }

  lemma GroupWorks(s: State, t: TaskId, a: GroupStep)
    requires s.n > 0 && CanGroup(s, t, a)
    ensures Work(DoGroup(s, t, a)) < Work(s)
  {
    match a
    case BeginGroup(m) => BeginGroupWorks(s, t, m);
    case JoinGroup(m) => JoinWorks(s, t, m);
    case BeginLocking(wanted) => BeginLockingWorks(s, t, wanted);
    case LockStripe => LockStripeWorks(s, t);
    case PlaceFile(id, depth, known) => PlaceWorks(s, t, id, depth, known);
    case CommitMember => CommitWorks(s, t);
    case RefuseMember => FailMemberWorks(s, t);
    case FailMember => FailMemberWorks(s, t);
    case EndGroup => EndGroupWorks(s, t);
  }

  lemma StepWorks(s: State, a: Action)
    requires s.n > 0 && Enabled(s, a) && Continues(a)
    ensures Work(Next(s, a)) < Work(s)
  {
    match a
    case Request(t, step) => RequestWorks(s, t, step);
    case Group(t, step) => GroupWorks(s, t, step);
    case OnBlock(t, step) => OnBlockWorks(s, t, step);
    case OnUpload(t, step) => OnUploadWorks(s, t, step);
  }

  // ------------------------------------------------------- whole schedules

  lemma {:induction false} RunWorks(s: State, run: seq<Action>)
    requires s.n > 0 && IsRun(s, run) && forall a :: a in run ==> Continues(a)
    ensures |run| + Work(Exec(s, run)) <= Work(s)
    decreases |run|
  {
    if run != [] {
      assert run[0] in run;
      StepWorks(s, run[0]);
      RunWorks(Next(s, run[0]), run[1..]);
    }
  }

  lemma QuietStays(s: State, a: Action)
    requires s.n > 0 && Quiet(s) && Advances(a)
    ensures !Enabled(s, a)
  {
  }

  lemma QuietHoldsNothing(s: State)
    requires LockInv(s) && Quiet(s)
    ensures s.locks == map[]
  {
    if k :| k in s.locks { assert false; }
  }

  /** Whatever the schedule and whichever steps fail, operations under way take a
      bounded number of steps, and they stop only when every one of them has
      finished and every stripe is free. */
  lemma EveryScheduleEnds(n: nat, run: seq<Action>, more: seq<Action>)
    requires n > 0 && IsRun(Init(n), run) && IsRun(Exec(Init(n), run), more) && forall a :: a in more ==> Continues(a)
    ensures var s, end := Exec(Init(n), run), Exec(Exec(Init(n), run), more);
            && |more| <= Work(s)
            && (CanMove(end) <==> !Quiet(end))
            && (Quiet(end) ==> end.locks == map[])
  {
    var s := Exec(Init(n), run);
    var end := Exec(s, more);
    InitInv(n);
    RunKeeps(Init(n), run);
    RunKeepsLocks(Init(n), run);
    RunKeeps(s, more);
    RunKeepsLocks(s, more);
    RunWorks(s, more);
    if Quiet(end) {
      QuietHoldsNothing(end);
      forall a | Advances(a) ensures !Enabled(end, a) { QuietStays(end, a); }
    } else {
      var t :| t in end.tasks && !end.tasks[t].Done?;
      UnfinishedMoves(end, t);
    }
  }

  lemma {:induction false} Finish(s: State) returns (more: seq<Action>)
    requires Inv(s) && LockInv(s)
    ensures IsRun(s, more) && (forall a :: a in more ==> Advances(a)) && Quiet(Exec(s, more))
    decreases Work(s)
  {
    if Quiet(s) {
      more := [];
    } else {
      var t :| t in s.tasks && !s.tasks[t].Done?;
      UnfinishedMoves(s, t);
      var a :| Enabled(s, a) && Advances(a);
      StepKeeps(s, a);
      StepKeepsLocks(s, a);
      StepWorks(s, a);
      var rest := Finish(Next(s, a));
      more := [a] + rest;
      assert more[0] == a && more[1..] == rest;
    }
  }

  /** Every reachable state can be brought to rest without a fault, and at rest
      every count is the walked holders plus the leak. */
  lemma EveryStateCanRest(n: nat, run: seq<Action>) returns (more: seq<Action>)
    requires n > 0 && IsRun(Init(n), run)
    ensures IsRun(Exec(Init(n), run), more) && forall a :: a in more ==> Advances(a)
    ensures var end := Exec(Exec(Init(n), run), more);
            && Quiet(end) && end.locks == map[]
            && forall b: BlockId :: Rc(end.blocks, b) == Expected(end, b) + Count(end.leaked, b)
  {
    var s := Exec(Init(n), run);
    InitInv(n);
    RunKeeps(Init(n), run);
    RunKeepsLocks(Init(n), run);
    more := Finish(s);
    RunKeeps(s, more);
    RunKeepsLocks(s, more);
    var end := Exec(s, more);
    QuietHoldsNothing(end);
    forall b: BlockId ensures Rc(end.blocks, b) == Expected(end, b) + Count(end.leaked, b) {
      QuietOwesNothing(end.tasks, b);
      assert Rc(end.blocks, b) == Total(end, b);
    }
  }
}
