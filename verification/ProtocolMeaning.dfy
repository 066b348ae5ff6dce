/** What the requests mean for the records: a store without tasks, stripes or counts,
    in which each request takes effect at one step, and which every run agrees with. */
module ProtocolMeaning {
  import opened Ids
  import opened Protocol
  import opened ProtocolUploads
  import opened ProtocolClone

  /** What a request has set out to do: write a record, with the list put together for it
      so far, or take out the part records on a list. */
  datatype Plan = Writes(goal: Goal, list: seq<BlockId>) | Reaps(keys: seq<PartKey>)

  datatype Simple = Simple(objects: map<ObjectKey, seq<BlockId>>, parts: map<PartKey, seq<BlockId>>,
                           uploads: set<Upload>, plans: map<TaskId, Plan>)

  function Planned(v: Simple, t: TaskId, p: Plan): Simple { v.(plans := v.plans[t := p]) }

  /** The record a request planned appears under the name it planned. */
  function Written(v: Simple, t: TaskId): Simple {
    if t in v.plans && v.plans[t].Writes? then
      match v.plans[t].goal
      case ObjectGoal(k) => v.(objects := v.objects[k := v.plans[t].list])
      case PartGoal(pk) => v.(parts := v.parts[pk := v.plans[t].list])
    else v
  }

  function AfterRequest(v: Simple, t: TaskId, a: RequestStep): Simple {
    match a
    case BeginPut(goal) => Planned(v, t, Writes(goal, []))
    case SealBatch(batch) =>
      if t in v.plans && v.plans[t].Writes? then Planned(v, t, Writes(v.plans[t].goal, v.plans[t].list + batch)) else v
    case Publish => Written(v, t)
    case BeginDelete(k) => v.(objects := v.objects - {k})
    case BeginClone(src, dest) =>
      if src in v.objects then Planned(v, t, Writes(ObjectGoal(dest), v.objects[src])) else v
    case _ => v
  }

  /** Every named part is there, and none is named twice. */
  ghost predicate Claimable(parts: map<PartKey, seq<BlockId>>, u: Upload, numbers: seq<int>) {
    NoDup(numbers) && forall k :: k in Named(u, numbers) ==> k in parts
  }

  /** The next part on the list of `t`. */
  function Head(v: Simple, t: TaskId): seq<PartKey> {
    if t in v.plans && v.plans[t].Reaps? && v.plans[t].keys != [] then [v.plans[t].keys[0]] else []
  }

  function Stepped(v: Simple, t: TaskId): Simple {
    if Head(v, t) != [] then Planned(v, t, Reaps(v.plans[t].keys[1..])) else v
  }

  ghost function AfterUpload(v: Simple, t: TaskId, a: UploadStep): Simple {
    match a
    case BeginComplete(u, numbers) =>
      if u in v.uploads && Claimable(v.parts, u, numbers) then
        Planned(v.(parts := v.parts - (set k | k in Named(u, numbers)), uploads := v.uploads - {u}), t,
                Writes(ObjectGoal(ObjectKey(u.bucket, u.key)), Joined(v.parts, Named(u, numbers))))
      else v
    case BeginAbort(u, keys) => if u in v.uploads then Planned(v.(uploads := v.uploads - {u}), t, Reaps(keys)) else v
    case BeginSweep => Planned(v, t, Reaps([]))
    case CollectOrphan(pk) =>
      if t in v.plans && v.plans[t].Reaps? then Planned(v, t, Reaps(v.plans[t].keys + [pk])) else v
    case NextPart => Stepped(v, t).(parts := v.parts - (set k | k in Head(v, t)))
    case SkipPart => Stepped(v, t)
    case _ => v
  }

  function AfterStore(v: Simple, a: StoreStep): Simple {
    match a
    case CreateUpload(u) => v.(uploads := v.uploads + {u})
    case DropBucket(bucket) => v.(objects := map k | k in v.objects && k.bucket != bucket :: v.objects[k])
    case Crash => v.(plans := map[])
    case _ => v
  }

  /** What an action means for the records; committers and single references mean
      nothing. */
  ghost function After(v: Simple, a: Action): Simple {
    match a
    case Request(t, step) => AfterRequest(v, t, step)
    case OnUpload(t, step) => AfterUpload(v, t, step)
    case OnStore(step) => AfterStore(v, step)
    case _ => v
  }

  ghost function AfterAll(v: Simple, run: seq<Action>): Simple
    decreases |run|
  {
    if run == [] then v else AfterAll(After(v, run[0]), run[1..])
  }

  // ------------------------------------------------------ the protocol agrees

  /** A task stands where its plan says. A request that waits for a batch has planned
      it already; one whose client hung up no longer follows a plan. */
  predicate OnPlan(x: Task, t: TaskId, plans: map<TaskId, Plan>) {
    match x
    case Writing(goal, got) => t in plans && plans[t] == Writes(goal, got)
    case Parked(goal, got, batch, _, waiting) => waiting ==> t in plans && plans[t] == Writes(goal, got + batch)
    case Publishing(goal, got) => t in plans && plans[t] == Writes(goal, got)
    case Acquiring(copy, blocks, _, _) => t in plans && plans[t] == Writes(ObjectGoal(copy), blocks)
    case Releasing(_, _, rest, _) => rest != [] ==> t in plans && plans[t] == Reaps(rest)
    case Sweeping(orphans) => t in plans && plans[t] == Reaps(orphans)
    case _ => true
  }

  ghost predicate Agrees(s: State, v: Simple) {
    && s.objects == v.objects && s.parts == v.parts && s.uploads == v.uploads
    && forall t :: t in s.tasks ==> OnPlan(s.tasks[t], t, v.plans)
  }

  /** The plans of everybody but `t` are as they were. */
  predicate OthersKeep(plans: map<TaskId, Plan>, plans': map<TaskId, Plan>, t: TaskId) {
    forall u :: u in plans && u != t ==> u in plans' && plans'[u] == plans[u]
  }

  lemma OneAgrees(s: State, s': State, t: TaskId, v: Simple, v': Simple)
    requires Agrees(s, v) && t in s'.tasks && s'.tasks == s.tasks[t := s'.tasks[t]]
    requires s'.objects == v'.objects && s'.parts == v'.parts && s'.uploads == v'.uploads
    requires OthersKeep(v.plans, v'.plans, t) && OnPlan(s'.tasks[t], t, v'.plans)
    ensures Agrees(s', v')
  {
    forall u | u in s'.tasks ensures OnPlan(s'.tasks[u], u, v'.plans) {
      if u != t { assert OnPlan(s.tasks[u], u, v.plans); }
    }
  }

  lemma PublishAgrees(s: State, t: TaskId, v: Simple)
    requires Agrees(s, v) && Is(s, t) && s.tasks[t].Publishing?
    ensures Agrees(DoPublish(s, t), Written(v, t))
  {
    var s', v', x := DoPublish(s, t), Written(v, t), s.tasks[t];
    assert OnPlan(x, t, v.plans);
    assert v.plans[t] == Writes(x.goal, x.got);
    match x.goal {
      case ObjectGoal(k) => assert s'.objects == v'.objects && s'.parts == v'.parts && s'.uploads == v'.uploads;
      case PartGoal(pk) => assert s'.objects == v'.objects && s'.parts == v'.parts && s'.uploads == v'.uploads;
    }
    assert s'.tasks[t].Done? || (s'.tasks[t].Releasing? && s'.tasks[t].rest == []);
    OneAgrees(s, s', t, v, v');
  }

  lemma AbandonAgrees(s: State, t: TaskId, v: Simple)
    requires Agrees(s, v) && CanAbandon(s, t)
    ensures Agrees(DoAbandon(s, t), v)
  {
    OneAgrees(s, DoAbandon(s, t), t, v, v);
  }

  /** Requests that begin. */
  lemma BeginAgrees(s: State, t: TaskId, a: RequestStep, v: Simple)
    requires Agrees(s, v) && CanRequest(s, t, a) && (a.BeginPut? || a.BeginDelete? || a.BeginClone?)
    ensures Agrees(DoRequest(s, t, a), AfterRequest(v, t, a))
  {
    var s', v' := DoRequest(s, t, a), AfterRequest(v, t, a);
    assert a.BeginDelete? && a.key !in v.objects ==> v'.objects == v.objects;
    OneAgrees(s, s', t, v, v');
  }

  lemma RequestAgrees(s: State, t: TaskId, a: RequestStep, v: Simple)
    requires Agrees(s, v) && CanRequest(s, t, a)
    ensures Agrees(DoRequest(s, t, a), AfterRequest(v, t, a))
  {
    match a
    case Publish => PublishAgrees(s, t, v);
    case Abandon => AbandonAgrees(s, t, v);
    case SealBatch(_) =>
      assert OnPlan(s.tasks[t], t, v.plans);
      OneAgrees(s, DoRequest(s, t, a), t, v, AfterRequest(v, t, a));
    case EndStream =>
      assert OnPlan(s.tasks[t], t, v.plans);
      OneAgrees(s, DoRequest(s, t, a), t, v, v);
    case EndAcquire =>
      assert OnPlan(s.tasks[t], t, v.plans);
      OneAgrees(s, DoRequest(s, t, a), t, v, v);
    case _ => BeginAgrees(s, t, a, v);
  }

  lemma CompleteAgrees(s: State, t: TaskId, u: Upload, numbers: seq<int>, v: Simple)
    requires Agrees(s, v) && Fresh(s, t)
    ensures Agrees(DoBeginComplete(s, t, u, numbers), AfterUpload(v, t, BeginComplete(u, numbers)))
  {
    ClaimTakesExactlyTheNamed(s.parts, u, numbers);
    OneAgrees(s, DoBeginComplete(s, t, u, numbers), t, v, AfterUpload(v, t, BeginComplete(u, numbers)));
  }

  lemma NextPartAgrees(s: State, t: TaskId, v: Simple)
    requires Agrees(s, v) && BetweenParts(s, t) && s.tasks[t].rest != []
    ensures Agrees(DoNextPart(s, t), AfterUpload(v, t, NextPart))
  {
    var pk := s.tasks[t].rest[0];
    assert OnPlan(s.tasks[t], t, v.plans);
    assert Head(v, t) == [pk];
    assert (set k | k in [pk]) == {pk};
    assert pk !in v.parts ==> v.parts - {pk} == v.parts;
    OneAgrees(s, DoNextPart(s, t), t, v, AfterUpload(v, t, NextPart));
  }

  lemma UploadAgrees(s: State, t: TaskId, a: UploadStep, v: Simple)
    requires Agrees(s, v) && CanOnUpload(s, t, a)
    ensures Agrees(DoOnUpload(s, t, a), AfterUpload(v, t, a))
  {
    match a
    case BeginComplete(u, numbers) => CompleteAgrees(s, t, u, numbers, v);
    case NextPart => NextPartAgrees(s, t, v);
    case BeginAbort(u, keys) => AbortAgrees(s, t, u, keys, v);
    case BeginSweep => OneAgrees(s, SetTask(s, t, Sweeping([])), t, v, AfterUpload(v, t, a));
    case _ => ListAgrees(s, t, a, v);
  }

  lemma AbortAgrees(s: State, t: TaskId, u: Upload, keys: seq<PartKey>, v: Simple)
    requires Agrees(s, v) && Fresh(s, t)
    ensures Agrees(DoBeginAbort(s, t, u, keys), AfterUpload(v, t, BeginAbort(u, keys)))
  {
    var s' := DoBeginAbort(s, t, u, keys);
    if u in s.uploads {
      assert s'.tasks[t] == Releasing([], Idle, keys, Finished);
      OneAgrees(s, s', t, v, Planned(v.(uploads := v.uploads - {u}), t, Reaps(keys)));
    } else {
      assert s'.tasks[t] == Done(Failed);
      OneAgrees(s, s', t, v, v);
    }
  }

  /** Steps along a list of parts. */
  lemma ListAgrees(s: State, t: TaskId, a: UploadStep, v: Simple)
    requires Agrees(s, v) && CanOnUpload(s, t, a) && (a.CollectOrphan? || a.EndSweep? || a.SkipPart? || a.EndRelease?)
    ensures Agrees(DoOnUpload(s, t, a), AfterUpload(v, t, a))
  {
    var x := s.tasks[t];
    assert OnPlan(x, t, v.plans);
    match a
    case CollectOrphan(pk) => OneAgrees(s, SetTask(s, t, Sweeping(x.orphans + [pk])), t, v, AfterUpload(v, t, a));
    case EndSweep => OneAgrees(s, SetTask(s, t, Releasing([], Idle, x.orphans, Finished)), t, v, v);
    case SkipPart => OneAgrees(s, SetTask(s, t, x.(rest := x.rest[1..])), t, v, Stepped(v, t));
    case EndRelease => OneAgrees(s, SetTask(s, t, Done(x.answer)), t, v, v);
  }

  lemma BlockAgrees(s: State, t: TaskId, a: BlockStep, v: Simple)
    requires s.n > 0 && Agrees(s, v) && CanOnBlock(s, t, a)
    ensures Agrees(DoOnBlock(s, t, a), v)
  {
    assert OnPlan(s.tasks[t], t, v.plans);
    OneAgrees(s, DoOnBlock(s, t, a), t, v, v);
  }

  lemma TwoAgree(s: State, s': State, c: TaskId, m: TaskId, v: Simple)
    requires Agrees(s, v) && c in s'.tasks && m in s'.tasks
    requires s'.tasks == s.tasks[m := s'.tasks[m]][c := s'.tasks[c]]
    requires s'.objects == s.objects && s'.parts == s.parts && s'.uploads == s.uploads
    requires OnPlan(s'.tasks[c], c, v.plans) && OnPlan(s'.tasks[m], m, v.plans)
    ensures Agrees(s', v)
  {
    forall u | u in s'.tasks ensures OnPlan(s'.tasks[u], u, v.plans) {
      if u != c && u != m { assert OnPlan(s.tasks[u], u, v.plans); }
    }
  }

  lemma GroupAgrees(s: State, c: TaskId, a: GroupStep, v: Simple)
    requires s.n > 0 && Agrees(s, v) && CanGroup(s, c, a)
    ensures Agrees(DoGroup(s, c, a), v)
  {
    var s' := DoGroup(s, c, a);
    match a
    case BeginGroup(m) => assert OnPlan(s.tasks[m], m, v.plans); TwoAgree(s, s', c, m, v);
    case JoinGroup(m) => assert OnPlan(s.tasks[m], m, v.plans); TwoAgree(s, s', c, m, v);
    case CommitMember =>
      var m := s.tasks[c].members[0];
      assert OnPlan(s.tasks[m], m, v.plans);
      TwoAgree(s, s', c, m, v);
    case RefuseMember => TwoAgree(s, s', c, s.tasks[c].members[0], v);
    case FailMember => TwoAgree(s, s', c, s.tasks[c].members[0], v);
    case _ => OneAgrees(s, s', c, v, v);
  }

  lemma StoreAgrees(s: State, a: StoreStep, v: Simple)
    requires Agrees(s, v)
    ensures Agrees(DoOnStore(s, a), AfterStore(v, a))
  {
    match a
    case DropBucket(bucket) =>
      assert s.objects - (set k | k in s.objects && k.bucket == bucket)
          == map k | k in v.objects && k.bucket != bucket :: v.objects[k];
    case _ =>
  }

  lemma StepAgrees(s: State, a: Action, v: Simple)
    requires s.n > 0 && Agrees(s, v) && Enabled(s, a)
    ensures Agrees(Next(s, a), After(v, a))
  {
    match a
    case Request(t, step) => RequestAgrees(s, t, step, v);
    case Group(t, step) => GroupAgrees(s, t, step, v);
    case OnBlock(t, step) => BlockAgrees(s, t, step, v);
    case OnUpload(t, step) => UploadAgrees(s, t, step, v);
    case OnStore(step) => StoreAgrees(s, step, v);
  }

  lemma {:induction false} RunAgrees(s: State, run: seq<Action>, v: Simple)
    requires s.n > 0 && IsRun(s, run) && Agrees(s, v)
    ensures Agrees(Exec(s, run), AfterAll(v, run))
    decreases |run|
  {
    if run != [] {
      StepAgrees(s, run[0], v);
      RunAgrees(Next(s, run[0]), run[1..], After(v, run[0]));
    }
  }

  /** Over every run, whatever the interleaving, failures and crashes: the object, part
      and upload records are those of the simple store given the same actions. */
  lemma RecordsMeanTheRequests(n: nat, run: seq<Action>)
    requires n > 0 && IsRun(Init(n), run)
    ensures var s, v := Exec(Init(n), run), AfterAll(Simple(map[], map[], {}, map[]), run);
            s.objects == v.objects && s.parts == v.parts && s.uploads == v.uploads
  {
    RunAgrees(Init(n), run, Simple(map[], map[], {}, map[]));
  }

  // ------------------------------------------------ where one request ends up

  /** What `t` has sealed in a run, batch after batch. */
  function SealedBy(run: seq<Action>, t: TaskId): seq<BlockId> {
    if run == [] then []
    else
      (if run[0].Request? && run[0].t == t && run[0].request.SealBatch? then run[0].request.batch else [])
        + SealedBy(run[1..], t)
  }

  lemma SealedStep(run: seq<Action>, t: TaskId)
    requires run != []
    ensures SealedBy(run, t) == SealedBy([run[0]], t) + SealedBy(run[1..], t)
  {
    assert [run[0]][1..] == [] && SealedBy([], t) == [];
    assert SealedBy([run[0]], t) + [] == SealedBy([run[0]], t);
  }

  lemma GroupTaskStays(s: State, u: TaskId, a: GroupStep, t: TaskId)
    requires s.n > 0 && CanGroup(s, u, a) && t in s.tasks
    ensures t in DoGroup(s, u, a).tasks
  {
  }

  /** A task does not disappear. */
  lemma TaskStays(s: State, a: Action, t: TaskId)
    requires s.n > 0 && Enabled(s, a) && t in s.tasks && a != OnStore(Crash)
    ensures t in Next(s, a).tasks
  {
    if a.Group? { GroupTaskStays(s, a.t, a.group, t); }
  }

  /** `t` has planned to write under this name, and this is its list so far. */
  predicate HasPlan(v: Simple, t: TaskId, goal: Goal, list: seq<BlockId>) {
    t in v.plans && v.plans[t] == Writes(goal, list)
  }

  lemma RequestPlanGrows(s: State, u: TaskId, a: RequestStep, t: TaskId, v: Simple, goal: Goal, list: seq<BlockId>)
    requires CanRequest(s, u, a) && t in s.tasks && HasPlan(v, t, goal, list)
    ensures HasPlan(AfterRequest(v, u, a), t, goal, list + if u == t && a.SealBatch? then a.batch else [])
  {
    assert list + [] == list;
  }

  lemma UploadPlanStays(s: State, u: TaskId, a: UploadStep, t: TaskId, v: Simple, goal: Goal, list: seq<BlockId>)
    requires CanOnUpload(s, u, a) && t in s.tasks && HasPlan(v, t, goal, list)
    ensures HasPlan(AfterUpload(v, u, a), t, goal, list)
  {
  }

  /** Nobody else changes the plan of a task, and nobody begins it again. */
  lemma PlanGrows(s: State, a: Action, t: TaskId, v: Simple, goal: Goal, list: seq<BlockId>)
    requires s.n > 0 && Enabled(s, a) && t in s.tasks && a != OnStore(Crash) && HasPlan(v, t, goal, list)
    ensures HasPlan(After(v, a), t, goal, list + SealedBy([a], t))
  {
    assert [a][1..] == [] && SealedBy([], t) == [] && list + [] == list;
    match a
    case Request(u, step) => RequestPlanGrows(s, u, step, t, v, goal, list);
    case OnUpload(u, step) => UploadPlanStays(s, u, step, t, v, goal, list);
    case OnStore(step) =>
    case Group(_, _) =>
    case OnBlock(_, _) =>
  }

  lemma {:induction false} PlanOverRun(s: State, run: seq<Action>, t: TaskId, v: Simple, goal: Goal, list: seq<BlockId>)
    requires s.n > 0 && IsRun(s, run) && NoCrash(run) && t in s.tasks && HasPlan(v, t, goal, list)
    ensures t in Exec(s, run).tasks && HasPlan(AfterAll(v, run), t, goal, list + SealedBy(run, t))
    decreases |run|
  {
    if run == [] {
      assert list + [] == list;
    } else {
      var a, rest := run[0], run[1..];
      assert a != OnStore(Crash) && NoCrash(rest);
      TaskStays(s, a, t);
      PlanGrows(s, a, t, v, goal, list);
      PlanOverRun(Next(s, a), rest, t, After(v, a), goal, list + SealedBy([a], t));
      SealedStep(run, t);
      assert list + SealedBy([a], t) + SealedBy(rest, t) == list + SealedBy(run, t);
    }
  }

  /** The record is out, or will never be. */
  predicate Ending(x: Task) { x.Done? || (x.Releasing? && x.rest == []) }

  /** A request that seals no more batches. */
  predicate Settled(x: Task) { x.Acquiring? || x.Publishing? || Ending(x) }

  lemma OwnRequestSettles(s: State, t: TaskId, a: RequestStep)
    requires CanRequest(s, t, a) && t in s.tasks && Settled(s.tasks[t])
    ensures var x := DoRequest(s, t, a).tasks[t];
            Settled(x) && (Ending(s.tasks[t]) || a.Publish? ==> Ending(x)) && !a.SealBatch?
  {
  }

  lemma OwnBlockSettles(s: State, t: TaskId, a: BlockStep)
    requires s.n > 0 && CanOnBlock(s, t, a) && Settled(s.tasks[t])
    ensures var x := DoOnBlock(s, t, a).tasks[t]; Settled(x) && (Ending(s.tasks[t]) ==> Ending(x))
  {
  }

  lemma OwnUploadSettles(s: State, t: TaskId, a: UploadStep)
    requires CanOnUpload(s, t, a) && t in s.tasks && Settled(s.tasks[t])
    ensures Ending(s.tasks[t]) && Ending(DoOnUpload(s, t, a).tasks[t])
  {
  }

  lemma OwnStepSettles(s: State, a: Action, t: TaskId)
    requires s.n > 0 && Enabled(s, a) && t in s.tasks && Settled(s.tasks[t]) && Actor(a) == Some(t)
    ensures t in Next(s, a).tasks && Settled(Next(s, a).tasks[t])
    ensures Ending(s.tasks[t]) || a == Request(t, Publish) ==> Ending(Next(s, a).tasks[t])
    ensures !(a.Request? && a.request.SealBatch?)
  {
    match a
    case Request(_, step) => OwnRequestSettles(s, t, step);
    case OnBlock(_, step) => OwnBlockSettles(s, t, step);
    case OnUpload(_, step) => OwnUploadSettles(s, t, step);
    case Group(_, step) =>
  }

  lemma SettledStep(s: State, a: Action, t: TaskId)
    requires s.n > 0 && Enabled(s, a) && t in s.tasks && Settled(s.tasks[t]) && a != OnStore(Crash)
    ensures t in Next(s, a).tasks && Settled(Next(s, a).tasks[t])
    ensures Ending(s.tasks[t]) || a == Request(t, Publish) ==> Ending(Next(s, a).tasks[t])
    ensures SealedBy([a], t) == []
  {
    assert [a][1..] == [];
    if Actor(a) == Some(t) {
      OwnStepSettles(s, a, t);
    } else {
      StrangersSpare(s, a, t);
    }
  }

  predicate NoPublish(run: seq<Action>, t: TaskId) {
    forall i :: 0 <= i < |run| ==> run[i] != Request(t, Publish)
  }

  lemma {:induction false} SettledRun(s: State, run: seq<Action>, t: TaskId)
    requires s.n > 0 && IsRun(s, run) && NoCrash(run) && t in s.tasks && Settled(s.tasks[t])
    ensures t in Exec(s, run).tasks && Settled(Exec(s, run).tasks[t]) && SealedBy(run, t) == []
    ensures Ending(s.tasks[t]) || !NoPublish(run, t) ==> Ending(Exec(s, run).tasks[t])
    decreases |run|
  {
    if run != [] {
      var a := run[0];
      assert a != OnStore(Crash);
      SettledStep(s, a, t);
      assert NoCrash(run[1..]);
      SettledRun(Next(s, a), run[1..], t);
      SealedStep(run, t);
      if !NoPublish(run, t) && a != Request(t, Publish) {
        var i :| 0 <= i < |run| && run[i] == Request(t, Publish);
        assert run[1..][i - 1] == Request(t, Publish);
      }
    }
  }

  function PlanOf(x: Task): Plan {
    match x
    case Writing(goal, got) => Writes(goal, got)
    case Parked(goal, got, batch, _, _) => Writes(goal, got + batch)
    case Publishing(goal, got) => Writes(goal, got)
    case Acquiring(copy, blocks, _, _) => Writes(ObjectGoal(copy), blocks)
    case Releasing(_, _, rest, _) => Reaps(rest)
    case Sweeping(orphans) => Reaps(orphans)
    case _ => Reaps([])
  }

  /** The simple store a state stands for. */
  function View(s: State): Simple {
    Simple(s.objects, s.parts, s.uploads, map t | t in s.tasks :: PlanOf(s.tasks[t]))
  }

  lemma ViewAgrees(s: State)
    ensures Agrees(s, View(s))
  {
  }

  /** The record appears under the planned name, with the planned list, and no other
      record changes. */
  predicate Appears(s: State, s': State, goal: Goal, list: seq<BlockId>) {
    match goal
    case ObjectGoal(k) => s'.objects == s.objects[k := list] && s'.parts == s.parts
    case PartGoal(pk) => s'.parts == s.parts[pk := list] && s'.objects == s.objects
  }

  lemma PublishesThePlan(s: State, v: Simple, t: TaskId, goal: Goal, list: seq<BlockId>)
    requires Agrees(s, v) && HasPlan(v, t, goal, list) && CanRequest(s, t, Publish)
    ensures Appears(s, DoPublish(s, t), goal, list)
  {
    assert OnPlan(s.tasks[t], t, v.plans);
    assert s.tasks[t].goal == goal && s.tasks[t].got == list;
  }

  /** From any state in which `t` stands for this plan, over any interleaving without a
      crash: what `t` publishes in the end is its plan and what it sealed since. */
  lemma RunPublishesThePlan(s: State, run: seq<Action>, t: TaskId, goal: Goal, list: seq<BlockId>)
    requires s.n > 0 && t in s.tasks && PlanOf(s.tasks[t]) == Writes(goal, list)
    requires IsRun(s, run) && NoCrash(run) && CanRequest(Exec(s, run), t, Publish)
    ensures Appears(Exec(s, run), DoPublish(Exec(s, run), t), goal, list + SealedBy(run, t))
  {
    var v := View(s);
    ViewAgrees(s);
    RunAgrees(s, run, v);
    PlanOverRun(s, run, t, v, goal, list);
    PublishesThePlan(Exec(s, run), AfterAll(v, run), t, goal, list + SealedBy(run, t));
  }

  /** After its publication a request is as good as over. */
  lemma {:induction false} PublishedEnds(s: State, run: seq<Action>, t: TaskId)
    requires s.n > 0 && IsRun(s, run) && NoCrash(run) && t in s.tasks && !NoPublish(run, t)
    ensures t in Exec(s, run).tasks && Ending(Exec(s, run).tasks[t])
    decreases |run|
  {
    var a, rest := run[0], run[1..];
    assert a != OnStore(Crash) && NoCrash(rest);
    TaskStays(s, a, t);
    if a == Request(t, Publish) {
      SettledRun(s, run, t);
    } else {
      var i :| 0 <= i < |run| && run[i] == Request(t, Publish);
      assert rest[i - 1] == Request(t, Publish);
      PublishedEnds(Next(s, a), rest, t);
    }
  }

  /** A put, begun in any state: the record it publishes is under the name it began with
      and lists the batches it sealed, in order; until then it writes no record. */
  lemma PutWritesWhatItSealed(s: State, t: TaskId, goal: Goal, run: seq<Action>)
    requires s.n > 0 && CanRequest(s, t, BeginPut(goal))
    requires var s1 := DoRequest(s, t, BeginPut(goal)); IsRun(s1, run) && CanRequest(Exec(s1, run), t, Publish)
    requires NoCrash(run)
    ensures var s2 := Exec(DoRequest(s, t, BeginPut(goal)), run);
            Appears(s2, DoPublish(s2, t), goal, SealedBy(run, t)) && NoPublish(run, t)
  {
    RunPublishesThePlan(DoRequest(s, t, BeginPut(goal)), run, t, goal, []);
    if !NoPublish(run, t) { PublishedEnds(DoRequest(s, t, BeginPut(goal)), run, t); }
    assert [] + SealedBy(run, t) == SealedBy(run, t);
  }

  /** Nothing of a settled request appears before its one publication. */
  lemma SettledPublishesOnce(s: State, run: seq<Action>, t: TaskId, goal: Goal, list: seq<BlockId>)
    requires s.n > 0 && t in s.tasks && PlanOf(s.tasks[t]) == Writes(goal, list) && Settled(s.tasks[t])
    requires IsRun(s, run) && NoCrash(run) && CanRequest(Exec(s, run), t, Publish)
    ensures Appears(Exec(s, run), DoPublish(Exec(s, run), t), goal, list) && NoPublish(run, t)
  {
    RunPublishesThePlan(s, run, t, goal, list);
    SettledRun(s, run, t);
    assert list + [] == list;
  }

  /** A clone, begun in any state with its source there: the record it publishes is under
      its destination and lists the source's blocks as they were when it began, whatever
      happened to the source since; until then it writes no record. */
  lemma CloneWritesTheCopy(s: State, t: TaskId, src: ObjectKey, dest: ObjectKey, run: seq<Action>)
    requires s.n > 0 && Fresh(s, t) && src in s.objects && NoCrash(run)
    requires var s1 := DoRequest(s, t, BeginClone(src, dest)); IsRun(s1, run) && CanRequest(Exec(s1, run), t, Publish)
    ensures var s2 := Exec(DoRequest(s, t, BeginClone(src, dest)), run);
            Appears(s2, DoPublish(s2, t), ObjectGoal(dest), s.objects[src]) && NoPublish(run, t)
  {
    SettledPublishesOnce(DoRequest(s, t, BeginClone(src, dest)), run, t, ObjectGoal(dest), s.objects[src]);
  }

  /** A complete, begun in any state in which it wins: the record is under the upload's
      key and lists the blocks of the named parts, in the order of the numbers. */
  lemma CompleteWritesTheParts(s: State, t: TaskId, u: Upload, numbers: seq<int>, run: seq<Action>)
    requires s.n > 0 && Fresh(s, t) && u in s.uploads && Claimable(s.parts, u, numbers) && NoCrash(run)
    requires var s1 := DoBeginComplete(s, t, u, numbers); IsRun(s1, run) && CanRequest(Exec(s1, run), t, Publish)
    ensures var s2 := Exec(DoBeginComplete(s, t, u, numbers), run);
            && Appears(s2, DoPublish(s2, t), ObjectGoal(ObjectKey(u.bucket, u.key)), Joined(s.parts, Named(u, numbers)))
            && NoPublish(run, t)
  {
    ClaimTakesExactlyTheNamed(s.parts, u, numbers);
    SettledPublishesOnce(DoBeginComplete(s, t, u, numbers), run, t, ObjectGoal(ObjectKey(u.bucket, u.key)),
                         Joined(s.parts, Named(u, numbers)));
  }
}
