/** No object ever lies in a tree the store keeps for itself. */
module ProtocolNames {
  import opened Protocol

  /** The store keeps every name that starts with an underscore for itself. */
  predicate IsReserved(name: string) {
    name != [] && name[0] == '_'
  }

  /** The step brings in no reserved bucket name: buckets with such a name cannot be
      created, and a request names a bucket that was. */
  predicate Unreserved(a: Action) {
    match a
    case Request(_, BeginPut(ObjectGoal(k))) => !IsReserved(k.bucket)
    case Request(_, BeginClone(_, dest)) => !IsReserved(dest.bucket)
    case OnStore(CreateUpload(u)) => !IsReserved(u.bucket)
    case _ => true
  }

  predicate GoalNamed(goal: Goal) { goal.ObjectGoal? ==> !IsReserved(goal.dest.bucket) }

  predicate TaskNamed(x: Task) {
    match x
    case Writing(goal, _) => GoalNamed(goal)
    case Parked(goal, _, _, _, _) => GoalNamed(goal)
    case Publishing(goal, _) => GoalNamed(goal)
    case Acquiring(copy, _, _, _) => !IsReserved(copy.bucket)
    case _ => true
  }

  ghost predicate Named(s: State) {
    && (forall k :: k in s.objects ==> !IsReserved(k.bucket))
    && (forall u :: u in s.uploads ==> !IsReserved(u.bucket))
    && (forall t :: t in s.tasks ==> TaskNamed(s.tasks[t]))
  }

  /** A step of `t` that brings in no bucket name. */
  lemma OneTaskNamed(s: State, s': State, t: TaskId)
    requires Named(s) && t in s'.tasks && s'.tasks == s.tasks[t := s'.tasks[t]] && TaskNamed(s'.tasks[t])
    requires s'.objects.Keys <= s.objects.Keys && s'.uploads <= s.uploads
    ensures Named(s')
  {
  }

  lemma PublishNamed(s: State, t: TaskId)
    requires Named(s) && Is(s, t) && s.tasks[t].Publishing?
    ensures Named(DoPublish(s, t))
  {
    var s' := DoPublish(s, t);
    assert TaskNamed(s.tasks[t]);
    match s.tasks[t].goal
    case ObjectGoal(k) =>
      assert s'.objects.Keys == s.objects.Keys + {k} && s'.uploads == s.uploads;
      OneTaskNamed(s, SetTask(s, t, s'.tasks[t]), t);
    case PartGoal(_) => OneTaskNamed(s, s', t);
  }

  lemma DeleteNamed(s: State, t: TaskId, k: ObjectKey)
    requires Named(s) && Fresh(s, t)
    ensures Named(DoBeginDelete(s, t, k))
  {
    if k in s.objects {
      var s' := DoBeginDelete(s, t, k);
      assert s'.objects == s.objects - {k} && s'.uploads == s.uploads;
      OneTaskNamed(s, s', t);
    } else {
      OneTaskNamed(s, SetTask(s, t, Done(Finished)), t);
    }
  }

  lemma RequestNamed(s: State, t: TaskId, a: RequestStep)
    requires Named(s) && CanRequest(s, t, a) && Unreserved(Request(t, a))
    ensures Named(DoRequest(s, t, a))
  {
    var s' := DoRequest(s, t, a);
    assert t in s.tasks ==> TaskNamed(s.tasks[t]);
    match a
    case Publish => PublishNamed(s, t);
    case Abandon => OneTaskNamed(s, DoAbandon(s, t), t);
    case BeginDelete(k) => DeleteNamed(s, t, k);
    case _ => OneTaskNamed(s, s', t);
  }

  lemma OnBlockNamed(s: State, t: TaskId, a: BlockStep)
    requires Named(s) && s.n > 0 && CanOnBlock(s, t, a)
    ensures Named(DoOnBlock(s, t, a))
  {
    assert TaskNamed(s.tasks[t]);
    match a
    case LockBlock => OneTaskNamed(s, DoLockBlock(s, t), t);
    case DecrementBlock => OneTaskNamed(s, DoDecrement(s, t), t);
    case FailDecrement => OneTaskNamed(s, DoFailDecrement(s, t), t);
    case UnlinkFile(ok) => OneTaskNamed(s, DoUnlink(s, t, ok), t);
    case BumpBlock => OneTaskNamed(s, DoBump(s, t), t);
    case FailBump => OneTaskNamed(s, DoFailBump(s, t), t);
    case LoseBump(committed) => OneTaskNamed(s, DoLoseBump(s, t, committed), t);
  }

  lemma CompleteNamed(s: State, t: TaskId, u: Upload, numbers: seq<int>)
    requires Named(s) && Fresh(s, t)
    ensures Named(DoBeginComplete(s, t, u, numbers))
  {
    if u in s.uploads && TakeParts(s.parts, u, numbers).Some? {
      var s' := DoBeginComplete(s, t, u, numbers);
      assert s'.objects == s.objects && s'.uploads == s.uploads - {u};
      OneTaskNamed(s, s', t);
    } else {
      OneTaskNamed(s, SetTask(s, t, Done(Failed)), t);
    }
  }

  lemma AbortNamed(s: State, t: TaskId, u: Upload, keys: seq<PartKey>)
    requires Named(s) && Fresh(s, t)
    ensures Named(DoBeginAbort(s, t, u, keys))
  {
    if u in s.uploads {
      var s' := DoBeginAbort(s, t, u, keys);
      assert s'.objects == s.objects && s'.uploads == s.uploads - {u};
      OneTaskNamed(s, s', t);
    } else {
      OneTaskNamed(s, SetTask(s, t, Done(Failed)), t);
    }
  }

  lemma NextPartNamed(s: State, t: TaskId)
    requires Named(s) && BetweenParts(s, t) && s.tasks[t].rest != []
    ensures Named(DoNextPart(s, t))
  {
    var s' := DoNextPart(s, t);
    assert s'.objects == s.objects && s'.uploads == s.uploads;
    OneTaskNamed(s, s', t);
  }

  lemma OnUploadNamed(s: State, t: TaskId, a: UploadStep)
    requires Named(s) && CanOnUpload(s, t, a)
    ensures Named(DoOnUpload(s, t, a))
  {
    match a
    case BeginComplete(u, numbers) => CompleteNamed(s, t, u, numbers);
    case BeginAbort(u, keys) => AbortNamed(s, t, u, keys);
    case NextPart => NextPartNamed(s, t);
    case _ => OneTaskNamed(s, DoOnUpload(s, t, a), t);
  }

  /** A group's steps leave every task what it writes. */
  lemma GroupNamed(s: State, t: TaskId, a: GroupStep)
    requires Named(s) && s.n > 0 && CanGroup(s, t, a)
    ensures Named(DoGroup(s, t, a))
  {
    var s' := DoGroup(s, t, a);
    assert s'.objects == s.objects && s'.uploads == s.uploads;
    forall u | u in s'.tasks ensures TaskNamed(s'.tasks[u]) {
      assert u in s.tasks ==> TaskNamed(s.tasks[u]);
    }
  }

  lemma OnStoreNamed(s: State, a: StoreStep)
    requires Named(s) && Unreserved(OnStore(a))
    ensures Named(DoOnStore(s, a))
  {
    var s' := DoOnStore(s, a);
    assert s'.objects.Keys <= s.objects.Keys;
    assert a.Crash? || s'.tasks == s.tasks;
  }

  lemma StepNamed(s: State, a: Action)
    requires Named(s) && s.n > 0 && Enabled(s, a) && Unreserved(a)
    ensures Named(Next(s, a))
  {
    match a
    case Request(t, step) => RequestNamed(s, t, step);
    case Group(t, step) => GroupNamed(s, t, step);
    case OnBlock(t, step) => OnBlockNamed(s, t, step);
    case OnUpload(t, step) => OnUploadNamed(s, t, step);
    case OnStore(step) => OnStoreNamed(s, step);
  }

  lemma {:induction false} RunNamed(s: State, run: seq<Action>)
    requires Named(s) && s.n > 0 && IsRun(s, run) && forall a :: a in run ==> Unreserved(a)
    ensures Named(Exec(s, run))
    decreases |run|
  {
    if run != [] {
      assert run[0] in run;
      StepNamed(s, run[0]);
      RunNamed(Next(s, run[0]), run[1..]);
    }
  }
}
