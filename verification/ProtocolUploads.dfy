/** The multipart lifecycle over whole runs: one winner per upload, one fate per
    part record, and a collector that only ever meets dead uploads. */
module ProtocolUploads {
  import opened Ids
  import opened Protocol

  /** A part record with this serial is still in the tree. */
  ghost predicate Recorded(serials: map<PartKey, nat>, n: nat) {
    exists pk :: pk in serials && serials[pk] == n
  }

  /** The part record with this serial has left the tree. */
  ghost predicate Settled(fates: seq<(nat, Fate)>, n: nat) {
    exists i :: 0 <= i < |fates| && fates[i].0 == n
  }

  /** Every part record ever inserted is either still recorded or has exactly
      one fate. */
  ghost predicate Account(serials: map<PartKey, nat>, fates: seq<(nat, Fate)>, next: nat) {
    && (forall p, q :: p in serials && q in serials && p != q ==> serials[p] != serials[q])
    && (forall i, j :: 0 <= i < j < |fates| ==> fates[i].0 != fates[j].0)
    && (forall n: nat :: Recorded(serials, n) ==> n < next && !Settled(fates, n))
    && (forall n: nat :: Settled(fates, n) ==> n < next)
    && (forall n: nat :: n < next ==> Recorded(serials, n) || Settled(fates, n))
  }

  /** An upload exists from its creation to the one claim that ends it. */
  ghost predicate ClaimsOk(s: State) {
    && s.uploads <= s.ever
    && (forall i :: 0 <= i < |s.wins| ==> s.wins[i].0 in s.ever && s.wins[i].0 !in s.uploads)
    && (forall i, j :: 0 <= i < j < |s.wins| ==> s.wins[i].0 != s.wins[j].0)
  }

  predicate Dead(s: State, u: Upload) { u in s.ever && u !in s.uploads }

  /** Part keys a task is going to reap. */
  function Reapable(x: Task): seq<PartKey> {
    match x
    case Releasing(_, _, rest, _) => rest
    case Sweeping(orphans) => orphans
    case _ => []
  }

  /** The record a task is going to publish, if it is a writer. */
  function GoalOf(x: Task): Option<Goal> {
    match x
    case Writing(goal, _) => Some(goal)
    case Parked(goal, _, _, _, _) => Some(goal)
    case Publishing(goal, _) => Some(goal)
    case _ => None
  }

  predicate GoalKnown(s: State, goal: Option<Goal>) {
    goal.Some? && goal.value.PartGoal? ==> goal.value.part.upload in s.ever
  }

  ghost predicate TaskPartsOk(s: State, x: Task) {
    GoalKnown(s, GoalOf(x)) && forall pk :: pk in Reapable(x) ==> Dead(s, pk.upload)
  }

  ghost predicate PartsOk(s: State) {
    && (forall pk :: pk in s.parts ==> pk.upload in s.ever)
    && (forall t :: t in s.tasks ==> TaskPartsOk(s, s.tasks[t]))
  }

  ghost predicate UploadInv(s: State) {
    && ClaimsOk(s)
    && PartsOk(s)
    && s.parts.Keys == s.serials.Keys
    && Account(s.serials, s.fates, s.nextSerial)
  }

  // -------------------------------------------------------------- accounts

  /** Taking one record out gives its serial its fate. */
  lemma AccountTake(serials: map<PartKey, nat>, fates: seq<(nat, Fate)>, next: nat, pk: PartKey, fate: Fate)
    requires Account(serials, fates, next) && pk in serials
    ensures Account(serials - {pk}, fates + [(serials[pk], fate)], next)
  {
    var left, after := serials - {pk}, fates + [(serials[pk], fate)];
    assert Recorded(serials, serials[pk]);
    forall n: nat ensures Settled(after, n) <==> Settled(fates, n) || n == serials[pk] {
      if Settled(fates, n) {
        var i :| 0 <= i < |fates| && fates[i].0 == n;
        assert after[i].0 == n;
      }
      assert after[|fates|].0 == serials[pk];
    }
    forall n: nat ensures Recorded(left, n) <==> Recorded(serials, n) && n != serials[pk] {
      if Recorded(serials, n) && n != serials[pk] {
        var q :| q in serials && serials[q] == n;
        assert q in left && left[q] == n;
      }
    }
    assert !Settled(fates, serials[pk]);
    forall i, j | 0 <= i < j < |after| ensures after[i].0 != after[j].0 {
      assert after[i] == fates[i];
    }
  }

  /** Inserting a record under a free key gives it the next serial. */
  lemma AccountInsert(serials: map<PartKey, nat>, fates: seq<(nat, Fate)>, next: nat, pk: PartKey)
    requires Account(serials, fates, next) && pk !in serials
    ensures Account(serials[pk := next], fates, next + 1)
  {
    var after := serials[pk := next];
    forall q | q in serials ensures serials[q] < next { assert Recorded(serials, serials[q]); }
    forall n: nat ensures Recorded(after, n) <==> Recorded(serials, n) || n == next {
      if Recorded(serials, n) {
        var q :| q in serials && serials[q] == n;
        assert after[q] == n;
      }
      assert after[pk] == next;
    }
  }

  /** A blind insert gives what it displaces its fate, and the new record the next
      serial. */
  lemma AccountOverwrite(serials: map<PartKey, nat>, fates: seq<(nat, Fate)>, next: nat, pk: PartKey)
    requires Account(serials, fates, next)
    ensures Account(serials[pk := next], if pk in serials then fates + [(serials[pk], Overwritten)] else fates,
                    next + 1)
  {
    if pk in serials {
      AccountTake(serials, fates, next, pk, Overwritten);
      AccountInsert(serials - {pk}, fates + [(serials[pk], Overwritten)], next, pk);
      assert (serials - {pk})[pk := next] == serials[pk := next];
    } else {
      AccountInsert(serials, fates, next, pk);
    }
  }

  /** A claim takes its records one by one, each with the claimer as its fate. */
  lemma {:induction false} AccountClaim(parts: map<PartKey, seq<BlockId>>, serials: map<PartKey, nat>,
                                        fates: seq<(nat, Fate)>,
      next: nat, u: Upload, numbers: seq<int>, t: TaskId)
    requires Account(serials, fates, next) && parts.Keys == serials.Keys && TakeParts(parts, u, numbers).Some?
    ensures TakeParts(parts, u, numbers).value.0.Keys == DropNumbers(serials, u, numbers).Keys
    ensures Account(DropNumbers(serials, u, numbers), fates + InheritAll(serials, u, numbers, t), next)
    decreases |numbers|
  {
    if numbers == [] {
      assert DropNumbers(serials, u, numbers) == serials;
      assert fates + InheritAll(serials, u, numbers, t) == fates;
    } else {
      var pk, rest := PartKey(u, numbers[0]), numbers[1..];
      AccountTake(serials, fates, next, pk, Inherited(t));
      var fates' := fates + [(serials[pk], Inherited(t))];
      AccountClaim(parts - {pk}, serials - {pk}, fates', next, u, rest, t);
      DropNumbersStep(serials, u, numbers);
      assert fates + InheritAll(serials, u, numbers, t) == fates' + InheritAll(serials - {pk}, u, rest, t);
    }
  }

  lemma DropNumbersStep(serials: map<PartKey, nat>, u: Upload, numbers: seq<int>)
    requires numbers != []
    ensures DropNumbers(serials, u, numbers) == DropNumbers(serials - {PartKey(u, numbers[0])}, u, numbers[1..])
  {
    var all := set i | 0 <= i < |numbers| :: PartKey(u, numbers[i]);
    var rest := set i | 0 <= i < |numbers[1..]| :: PartKey(u, numbers[1..][i]);
    assert all == {PartKey(u, numbers[0])} + rest by {
      forall i | 0 <= i < |numbers| ensures PartKey(u, numbers[i]) in {PartKey(u, numbers[0])} + rest {
        if i > 0 { assert numbers[1..][i - 1] == numbers[i]; }
      }
      forall i | 0 <= i < |numbers[1..]| ensures PartKey(u, numbers[1..][i]) in all {
        assert numbers[1..][i] == numbers[i + 1];
      }
    }
  }

  // ---------------------------------------------------------------- steps

  /** Upload and part records, and their history, are as they were. */
  predicate SameUploads(s: State, s': State) {
    && s'.uploads == s.uploads && s'.ever == s.ever && s'.wins == s.wins && s'.parts == s.parts
    && s'.serials == s.serials && s'.fates == s.fates && s'.nextSerial == s.nextSerial
  }

  lemma SameRecords(s: State, s': State)
    requires UploadInv(s) && SameUploads(s, s')
    requires forall t :: t in s'.tasks ==> TaskPartsOk(s, s'.tasks[t])
    ensures UploadInv(s')
  {
    forall t | t in s'.tasks ensures TaskPartsOk(s', s'.tasks[t]) {
      assert TaskPartsOk(s, s'.tasks[t]);
    }
  }

  /** Only task `t` was rewritten, into `x`. */
  lemma OneTaskMoved(s: State, s': State, t: TaskId, x: Task)
    requires UploadInv(s) && SameUploads(s, s') && s'.tasks == s.tasks[t := x] && TaskPartsOk(s, x)
    ensures UploadInv(s')
  {
    forall u | u in s'.tasks ensures TaskPartsOk(s, s'.tasks[u]) {
      if u != t { assert TaskPartsOk(s, s.tasks[u]); }
    }
    SameRecords(s, s');
  }

  lemma PublishPartKeepsUploads(s: State, t: TaskId, pk: PartKey)
    requires UploadInv(s) && CanRequest(s, t, Publish) && s.tasks[t].goal == PartGoal(pk)
    ensures UploadInv(DoPublish(s, t))
  {
    var s' := DoPublish(s, t);
    assert TaskPartsOk(s, s.tasks[t]);
    AccountOverwrite(s.serials, s.fates, s.nextSerial, pk);
    forall u | u in s'.tasks ensures TaskPartsOk(s', s'.tasks[u]) {
      if u != t { assert TaskPartsOk(s, s.tasks[u]); }
    }
  }

  lemma PublishObjectMoves(s: State, t: TaskId)
    requires Is(s, t) && s.tasks[t].Publishing? && s.tasks[t].goal.ObjectGoal?
    ensures SameUploads(s, DoPublish(s, t))
    ensures Reapable(DoPublish(s, t).tasks[t]) == [] && GoalOf(DoPublish(s, t).tasks[t]).None?
  {
  }

  lemma DeleteMoves(s: State, t: TaskId, k: ObjectKey)
    ensures SameUploads(s, DoBeginDelete(s, t, k))
    ensures Reapable(DoBeginDelete(s, t, k).tasks[t]) == [] && GoalOf(DoBeginDelete(s, t, k).tasks[t]).None?
  {
    if k in s.objects {
      assert DoBeginDelete(s, t, k)
          == SetTask(s, t, Releasing(s.objects[k], Idle, [], Finished)).(objects := s.objects - {k});
    } else {
      assert DoBeginDelete(s, t, k) == SetTask(s, t, Done(Finished));
    }
  }

  lemma RequestMoves(s: State, t: TaskId, a: RequestStep)
    requires CanRequest(s, t, a) && !(a.Publish? && s.tasks[t].goal.PartGoal?)
    ensures SameUploads(s, DoRequest(s, t, a))
    ensures var x := DoRequest(s, t, a).tasks[t];
            && Reapable(x) == []
            && (GoalOf(x).None? || GoalOf(x).value.ObjectGoal? || a == BeginPut(GoalOf(x).value) ||
                (t in s.tasks && GoalOf(s.tasks[t]) == GoalOf(x)))
  {
    match a
    case Publish => PublishObjectMoves(s, t);
    case Abandon => assert SameUploads(s, DoAbandon(s, t));
    case BeginDelete(k) => DeleteMoves(s, t, k);
    case _ =>
  }

  lemma RequestKeepsUploads(s: State, t: TaskId, a: RequestStep)
    requires UploadInv(s) && CanRequest(s, t, a)
    ensures UploadInv(DoRequest(s, t, a))
  {
    if a.Publish? && s.tasks[t].goal.PartGoal? {
      PublishPartKeepsUploads(s, t, s.tasks[t].goal.part);
    } else {
      var s' := DoRequest(s, t, a);
      RequestMoves(s, t, a);
      assert t in s.tasks ==> TaskPartsOk(s, s.tasks[t]);
      OneTaskMoved(s, s', t, s'.tasks[t]);
    }
  }

  /** A group's steps change no task's goal and nothing it is going to reap. */
  ghost predicate GroupMove(s: State, s': State) {
    && SameUploads(s, s')
    && forall u :: u in s'.tasks ==>
         || (Reapable(s'.tasks[u]) == [] && GoalOf(s'.tasks[u]).None?)
         || (u in s.tasks && Reapable(s'.tasks[u]) == Reapable(s.tasks[u]) && GoalOf(s'.tasks[u]) == GoalOf(s.tasks[u]))
  }

  lemma CommitMoves(s: State, c: TaskId)
    requires CanCommit(s, c)
    ensures GroupMove(s, DoCommit(s, c))
  {
  }

  lemma JoinMoves(s: State, c: TaskId, m: TaskId)
    requires CanJoin(s, c, m)
    ensures GroupMove(s, DoJoin(s, c, m))
  {
  }

  lemma BeginGroupMoves(s: State, c: TaskId, m: TaskId)
    requires CanBeginGroup(s, c, m)
    ensures GroupMove(s, DoBeginGroup(s, c, m))
  {
    JoinMoves(SetTask(s, c, NewGroup), c, m);
  }

  lemma GroupMoves(s: State, t: TaskId, a: GroupStep)
    requires s.n > 0 && CanGroup(s, t, a)
    ensures GroupMove(s, DoGroup(s, t, a))
  {
    match a
    case BeginGroup(m) => BeginGroupMoves(s, t, m);
    case JoinGroup(m) => JoinMoves(s, t, m);
    case CommitMember => CommitMoves(s, t);
    case _ =>
  }

  lemma GroupKeepsUploads(s: State, t: TaskId, a: GroupStep)
    requires UploadInv(s) && s.n > 0 && CanGroup(s, t, a)
    ensures UploadInv(DoGroup(s, t, a))
  {
    var s' := DoGroup(s, t, a);
    GroupMoves(s, t, a);
    forall u | u in s'.tasks ensures TaskPartsOk(s, s'.tasks[u]) {
      assert u in s.tasks ==> TaskPartsOk(s, s.tasks[u]);
    }
    SameRecords(s, s');
  }

  /** What every step on a block has in common. */
  predicate BlockMove(s: State, s': State, t: TaskId) {
    && SameUploads(s, s') && t in s.tasks && t in s'.tasks && s'.tasks == s.tasks[t := s'.tasks[t]]
    && GoalOf(s'.tasks[t]).None? && (Reapable(s'.tasks[t]) == [] || Reapable(s'.tasks[t]) == Reapable(s.tasks[t]))
  }

  lemma ReleaseMoves(s: State, t: TaskId)
    requires s.n > 0 && CanDecrement(s, t)
    ensures BlockMove(s, DoDecrement(s, t), t) && BlockMove(s, DoFailDecrement(s, t), t)
  {
  }

  lemma BumpMoves(s: State, t: TaskId)
    requires s.n > 0 && CanBump(s, t)
    ensures BlockMove(s, DoBump(s, t), t)
  {
  }

  lemma LoseBumpMoves(s: State, t: TaskId, committed: bool)
    requires s.n > 0 && CanBump(s, t)
    ensures BlockMove(s, DoLoseBump(s, t, committed), t)
  {
  }

  lemma OnBlockKeepsUploads(s: State, t: TaskId, a: BlockStep)
    requires UploadInv(s) && s.n > 0 && CanOnBlock(s, t, a)
    ensures UploadInv(DoOnBlock(s, t, a))
  {
    match a
    case LockBlock => BlockMoveKeepsUploads(s, DoLockBlock(s, t), t);
    case DecrementBlock => ReleaseMoves(s, t); BlockMoveKeepsUploads(s, DoDecrement(s, t), t);
    case FailDecrement => ReleaseMoves(s, t); BlockMoveKeepsUploads(s, DoFailDecrement(s, t), t);
    case UnlinkFile(ok) => BlockMoveKeepsUploads(s, DoUnlink(s, t, ok), t);
    case BumpBlock => BumpMoves(s, t); BlockMoveKeepsUploads(s, DoBump(s, t), t);
    case FailBump => BlockMoveKeepsUploads(s, DoFailBump(s, t), t);
    case LoseBump(committed) =>
      LoseBumpMoves(s, t, committed);
      BlockMoveKeepsUploads(s, DoLoseBump(s, t, committed), t);
  }

  lemma BlockMoveKeepsUploads(s: State, s': State, t: TaskId)
    requires UploadInv(s) && BlockMove(s, s', t)
    ensures UploadInv(s')
  {
    assert TaskPartsOk(s, s.tasks[t]);
    OneTaskMoved(s, s', t, s'.tasks[t]);
  }

  /** Ending an upload makes nothing a task relied on live again. */
  lemma ClaimKeepsTasks(s: State, s': State, t: TaskId, x: Task, u: Upload)
    requires UploadInv(s) && u in s.uploads && s'.uploads == s.uploads - {u} && s'.ever == s.ever
    requires s'.tasks == s.tasks[t := x] && TaskPartsOk(s', x)
    ensures forall v :: v in s'.tasks ==> TaskPartsOk(s', s'.tasks[v])
    ensures s'.wins == s.wins + [(u, t)] ==> ClaimsOk(s')
  {
    forall v | v in s'.tasks ensures TaskPartsOk(s', s'.tasks[v]) {
      if v != t { assert TaskPartsOk(s, s.tasks[v]); }
    }
  }

  lemma CompleteKeepsUploads(s: State, t: TaskId, u: Upload, numbers: seq<int>)
    requires UploadInv(s) && Fresh(s, t)
    ensures UploadInv(DoBeginComplete(s, t, u, numbers))
  {
    var s' := DoBeginComplete(s, t, u, numbers);
    if u in s.uploads && TakeParts(s.parts, u, numbers).Some? {
      AccountClaim(s.parts, s.serials, s.fates, s.nextSerial, u, numbers, t);
      ClaimKeepsTasks(s, s', t, s'.tasks[t], u);
    } else {
      OneTaskMoved(s, SetTask(s, t, Done(Failed)), t, Done(Failed));
    }
  }

  lemma AbortKeepsUploads(s: State, t: TaskId, u: Upload, keys: seq<PartKey>)
    requires UploadInv(s) && Fresh(s, t) && forall k :: k in keys ==> k.upload == u
    ensures UploadInv(DoBeginAbort(s, t, u, keys))
  {
    var s' := DoBeginAbort(s, t, u, keys);
    if u in s.uploads {
      ClaimKeepsTasks(s, s', t, s'.tasks[t], u);
    } else {
      OneTaskMoved(s, SetTask(s, t, Done(Failed)), t, Done(Failed));
    }
  }

  lemma NextPartKeepsUploads(s: State, t: TaskId)
    requires UploadInv(s) && BetweenParts(s, t) && s.tasks[t].rest != []
    ensures UploadInv(DoNextPart(s, t))
  {
    var s', x := DoNextPart(s, t), s.tasks[t];
    assert TaskPartsOk(s, x);
    if x.rest[0] in s.parts {
      AccountTake(s.serials, s.fates, s.nextSerial, x.rest[0], Reaped(t));
      forall u | u in s'.tasks ensures TaskPartsOk(s', s'.tasks[u]) {
        if u != t { assert TaskPartsOk(s, s.tasks[u]); }
      }
    } else {
      OneTaskMoved(s, SetTask(s, t, x.(rest := x.rest[1..])), t, x.(rest := x.rest[1..]));
    }
  }

  lemma OnUploadKeepsUploads(s: State, t: TaskId, a: UploadStep)
    requires UploadInv(s) && CanOnUpload(s, t, a)
    ensures UploadInv(DoOnUpload(s, t, a))
  {
    assert t in s.tasks ==> TaskPartsOk(s, s.tasks[t]);
    match a
    case BeginComplete(u, numbers) => CompleteKeepsUploads(s, t, u, numbers);
    case BeginAbort(u, keys) => AbortKeepsUploads(s, t, u, keys);
    case NextPart => NextPartKeepsUploads(s, t);
    case BeginSweep => OneTaskMoved(s, SetTask(s, t, Sweeping([])), t, Sweeping([]));
    case CollectOrphan(pk) => OneTaskMoved(s, SetTask(s, t, Sweeping(s.tasks[t].orphans + [pk])), t,
                                           Sweeping(s.tasks[t].orphans + [pk]));
    case EndSweep => OneTaskMoved(s, SetTask(s, t, Releasing([], Idle, s.tasks[t].orphans, Finished)), t,
                                  Releasing([], Idle, s.tasks[t].orphans, Finished));
    case SkipPart => OneTaskMoved(s, SetTask(s, t, s.tasks[t].(rest := s.tasks[t].rest[1..])), t,
                                  s.tasks[t].(rest := s.tasks[t].rest[1..]));
    case EndRelease => OneTaskMoved(s, SetTask(s, t, Done(s.tasks[t].answer)), t, Done(s.tasks[t].answer));
  }

  lemma CreateUploadKeepsUploads(s: State, u: Upload)
    requires UploadInv(s) && u !in s.ever
    ensures UploadInv(s.(uploads := s.uploads + {u}, ever := s.ever + {u}))
  {
    var s' := s.(uploads := s.uploads + {u}, ever := s.ever + {u});
    forall v | v in s'.tasks ensures TaskPartsOk(s', s'.tasks[v]) {
      assert TaskPartsOk(s, s.tasks[v]);
    }
  }

  lemma OnStoreKeepsUploads(s: State, a: StoreStep)
    requires UploadInv(s) && (a.CreateUpload? ==> a.upload !in s.ever)
    ensures UploadInv(DoOnStore(s, a))
  {
    match a
    case CreateUpload(u) => CreateUploadKeepsUploads(s, u);
    case _ => SameRecords(s, DoOnStore(s, a));
  }

  lemma StepKeepsUploads(s: State, a: Action)
    requires UploadInv(s) && s.n > 0 && Enabled(s, a)
    ensures UploadInv(Next(s, a))
  {
    match a
    case Request(t, step) => RequestKeepsUploads(s, t, step);
    case Group(t, step) => GroupKeepsUploads(s, t, step);
    case OnBlock(t, step) => OnBlockKeepsUploads(s, t, step);
    case OnUpload(t, step) => OnUploadKeepsUploads(s, t, step);
    case OnStore(step) => OnStoreKeepsUploads(s, step);
  }

  lemma {:induction false} RunKeepsUploads(s: State, run: seq<Action>)
    requires s.n > 0 && UploadInv(s) && IsRun(s, run)
    ensures UploadInv(Exec(s, run))
    decreases |run|
  {
    if run != [] {
      StepKeepsUploads(s, run[0]);
      RunKeepsUploads(Next(s, run[0]), run[1..]);
    }
  }

  // ------------------------------------------------------------- theorems

  /** Over every run, at most one caller wins an upload, and a claimed upload is
      never live again. */
  lemma OneWinnerPerUpload(n: nat, run: seq<Action>)
    requires n > 0 && IsRun(Init(n), run)
    ensures ClaimsOk(Exec(Init(n), run))
  {
    RunKeepsUploads(Init(n), run);
  }

  /** Over every run, each part record ever inserted is still in the tree or has
      exactly one fate: inherited by one complete, reaped by one caller, or
      overwritten by a re-upload. */
  lemma OneFatePerPart(n: nat, run: seq<Action>)
    requires n > 0 && IsRun(Init(n), run)
    ensures var s := Exec(Init(n), run);
            s.parts.Keys == s.serials.Keys && Account(s.serials, s.fates, s.nextSerial)
  {
    RunKeepsUploads(Init(n), run);
  }

  lemma ReapedOnce(s: State, t: TaskId)
    requires UploadInv(s) && BetweenParts(s, t) && s.tasks[t].rest != []
    ensures var pk, s' := s.tasks[t].rest[0], DoNextPart(s, t);
            && Dead(s, pk.upload)
            && (pk in s.parts ==>
                  pk in s.serials && !Settled(s.fates, s.serials[pk]) &&
                  s'.fates == s.fates + [(s.serials[pk], Reaped(t))] && Owed(s'.tasks[t]) == s.parts[pk])
            && (pk !in s.parts ==> s' == SetTask(s, t, s'.tasks[t]) && Owed(s'.tasks[t]) == [])
  {
    var pk := s.tasks[t].rest[0];
    assert TaskPartsOk(s, s.tasks[t]);
    if pk in s.parts { assert Recorded(s.serials, s.serials[pk]); }
  }

  /** A reaper's list only ever names parts of uploads that are over. A listed part
      that a complete has inherited has left the tree, and the reaper passes it by;
      one that is still there has no fate yet, and being reaped becomes its only
      one. */
  lemma ReaperMeetsOnlyOrphans(n: nat, run: seq<Action>, t: TaskId)
    requires n > 0 && IsRun(Init(n), run)
    requires var s := Exec(Init(n), run); BetweenParts(s, t) && s.tasks[t].rest != []
    ensures var s := Exec(Init(n), run);
            var pk, s' := s.tasks[t].rest[0], DoNextPart(s, t);
            && Dead(s, pk.upload)
            && (pk in s.parts ==>
                  pk in s.serials && !Settled(s.fates, s.serials[pk]) &&
                  s'.fates == s.fates + [(s.serials[pk], Reaped(t))] && Owed(s'.tasks[t]) == s.parts[pk])
            && (pk !in s.parts ==> s' == SetTask(s, t, s'.tasks[t]) && Owed(s'.tasks[t]) == [])
  {
    RunKeepsUploads(Init(n), run);
    ReapedOnce(Exec(Init(n), run), t);
  }

  /** The race is there: whenever a collector is scanning beside a live upload, a
      complete can take a part between the collector's read of it and its check of
      the upload, and the collector then lists a part an object has inherited. */
  lemma CollectorMayListAnInheritedPart(s: State, t: TaskId, c: TaskId, u: Upload, number: int)
    requires s.n > 0 && s.uploads <= s.ever && Is(s, t) && s.tasks[t].Sweeping? && Fresh(s, c)
    requires u in s.uploads && PartKey(u, number) in s.parts
    ensures var pk, claimed := PartKey(u, number), DoBeginComplete(s, c, u, [number]);
            && CanOnUpload(s, c, BeginComplete(u, [number])) && CanOnUpload(claimed, t, CollectOrphan(pk))
            && var listed := DoOnUpload(claimed, t, CollectOrphan(pk));
               && c in listed.tasks && Owed(listed.tasks[c]) == s.parts[pk] && listed.tasks[c].Publishing?
               && t in listed.tasks && pk in Reapable(listed.tasks[t]) && pk !in listed.parts
  {
    var pk := PartKey(u, number);
    assert [number][1..] == [];
    assert TakeParts(s.parts - {pk}, u, []) == Some((s.parts - {pk}, []));
    assert TakeParts(s.parts, u, [number]) == Some((s.parts - {pk}, s.parts[pk] + []));
    assert s.parts[pk] + [] == s.parts[pk];
  }

  /** The part keys a complete names, in order. */
  function Named(u: Upload, numbers: seq<int>): seq<PartKey> {
    seq(|numbers|, i requires 0 <= i < |numbers| => PartKey(u, numbers[i]))
  }

  /** The blocks of the named parts, end to end. */
  function Joined(parts: map<PartKey, seq<BlockId>>, keys: seq<PartKey>): seq<BlockId>
    requires forall k :: k in keys ==> k in parts
  {
    if keys == [] then [] else parts[keys[0]] + Joined(parts, keys[1..])
  }

  lemma {:induction false} JoinedAgrees(parts: map<PartKey, seq<BlockId>>, less: map<PartKey, seq<BlockId>>,
                                        keys: seq<PartKey>)
    requires forall k :: k in keys ==> k in parts && k in less && less[k] == parts[k]
    ensures Joined(less, keys) == Joined(parts, keys)
    decreases |keys|
  {
    if keys != [] { JoinedAgrees(parts, less, keys[1..]); }
  }

  /** A claim succeeds exactly when every named part is there and none is named
      twice; it then removes those records and no other, and hands over their
      blocks in the order they were named. */
  lemma {:induction false} ClaimTakesExactlyTheNamed(parts: map<PartKey, seq<BlockId>>, u: Upload, numbers: seq<int>)
    ensures var r := TakeParts(parts, u, numbers);
            && (r.Some? <==> NoDup(numbers) && forall k :: k in Named(u, numbers) ==> k in parts)
            && (r.Some? ==>
                  r.value.0 == parts - (set k | k in Named(u, numbers)) &&
                  r.value.1 == Joined(parts, Named(u, numbers)))
    decreases |numbers|
  {
    if numbers != [] {
      var pk, rest := PartKey(u, numbers[0]), numbers[1..];
      var keys := Named(u, rest);
      assert Named(u, numbers) == [pk] + keys;
      if pk in parts {
        ClaimTakesExactlyTheNamed(parts - {pk}, u, rest);
        assert pk in keys <==> numbers[0] in rest by {
          if i :| 0 <= i < |rest| && rest[i] == numbers[0] { assert keys[i] == pk; }
        }
        assert NoDup(numbers) <==> NoDup(rest) && numbers[0] !in rest by { NoDupStep(numbers); }
        if TakeParts(parts, u, numbers).Some? {
          JoinedAgrees(parts, parts - {pk}, keys);
        }
      } else {
        assert pk in Named(u, numbers);
      }
    }
  }

  lemma NoDupStep(s: seq<int>)
    requires s != []
    ensures NoDup(s) <==> NoDup(s[1..]) && s[0] !in s[1..]
  {
    if NoDup(s[1..]) && s[0] !in s[1..] {
      forall i, j | 0 <= i < j < |s| ensures s[i] != s[j] {
        assert s[j] == s[1..][j - 1];
        if i > 0 { assert s[i] == s[1..][i - 1]; }
      }
    }
    if NoDup(s) {
      forall i, j | 0 <= i < j < |s[1..]| ensures s[1..][i] != s[1..][j] {
        assert s[1..][i] == s[i + 1] && s[1..][j] == s[j + 1];
      }
    }
  }
}
