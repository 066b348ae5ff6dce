/** What the protocol promises over whole runs. */
module ProtocolTheorems {
  import opened Ids
  import opened Accounting
  import opened Records
  import opened Protocol
  import opened ProtocolInvariant

  /** References to `b` found by walking every holder record: object records of
      every tree, part records unconditionally. */
  ghost function Expected(s: State, b: BlockId): nat {
    Refs(s.objects, Listed, b) + Refs(s.parts, Listed, b)
  }

  /** Safety of one state: every block a record names has a record that counts
      at least the walked holders, and its file is at the recorded depth. */
  ghost predicate Safe(s: State) {
    && (forall b: BlockId :: Expected(s, b) <= Rc(s.blocks, b))
    && (forall b :: b in s.blocks ==> s.blocks[b].rc >= 1 && (b, s.blocks[b].depth) in s.files)
    && (forall k, b :: k in s.objects && b in s.objects[k] ==>
        b in s.blocks && Count(s.objects[k], b) <= s.blocks[b].rc)
    && (forall k, b :: k in s.parts && b in s.parts[k] ==> b in s.blocks && Count(s.parts[k], b) <= s.blocks[b].rc)
  }

  lemma InvIsSafe(s: State)
    requires Inv(s)
    ensures Safe(s)
  {
    forall b: BlockId ensures Expected(s, b) <= Rc(s.blocks, b) {
      assert Rc(s.blocks, b) == Total(s, b);
    }
    forall k, b | k in s.objects && b in s.objects[k]
      ensures b in s.blocks && Count(s.objects[k], b) <= s.blocks[b].rc
    {
      RefsDrop(s.objects, Listed, k, b);
      assert Rc(s.blocks, b) == Total(s, b);
    }
    forall k, b | k in s.parts && b in s.parts[k]
      ensures b in s.blocks && Count(s.parts[k], b) <= s.blocks[b].rc
    {
      RefsDrop(s.parts, Listed, k, b);
      assert Rc(s.blocks, b) == Total(s, b);
    }
  }

  /** Every state of every interleaving is safe. */
  lemma RunIsSafe(n: nat, run: seq<Action>)
    requires n > 0 && IsRun(Init(n), run)
    ensures Safe(Exec(Init(n), run))
  {
    InitInv(n);
    RunKeeps(Init(n), run);
    InvIsSafe(Exec(Init(n), run));
  }

  /** A decrement never finds its block missing and never counts below zero. */
  lemma DecrementNeverMisses(n: nat, run: seq<Action>, t: TaskId)
    requires n > 0 && IsRun(Init(n), run) && CanDecrement(Exec(Init(n), run), t)
    ensures var s := Exec(Init(n), run);
            var found := DecrementOf(s.blocks, s.tasks[t].todo[0]);
            found.Decremented? || found.Removed?
  {
    InitInv(n);
    RunKeeps(Init(n), run);
    var s := Exec(Init(n), run);
    OwedIsCounted(s, t, s.tasks[t].todo[0]);
  }

  /** The file an unlink removes belongs to no record: nobody re-inserted the
      block between the decrement and the unlink, and no other stripe holder
      placed a file for it. */
  lemma UnlinkHitsNoLiveBlock(n: nat, run: seq<Action>, t: TaskId)
    requires n > 0 && IsRun(Init(n), run) && CanUnlink(Exec(Init(n), run), t)
    ensures var s := Exec(Init(n), run);
            && s.tasks[t].pc.id !in s.blocks
            && (forall c :: c in s.tasks && s.tasks[c].Closing? ==> s.tasks[t].pc.id !in s.tasks[c].placed)
            && Safe(DoUnlink(s, t, true))
  {
    InitInv(n);
    RunKeeps(Init(n), run);
    var s := Exec(Init(n), run);
    assert TaskOk(s, t);
    forall c | c in s.tasks && s.tasks[c].Closing? ensures s.tasks[t].pc.id !in s.tasks[c].placed {
      assert TaskOk(s, c);
    }
    UnlinkKeeps(s, t, true);
    InvIsSafe(DoUnlink(s, t, true));
  }

  // -------------------------------------------------------- conservation

  /** For every block and every reachable state, the count is object records
      plus part records plus what tasks in flight owe plus the leak. */
  lemma RunConserves(n: nat, run: seq<Action>, b: BlockId)
    requires n > 0 && IsRun(Init(n), run)
    ensures var s := Exec(Init(n), run);
            Rc(s.blocks, b) == Expected(s, b) + Refs(s.tasks, Owed, b) + Count(s.leaked, b)
  {
    InitInv(n);
    RunKeeps(Init(n), run);
    assert Rc(Exec(Init(n), run).blocks, b) == Total(Exec(Init(n), run), b);
  }

  /** The steps that leave a reference counted with no holder. */
  predicate RequestLeaks(s: State, t: TaskId, a: RequestStep)
    requires CanRequest(s, t, a)
  {
    match a
    case Abandon => Owed(s.tasks[t]) != []   // a failed or cancelled request that had taken something
    case Publish =>                          // a blind insert over a part record that names blocks
      s.tasks[t].goal.PartGoal? && s.tasks[t].goal.part in s.parts && s.parts[s.tasks[t].goal.part] != []
    case _ => false
  }

  predicate GroupLeaks(s: State, t: TaskId, a: GroupStep)
    requires s.n > 0 && CanGroup(s, t, a)
  {
    match a
    case CommitMember =>                     // the client hung up
      var m := s.tasks[s.tasks[t].members[0]];
      !m.waiting && m.got + m.batch != []
    case RefuseMember =>                     // a PUT refused after an earlier flush
      s.tasks[s.tasks[t].members[0]].got != []
    case FailMember =>                       // a PUT failing after an earlier flush
      s.tasks[s.tasks[t].members[0]].got != []
    case _ => false
  }

  predicate OnBlockLeaks(s: State, t: TaskId, a: BlockStep)
    requires s.n > 0 && CanOnBlock(s, t, a)
  {
    match a
    case FailDecrement => true
    case FailBump => s.tasks[t].taken > 0    // what was taken is not given back
    case LoseBump(committed) =>              // a bump nobody knows of
      committed && s.tasks[t].blocks[s.tasks[t].taken] in s.blocks
    case _ => false
  }

  ghost predicate OnStoreLeaks(s: State, a: StoreStep) {
    match a
    case DropBucket(b) =>                    // a tree dropped with records in it
      exists k :: k in s.objects && k.bucket == b && s.objects[k] != []
    case Crash => exists t :: t in s.tasks && Owed(s.tasks[t]) != []
    case _ => false
  }

  ghost predicate Leaks(s: State, a: Action)
    requires s.n > 0 && Enabled(s, a)
  {
    match a
    case Request(t, step) => RequestLeaks(s, t, step)
    case Group(t, step) => GroupLeaks(s, t, step)
    case OnBlock(t, step) => OnBlockLeaks(s, t, step)
    case OnUpload(_, _) => false
    case OnStore(step) => OnStoreLeaks(s, step)
  }

  ghost predicate LeakFree(s: State, run: seq<Action>)
    requires s.n > 0 && IsRun(s, run)
    decreases |run|
  {
    run == [] || (!Leaks(s, run[0]) && LeakFree(Next(s, run[0]), run[1..]))
  }

  /** The leak after a step is the leak before it and something more, exactly when
      `leaks`. */
  ghost predicate LeakGrows(before: seq<BlockId>, after: seq<BlockId>, leaks: bool) {
    before <= after && (after != before <==> leaks)
  }

  lemma RequestLeakIsExact(s: State, t: TaskId, a: RequestStep)
    requires CanRequest(s, t, a)
    ensures LeakGrows(s.leaked, DoRequest(s, t, a).leaked, RequestLeaks(s, t, a))
  {
    match a
    case Abandon => assert DoAbandon(s, t).leaked == s.leaked + Owed(s.tasks[t]);
    case Publish => assert DoRequest(s, t, a) == DoPublish(s, t);
    case BeginDelete(k) => assert DoBeginDelete(s, t, k).leaked == s.leaked;
    case _ =>
  }

  lemma GroupLeakIsExact(s: State, t: TaskId, a: GroupStep)
    requires s.n > 0 && CanGroup(s, t, a)
    ensures LeakGrows(s.leaked, DoGroup(s, t, a).leaked, GroupLeaks(s, t, a))
  {
  }

  lemma OnBlockLeakIsExact(s: State, t: TaskId, a: BlockStep)
    requires s.n > 0 && CanOnBlock(s, t, a)
    ensures LeakGrows(s.leaked, DoOnBlock(s, t, a).leaked, OnBlockLeaks(s, t, a))
  {
    match a
    case FailBump => assert DoFailBump(s, t).leaked == s.leaked + s.tasks[t].blocks[..s.tasks[t].taken];
    case _ =>
  }

  lemma OnUploadLeaksNothing(s: State, t: TaskId, a: UploadStep)
    requires CanOnUpload(s, t, a)
    ensures DoOnUpload(s, t, a).leaked == s.leaked
  {
    match a
    case BeginComplete(u, numbers) => assert DoBeginComplete(s, t, u, numbers).leaked == s.leaked;
    case BeginAbort(u, keys) => assert DoBeginAbort(s, t, u, keys).leaked == s.leaked;
    case NextPart => assert DoNextPart(s, t).leaked == s.leaked;
    case _ =>
  }

  lemma {:induction false} FlatIsEmpty<K(!new), V>(m: map<K, V>, held: V -> seq<BlockId>)
    ensures Flat(m, held) == [] <==> forall k :: k in m ==> held(m[k]) == []
    decreases |m|
  {
    if m != map[] {
      var k :| k in m && Flat(m, held) == held(m[k]) + Flat(m - {k}, held);
      CardDrop(m, k);
      FlatIsEmpty(m - {k}, held);
      assert forall j :: j in m && j != k ==> j in m - {k} && (m - {k})[j] == m[j];
    }
  }

  lemma DropLeakIsExact(s: State, bucket: string)
    ensures LeakGrows(s.leaked, DoDropBucket(s, bucket).leaked, OnStoreLeaks(s, DropBucket(bucket)))
  {
    var gone := set k | k in s.objects && k.bucket == bucket;
    var mine := Only(s.objects, gone);
    FlatIsEmpty(mine, Listed);
    assert forall k :: k in mine <==> k in s.objects && k.bucket == bucket;
  }

  lemma OnStoreLeakIsExact(s: State, a: StoreStep)
    ensures LeakGrows(s.leaked, DoOnStore(s, a).leaked, OnStoreLeaks(s, a))
  {
    match a
    case DropBucket(b) => DropLeakIsExact(s, b);
    case Crash => FlatIsEmpty(s.tasks, Owed);
    case _ =>
  }

  /** The leak only grows, and grows at exactly the steps listed above. */
  lemma StepLeaks(s: State, a: Action)
    requires s.n > 0 && Enabled(s, a)
    ensures LeakGrows(s.leaked, Next(s, a).leaked, Leaks(s, a))
  {
    match a
    case Request(t, step) => RequestLeakIsExact(s, t, step);
    case Group(t, step) => GroupLeakIsExact(s, t, step);
    case OnBlock(t, step) => OnBlockLeakIsExact(s, t, step);
    case OnUpload(t, step) => OnUploadLeaksNothing(s, t, step);
    case OnStore(step) => OnStoreLeakIsExact(s, step);
  }

  lemma {:induction false} LeakOnlyGrows(s: State, run: seq<Action>)
    requires s.n > 0 && IsRun(s, run)
    ensures s.leaked <= Exec(s, run).leaked
    decreases |run|
  {
    if run != [] {
      StepLeaks(s, run[0]);
      LeakOnlyGrows(Next(s, run[0]), run[1..]);
    }
  }

  /** A run leaks nothing exactly when none of its steps does. */
  lemma {:induction false} LeakFreeRun(s: State, run: seq<Action>)
    requires s.n > 0 && IsRun(s, run)
    ensures Exec(s, run).leaked == s.leaked <==> LeakFree(s, run)
    decreases |run|
  {
    if run != [] {
      StepLeaks(s, run[0]);
      LeakFreeRun(Next(s, run[0]), run[1..]);
      LeakOnlyGrows(Next(s, run[0]), run[1..]);
    }
  }

  /** No operation is in flight. */
  ghost predicate Quiet(s: State) {
    forall t :: t in s.tasks ==> s.tasks[t].Done?
  }

  lemma {:induction false} QuietOwesNothing(tasks: map<TaskId, Task>, b: BlockId)
    requires forall t :: t in tasks ==> Owed(tasks[t]) == []
    ensures Refs(tasks, Owed, b) == 0
    decreases |tasks|
  {
    if t :| t in tasks {
      CardDrop(tasks, t);
      RefsDrop(tasks, Owed, t, b);
      QuietOwesNothing(tasks - {t}, b);
    }
  }

  /** With everything finished, every count is exact after any run in which nothing
      leaked, overwrites, repeated blocks, clean teardowns and harmless failures
      included; and after any other run some count is not. */
  lemma QuietCountsAreExact(n: nat, run: seq<Action>)
    requires n > 0 && IsRun(Init(n), run) && Quiet(Exec(Init(n), run))
    ensures var s := Exec(Init(n), run);
            && (LeakFree(Init(n), run) <==> forall b: BlockId :: Rc(s.blocks, b) == Expected(s, b))
            && (LeakFree(Init(n), run) ==> forall b: BlockId :: b in s.blocks <==> Expected(s, b) > 0)
  {
    var s := Exec(Init(n), run);
    InitInv(n);
    RunKeeps(Init(n), run);
    LeakFreeRun(Init(n), run);
    forall b: BlockId ensures Rc(s.blocks, b) == Expected(s, b) + Count(s.leaked, b) {
      QuietOwesNothing(s.tasks, b);
      assert Rc(s.blocks, b) == Total(s, b);
    }
    if s.leaked != [] { assert Count(s.leaked, s.leaked[0]) > 0; }
  }

  // ---------------------------------------------------------------- crash

  /** Killing the process at any step leaves the durable state as it was: no
      record without its file, and every count at least the walked holders. */
  lemma CrashAnywhereIsSafe(n: nat, run: seq<Action>)
    requires n > 0 && IsRun(Init(n), run)
    ensures var s := Exec(Init(n), run);
            var c := DoCrash(s);
            && c.objects == s.objects && c.parts == s.parts && c.blocks == s.blocks && c.files == s.files
            && c.tasks == map[] && c.locks == map[]
            && Safe(c)
            && (forall b: BlockId :: Rc(c.blocks, b) == Expected(c, b) + Count(c.leaked, b))
  {
    InitInv(n);
    RunKeeps(Init(n), run);
    var s := Exec(Init(n), run);
    var c := DoCrash(s);
    CrashKeeps(s);
    InvIsSafe(c);
    forall b: BlockId ensures Rc(c.blocks, b) == Expected(c, b) + Count(c.leaked, b) {
      assert Rc(c.blocks, b) == Total(c, b);
    }
  }

  /** References found by a walk over the buckets that still have a row. */
  ghost function RowExpected(s: State, b: BlockId): nat {
    Refs(map k | k in s.objects && k.bucket in s.rows :: s.objects[k], Listed, b) + Refs(s.parts, Listed, b)
  }

  /** Enumerating by bucket row would miss the objects of a half-removed
      bucket: the walk by rows agrees with the walk by trees on `b` exactly when
      no object outside a listed bucket names it. */
  lemma RowWalkAgrees(s: State, b: BlockId)
    ensures RowExpected(s, b) == Expected(s, b) <==>
            forall k :: k in s.objects && k.bucket !in s.rows ==> b !in s.objects[k]
  {
    var gone := set k | k in s.objects && k.bucket !in s.rows;
    var lost := Only(s.objects, gone);
    RefsSplit(s.objects, Listed, gone, b);
    assert s.objects - gone == map k | k in s.objects && k.bucket in s.rows :: s.objects[k];
    if k :| k in s.objects && k.bucket !in s.rows && b in s.objects[k] {
      RefsDrop(lost, Listed, k, b);
    } else {
      UnnamedCountsNothing(lost, b);
    }
  }

  lemma {:induction false} UnnamedCountsNothing(m: map<ObjectKey, seq<BlockId>>, b: BlockId)
    requires forall k :: k in m ==> b !in m[k]
    ensures Refs(m, Listed, b) == 0
    decreases |m|
  {
    if k :| k in m {
      CardDrop(m, k);
      RefsDrop(m, Listed, k, b);
      UnnamedCountsNothing(m - {k}, b);
    }
  }
}
