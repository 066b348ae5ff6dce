/** A block can end up with two files: the run that gets there. */
module ProtocolFiles {
  import opened Ids
  import opened Records
  import opened Protocol

  /** A run can be continued by any step its last state enables. */
  lemma {:induction false} OneMoreStep(s: State, run: seq<Action>, a: Action)
    requires s.n > 0 && IsRun(s, run) && Enabled(Exec(s, run), a)
    ensures IsRun(s, run + [a]) && Exec(s, run + [a]) == Next(Exec(s, run), a)
    decreases |run|
  {
    if run == [] {
      assert [a][1..] == [];
      assert run + [a] == [a];
      assert IsRun(Next(s, a), []);
    } else {
      assert (run + [a])[0] == run[0] && (run + [a])[1..] == run[1..] + [a];
      OneMoreStep(Next(s, run[0]), run[1..], a);
    }
  }

  /** The run gets from `s` to `s'`. */
  ghost predicate Leads(s: State, run: seq<Action>, s': State) {
    s.n > 0 && IsRun(s, run) && Exec(s, run) == s'
  }

  lemma Onward(s: State, run: seq<Action>, s': State, a: Action)
    requires Leads(s, run, s') && Enabled(s', a)
    ensures Leads(s, run + [a], Next(s', a))
  {
    OneMoreStep(s, run, a);
  }

  // ------------------------------------------------------ one block, one group

  /** A sealed batch of one block, in nobody's group yet. */
  predicate Sealed(s: State, m: TaskId, id: BlockId) {
    Is(s, m) && s.tasks[m].Parked? && s.tasks[m].batch == [id] && s.tasks[m].owner.None?
  }

  /** The batch of `m` in the group of `c`. */
  function Joined(s: State, m: TaskId, c: TaskId, x: Task): State
    requires Is(s, m) && s.tasks[m].Parked?
  {
    s.(tasks := s.tasks[m := s.tasks[m].(owner := Some(c))][c := x])
  }

  lemma GroupBegins(s: State, c: TaskId, m: TaskId, id: BlockId)
    requires Sealed(s, m, id) && Fresh(s, c)
    ensures CanBeginGroup(s, c, m) && DoBeginGroup(s, c, m) == Joined(s, m, c, Gathering([m], {id}, multiset{id}))
  {
    var none: seq<TaskId>, nobody: set<BlockId> := [], {};
    assert none + [m] == [m];
    assert Names([id]) == {id} by { assert [id][0] in Names([id]); }
    assert nobody + Names([id]) == {id};
    var nothing: multiset<BlockId> := multiset{};
    assert nothing + multiset(Names([id])) == multiset{id};
    var y := s.tasks[m].(owner := Some(c));
    assert s.tasks[c := NewGroup][m := y][c := Gathering([m], {id}, multiset{id})]
        == s.tasks[m := y][c := Gathering([m], {id}, multiset{id})];
  }

  lemma GroupPlans(s: State, c: TaskId, m: TaskId, id: BlockId)
    requires s.n > 0 && Sealed(s, m, id) && Fresh(s, c)
    ensures var s1, k := Joined(s, m, c, Gathering([m], {id}, multiset{id})), StripeOf(id, s.n);
            && CanGroup(s1, c, BeginLocking([k]))
            && DoGroup(s1, c, BeginLocking([k])) == Joined(s, m, c, Closing([m], {id}, [k], {}, map[], multiset{id}))
  {
    var y := s.tasks[m].(owner := Some(c));
    var z := Closing([m], {id}, [StripeOf(id, s.n)], {}, map[], multiset{id});
    assert s.tasks[m := y][c := Gathering([m], {id}, multiset{id})][c := z] == s.tasks[m := y][c := z];
  }

  lemma GroupLocks(s: State, c: TaskId, m: TaskId, id: BlockId)
    requires s.n > 0 && Sealed(s, m, id) && Fresh(s, c) && StripeOf(id, s.n) !in s.locks
    ensures var k := StripeOf(id, s.n);
            var s2 := Joined(s, m, c, Closing([m], {id}, [k], {}, map[], multiset{id}));
            && CanLockStripe(s2, c)
            && DoLockStripe(s2, c)
               == Joined(s, m, c, Closing([m], {id}, [], {k}, map[], multiset{id})).(locks := s.locks[k := c])
  {
    var k, y := StripeOf(id, s.n), s.tasks[m].(owner := Some(c));
    var none: set<nat> := {};
    assert none + {k} == {k} && [k][1..] == [];
    var z := Closing([m], {id}, [], {k}, map[], multiset{id});
    assert s.tasks[m := y][c := Closing([m], {id}, [k], {}, map[], multiset{id})][c := z] == s.tasks[m := y][c := z];
  }

  /** What a group of `m` alone has done once its one file is in place. */
  function Placed(s: State, m: TaskId, c: TaskId, id: BlockId, depth: nat): State
    requires s.n > 0 && Sealed(s, m, id) && 1 <= depth <= |id|
  {
    var k := StripeOf(id, s.n);
    Joined(s, m, c, Closing([m], {id}, [], {k}, map[id := depth], multiset{}))
      .(locks := s.locks[k := c], files := s.files + {(id, depth)})
  }

  lemma GroupPlaces(s: State, c: TaskId, m: TaskId, id: BlockId, depth: nat)
    requires s.n > 0 && Sealed(s, m, id) && Fresh(s, c) && 1 <= depth <= |id|
    ensures var k := StripeOf(id, s.n);
            var s3 := Joined(s, m, c, Closing([m], {id}, [], {k}, map[], multiset{id})).(locks := s.locks[k := c]);
            CanPlace(s3, c, id, depth) && DoPlace(s3, c, id, depth, true) == Placed(s, m, c, id, depth)
  {
    var k, y := StripeOf(id, s.n), s.tasks[m].(owner := Some(c));
    assert multiset{id} - multiset{id} == multiset{};
    var none: map<BlockId, nat> := map[];
    assert none[id := depth] == map[id := depth];
    var z := Closing([m], {id}, [], {k}, map[id := depth], multiset{});
    assert s.tasks[m := y][c := Closing([m], {id}, [], {k}, map[], multiset{id})][c := z] == s.tasks[m := y][c := z];
  }

  /** One staged block of one writer, taken into a group and renamed into place. */
  lemma PlacedRun(start: State, before: seq<Action>, s: State, c: TaskId, m: TaskId, id: BlockId, depth: nat)
      returns (run: seq<Action>)
    requires Leads(start, before, s) && s.n == start.n
    requires Sealed(s, m, id) && Fresh(s, c) && StripeOf(id, s.n) !in s.locks && 1 <= depth <= |id|
    ensures Leads(start, run, Placed(s, m, c, id, depth))
  {
    var k := StripeOf(id, s.n);
    GroupBegins(s, c, m, id);
    Onward(start, before, s, Group(c, BeginGroup(m)));
    run := before + [Group(c, BeginGroup(m))];
    GroupPlans(s, c, m, id);
    Onward(start, run, Joined(s, m, c, Gathering([m], {id}, multiset{id})), Group(c, BeginLocking([k])));
    run := run + [Group(c, BeginLocking([k]))];
    GroupLocks(s, c, m, id);
    Onward(start, run, Joined(s, m, c, Closing([m], {id}, [k], {}, map[], multiset{id})), Group(c, LockStripe));
    run := run + [Group(c, LockStripe)];
    GroupPlaces(s, c, m, id, depth);
    Onward(start, run, Joined(s, m, c, Closing([m], {id}, [], {k}, map[], multiset{id})).(locks := s.locks[k := c]),
           Group(c, PlaceFile(id, depth, true)));
    run := run + [Group(c, PlaceFile(id, depth, true))];
  }

  // ---------------------------------------------------- two writers, two files

  /** Two requests have staged the block, before either of them landed it. */
  function TwoSealed(n: nat, goal: Goal, id: BlockId): State
    requires n > 0
  {
    var x := Parked(goal, [], [id], None, true);
    Init(n).(tasks := map[0 := x, 2 := x])
  }

  lemma TwoSealedRun(n: nat, goal: Goal, id: BlockId) returns (run: seq<Action>)
    requires n > 0 && goal.ObjectGoal?
    ensures Leads(Init(n), run, TwoSealed(n, goal, id))
  {
    var x := Parked(goal, [], [id], None, true);
    var s0 := Init(n);
    assert Leads(s0, [], s0);
    Onward(s0, [], s0, Request(0, BeginPut(goal)));
    var s1 := SetTask(s0, 0, Writing(goal, []));
    run := [] + [Request(0, BeginPut(goal))];
    Onward(s0, run, s1, Request(0, SealBatch([id])));
    var s2 := SetTask(s1, 0, x);
    run := run + [Request(0, SealBatch([id]))];
    Onward(s0, run, s2, Request(2, BeginPut(goal)));
    var s3 := SetTask(s2, 2, Writing(goal, []));
    run := run + [Request(2, BeginPut(goal))];
    Onward(s0, run, s3, Request(2, SealBatch([id])));
    run := run + [Request(2, SealBatch([id]))];
    assert SetTask(s3, 2, x).tasks == map[0 := x, 2 := x];
  }

  /** The first group has renamed its file to depth `d` and then failed. */
  function FirstFailed(n: nat, goal: Goal, id: BlockId, d: nat): State
    requires n > 0 && 1 <= d <= |id|
  {
    Init(n).(tasks := map[0 := Done(Failed), 1 := Done(Finished), 2 := Parked(goal, [], [id], None, true)],
             files := {(id, d)})
  }

  lemma FailAndEnd(n: nat, goal: Goal, id: BlockId, d: nat)
    requires n > 0 && 1 <= d <= |id|
    ensures var s := Placed(TwoSealed(n, goal, id), 0, 1, id, d);
            && CanFailMember(s, 1) && CanEndGroup(DoFailMember(s, 1), 1)
            && DoEndGroup(DoFailMember(s, 1), 1) == FirstFailed(n, goal, id, d)
  {
    var s := Placed(TwoSealed(n, goal, id), 0, 1, id, d);
    assert [0][1..] == [];
    var f := DoFailMember(s, 1);
    var e := DoEndGroup(f, 1);
    var none: seq<BlockId> := [];
    assert none + none == none;
    assert e.locks == map[];
    assert e.tasks == FirstFailed(n, goal, id, d).tasks;
    assert e.files == {(id, d)};
  }

  lemma FirstFailedRun(n: nat, goal: Goal, id: BlockId, d: nat) returns (run: seq<Action>)
    requires n > 0 && goal.ObjectGoal? && 1 <= d <= |id|
    ensures Leads(Init(n), run, FirstFailed(n, goal, id, d))
  {
    run := TwoSealedRun(n, goal, id);
    run := PlacedRun(Init(n), run, TwoSealed(n, goal, id), 1, 0, id, d);
    FailAndEnd(n, goal, id, d);
    var s := Placed(TwoSealed(n, goal, id), 0, 1, id, d);
    Onward(Init(n), run, s, Group(1, FailMember));
    run := run + [Group(1, FailMember)];
    Onward(Init(n), run, DoFailMember(s, 1), Group(1, EndGroup));
    run := run + [Group(1, EndGroup)];
  }

  /** For every table, block and two depths: two requests stage the block before
      either lands; the first group renames its file and then fails; the second
      lands its own. The block ends with a record and both files. */
  lemma TwoFilesAreReachable(n: nat, goal: Goal, id: BlockId, d: nat, e: nat) returns (run: seq<Action>)
    requires n > 0 && goal.ObjectGoal? && 1 <= d <= |id| && 1 <= e <= |id|
    ensures IsRun(Init(n), run)
    ensures var s := Exec(Init(n), run);
            s.blocks == map[id := Record(1, e)] && s.files == {(id, d), (id, e)}
  {
    run := FirstFailedRun(n, goal, id, d);
    run := PlacedRun(Init(n), run, FirstFailed(n, goal, id, d), 3, 2, id, e);
    var s := Placed(FirstFailed(n, goal, id, d), 2, 3, id, e);
    Onward(Init(n), run, s, Group(3, CommitMember));
    run := run + [Group(3, CommitMember)];
    assert [id][..0] == [];
    assert RecordAll(map[], [id], map[id := e]) == map[id := Record(1, e)];
  }

  // ------------------------------------------------------------ where files lie

  /** Every block file lies at a depth its name has bytes for. */
  ghost predicate AllInRange(files: set<(BlockId, nat)>) {
    forall f :: f in files ==> 1 <= f.1 <= |f.0|
  }

  lemma GroupStaysInRange(s: State, c: TaskId, a: GroupStep)
    requires s.n > 0 && CanGroup(s, c, a) && AllInRange(s.files)
    ensures AllInRange(DoGroup(s, c, a).files)
  {
  }

  lemma RequestKeepsFiles(s: State, t: TaskId, a: RequestStep)
    requires CanRequest(s, t, a)
    ensures DoRequest(s, t, a).files == s.files
  {
  }

  lemma UploadKeepsFiles(s: State, t: TaskId, a: UploadStep)
    requires CanOnUpload(s, t, a)
    ensures DoOnUpload(s, t, a).files == s.files
  {
    match a
    case BeginComplete(u, numbers) => assert DoBeginComplete(s, t, u, numbers).files == s.files;
    case BeginAbort(u, keys) => assert DoBeginAbort(s, t, u, keys).files == s.files;
    case NextPart => assert DoNextPart(s, t).files == s.files;
    case _ =>
  }

  lemma BlockAddsNoFile(s: State, t: TaskId, a: BlockStep)
    requires s.n > 0 && CanOnBlock(s, t, a)
    ensures DoOnBlock(s, t, a).files <= s.files
  {
  }

  lemma StepStaysInRange(s: State, a: Action)
    requires s.n > 0 && Enabled(s, a) && AllInRange(s.files)
    ensures AllInRange(Next(s, a).files)
  {
    match a
    case Request(t, step) => RequestKeepsFiles(s, t, step);
    case Group(c, step) => GroupStaysInRange(s, c, step);
    case OnBlock(t, step) => BlockAddsNoFile(s, t, step);
    case OnUpload(t, step) => UploadKeepsFiles(s, t, step);
    case OnStore(step) =>
  }

  /** Over every run, no file is ever put where a walk over the store would not find it. */
  lemma {:induction false} FilesStayInRange(s: State, run: seq<Action>)
    requires s.n > 0 && IsRun(s, run) && AllInRange(s.files)
    ensures AllInRange(Exec(s, run).files)
    decreases |run|
  {
    if run != [] {
      StepStaysInRange(s, run[0]);
      FilesStayInRange(Next(s, run[0]), run[1..]);
    }
  }
}
