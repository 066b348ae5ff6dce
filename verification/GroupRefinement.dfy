/** A call of `close_group` is a run of the protocol: files are placed, members are
    committed or failed in order, and the group ends. */
module GroupRefinement {
  import opened Ids
  import opened Records
  import opened Protocol
  import opened ProtocolFiles
  import opened GroupCommit
  import opened GroupFiles
  import opened CloseGroup
  import opened Sequences

  /** One entry per block, as in a batch, which is keyed by block. */
  predicate Distinct(entries: seq<Entry>) {
    forall i, j :: 0 <= i < j < |entries| ==> entries[i].id != entries[j].id
  }

  /** Each member brings one attempt at the file of each block it names. */
  function Attempts(members: seq<seq<Entry>>): multiset<BlockId> {
    if members == [] then multiset{}
    else Attempts(members[..|members| - 1]) + multiset(IdsOf(members[|members| - 1]))
  }

  lemma {:induction false} OneAttempt(members: seq<seq<Entry>>, id: BlockId)
    ensures Attempts(members)[id] >= 1 <==> id in GroupIds(members)
    decreases |members|
  {
    if members != [] { OneAttempt(members[..|members| - 1], id); }
  }

  lemma {:induction false} StagedSomewhere(entries: seq<Entry>, id: BlockId) returns (j: nat)
    requires FirstStaged(entries, id).Some?
    ensures j < |entries| && entries[j].id == id && entries[j].payload.Staged?
    decreases |entries|
  {
    j := |entries| - 1;
    if FirstStaged(entries[..j], id).Some? { j := StagedSomewhere(entries[..j], id); }
  }

  lemma {:induction false} StagedIsNamed(members: seq<seq<Entry>>, id: BlockId)
    requires FirstStagedIn(members, id).Some?
    ensures id in GroupIds(members)
    decreases |members|
  {
    var n := |members| - 1;
    if FirstStagedIn(members[..n], id).Some? {
      StagedIsNamed(members[..n], id);
    } else {
      var j := StagedSomewhere(members[n], id);
    }
  }

  /** A member does not both stage a block and deduplicate it. */
  lemma NotBoth(entries: seq<Entry>, id: BlockId)
    requires Distinct(entries)
    ensures id in HitsOf(entries) ==> FirstStaged(entries, id).None?
  {
    if id in HitsOf(entries) && FirstStaged(entries, id).Some? {
      var j := StagedSomewhere(entries, id);
      assert false;
    }
  }

  /** A block that one member deduplicated and another staged has two attempts. */
  lemma {:induction false} TwoAttempts(members: seq<seq<Entry>>, id: BlockId)
    requires id in GroupHits(members) && FirstStagedIn(members, id).Some?
    requires forall i :: 0 <= i < |members| ==> Distinct(members[i])
    ensures Attempts(members)[id] >= 2
    decreases |members|
  {
    var n := |members| - 1;
    var before, last := members[..n], members[n];
    assert forall i :: 0 <= i < n ==> before[i] == members[i];
    NotBoth(last, id);
    if id in GroupHits(before) && FirstStagedIn(before, id).Some? {
      TwoAttempts(before, id);
    } else if id in GroupHits(before) {
      HitIsNamed(before, id);
      OneAttempt(before, id);
      var j := StagedSomewhere(last, id);
    } else {
      StagedIsNamed(before, id);
      OneAttempt(before, id);
    }
  }

  // ------------------------------------------------------------- the files

  /** `s` with the closer and the files further on. */
  function Further(s: State, c: TaskId, x: Task, files: Files): State {
    s.(tasks := s.tasks[c := x], files := files)
  }

  /** The file can be placed now. */
  predicate Placeable(x: Task, f: (BlockId, nat)) {
    x.Closing? && x.wanted == [] && f.0 in x.ids && f.0 !in x.placed && f.0 in x.tries && InRange(f.0, f.1)
  }

  /** What placing the file makes of the closer. */
  function AfterPlace(x: Task, f: (BlockId, nat), known: bool): Task
    requires x.Closing?
  {
    var y := x.(tries := x.tries - multiset{f.0});
    if known then y.(placed := y.placed[f.0 := f.1]) else y
  }

  /** States, closed under the steps a closer takes once it holds its stripes. */
  datatype Reach = Reach(c: TaskId, states: iset<State>)

  ghost predicate ClosedUnder(r: Reach) {
    && (forall s, id, depth, known :: s in r.states && CanPlace(s, r.c, id, depth) ==>
        DoPlace(s, r.c, id, depth, known) in r.states)
    && (forall s :: s in r.states && CanCommit(s, r.c) ==> DoCommit(s, r.c) in r.states)
    && (forall s :: s in r.states && CanFailMember(s, r.c) ==> DoFailMember(s, r.c) in r.states)
    && (forall s :: s in r.states && CanEndGroup(s, r.c) ==> DoEndGroup(s, r.c) in r.states)
  }

  type Closed = r: Reach | ClosedUnder(r) ghost witness Reach(0, iset s: State | true)

  lemma OnePlace(r: Closed, s: State, x: Task, files: Files, f: (BlockId, nat), known: bool)
    requires Further(s, r.c, x, files) in r.states && Placeable(x, f)
    ensures Further(s, r.c, AfterPlace(x, f, known), files + {f}) in r.states
  {
    var s0 := Further(s, r.c, x, files);
    assert s0.tasks[r.c] == x && CanPlace(s0, r.c, f.0, f.1);
    assert s.tasks[r.c := x][r.c := AfterPlace(x, f, known)] == s.tasks[r.c := AfterPlace(x, f, known)];
    assert DoPlace(s0, r.c, f.0, f.1, known) == Further(s, r.c, AfterPlace(x, f, known), files + {f});
  }

  predicate OnePerBlock(files: Files) {
    forall f, g :: f in files && g in files && f.0 == g.0 ==> f == g
  }

  function BlocksOf(files: Files): set<BlockId> { set f | f in files :: f.0 }

  lemma BlocksWithout(files: Files, f: (BlockId, nat), tries: multiset<BlockId>)
    requires OnePerBlock(files) && f in files
    ensures OnePerBlock(files - {f}) && forall g :: g in files - {f} ==> g.0 != f.0
    ensures tries - multiset{f.0} - multiset(BlocksOf(files - {f})) == tries - multiset(BlocksOf(files))
  {
    assert BlocksOf(files) == BlocksOf(files - {f}) + {f.0};
    assert f.0 !in BlocksOf(files - {f});
  }

  /** The files of writes that failed after their rename. */
  lemma {:induction false} PlaceStrays(r: Closed, s: State, x: Task, files: Files, strays: Files)
    requires Further(s, r.c, x, files) in r.states && x.Closing?
    requires OnePerBlock(strays) && forall f :: f in strays ==> Placeable(x, f)
    ensures Further(s, r.c, x.(tries := x.tries - multiset(BlocksOf(strays))), files + strays) in r.states
    decreases |strays|
  {
    if strays == {} {
      assert x.tries - multiset(BlocksOf(strays)) == x.tries && files + strays == files;
    } else {
      var f :| f in strays;
      OnePlace(r, s, x, files, f, false);
      BlocksWithout(strays, f, x.tries);
      StillPlaceable(x, f, false, strays - {f});
      PlaceStrays(r, s, AfterPlace(x, f, false), files + {f}, strays - {f});
      assert files + {f} + (strays - {f}) == files + strays;
    }
  }

  lemma StillPlaceable(x: Task, f: (BlockId, nat), known: bool, rest: Files)
    requires x.Closing? && forall g :: g in rest ==> Placeable(x, g) && g.0 != f.0
    ensures forall g :: g in rest ==> Placeable(AfterPlace(x, f, known), g)
  {
  }

  function FilesOf(placed: map<BlockId, nat>): Files { set id | id in placed :: (id, placed[id]) }

  lemma PlacedWithout(before: map<BlockId, nat>, placed: map<BlockId, nat>, files: Files, id: BlockId)
    requires id in placed
    ensures before[id := placed[id]] + (placed - {id}) == before + placed
    ensures files + {(id, placed[id])} + FilesOf(placed - {id}) == files + FilesOf(placed)
    ensures (id, placed[id]) in FilesOf(placed)
    ensures forall g :: g in FilesOf(placed - {id}) ==> g.0 != id && g in FilesOf(placed)
  {
    var rest := placed - {id};
    forall g | g in FilesOf(placed) ensures g in FilesOf(rest) + {(id, placed[id])} {
      if g.0 != id { assert g.0 in rest; }
    }
    forall g | g in FilesOf(rest) ensures g.0 != id && g in FilesOf(placed) { assert g.0 in rest && g.0 in placed; }
  }

  /** The files the group knows it placed. */
  lemma {:induction false} PlaceKnown(r: Closed, s: State, x: Task, files: Files, placed: map<BlockId, nat>)
      returns (y: Task)
    requires Further(s, r.c, x, files) in r.states && x.Closing?
    requires forall g :: g in FilesOf(placed) ==> Placeable(x, g)
    ensures y.Closing? && y == x.(tries := y.tries, placed := x.placed + placed)
    ensures Further(s, r.c, y, files + FilesOf(placed)) in r.states
    decreases |placed|
  {
    if placed == map[] {
      y := x;
      assert x.placed + placed == x.placed && files + FilesOf(placed) == files;
    } else {
      var id :| id in placed;
      var f, rest := (id, placed[id]), placed - {id};
      PlacedWithout(x.placed, placed, files, id);
      OnePlace(r, s, x, files, f, true);
      StillPlaceable(x, f, true, FilesOf(rest));
      y := PlaceKnown(r, s, AfterPlace(x, f, true), files + {f}, rest);
    }
  }

  // ------------------------------------------------------------ the members

  /** Each parked task of the group brings the batch of one member. */
  ghost predicate Bring(s: State, c: TaskId, group: seq<TaskId>, members: seq<seq<Entry>>) {
    && |group| == |members| && c !in group
    && (forall i, j :: 0 <= i < j < |group| ==> group[i] != group[j])
    && forall i :: 0 <= i < |group| ==>
         Is(s, group[i]) && s.tasks[group[i]].Parked? && s.tasks[group[i]].batch == Listing(members[i])
  }

  /** The group has gathered these members so far. */
  ghost predicate Gathered(s: State, c: TaskId, members: seq<seq<Entry>>) {
    && Is(s, c) && s.tasks[c].Gathering?
    && var g := s.tasks[c];
    && g.named == GroupIds(members) && g.budget == Attempts(members) && Bring(s, c, g.group, members)
    && forall i :: 0 <= i < |g.group| ==> s.tasks[g.group[i]].owner == Some(c)
  }

  /** The group has set out to take its stripes, and has placed nothing yet. */
  ghost predicate Planned(s: State, c: TaskId, members: seq<seq<Entry>>) {
    && Is(s, c) && s.tasks[c].Closing?
    && var x := s.tasks[c];
    && x.ids == GroupIds(members) && x.placed == map[] && x.tries == Attempts(members) &&
         Bring(s, c, x.members, members)
  }

  ghost predicate AtStripes(s: State, c: TaskId, members: seq<seq<Entry>>) {
    Planned(s, c, members) && s.tasks[c].wanted == []
  }

  lemma ListingNames(entries: seq<Entry>)
    requires forall i :: 0 <= i < |entries| ==> entries[i].occurrences >= 1
    ensures Names(Listing(entries)) == IdsOf(entries)
  {
    forall x: BlockId ensures x in Names(Listing(entries)) <==> x in IdsOf(entries) {
      ListingIds(entries, x);
    }
  }

  lemma OneMoreBrings(s: State, c: TaskId, group: seq<TaskId>, members: seq<seq<Entry>>, m: TaskId, entries: seq<Entry>)
    requires Bring(s, c, group, members) && m != c && m !in group
    requires Is(s, m) && s.tasks[m].Parked? && s.tasks[m].batch == Listing(entries)
    ensures Bring(s, c, group + [m], members + [entries])
  {
  }

  /** What a group brings does not depend on who owns the batches, nor on the closer. */
  lemma BringKept(s: State, s': State, c: TaskId, group: seq<TaskId>, members: seq<seq<Entry>>)
    requires Bring(s, c, group, members)
    requires forall i :: 0 <= i < |group| ==>
               Is(s', group[i]) && s'.tasks[group[i]].Parked? && s'.tasks[group[i]].batch == s.tasks[group[i]].batch
    ensures Bring(s', c, group, members)
  {
  }

  lemma MoreMembers(members: seq<seq<Entry>>, entries: seq<Entry>)
    ensures GroupIds(members + [entries]) == GroupIds(members) + IdsOf(entries)
    ensures Attempts(members + [entries]) == Attempts(members) + multiset(IdsOf(entries))
  {
    assert (members + [entries])[..|members|] == members;
  }

  lemma JoinIs(s: State, c: TaskId, members: seq<seq<Entry>>, m: TaskId)
    requires Gathered(s, c, members) && CanJoin(s, c, m)
    ensures var s', g, x := DoJoin(s, c, m), s.tasks[c], s.tasks[m];
            && m != c && m !in g.group && Is(s', c)
            && s'.tasks[c] == Gathering(g.group + [m], g.named + Names(x.batch), g.budget + multiset(Names(x.batch)))
            && forall t :: t in g.group + [m] ==> Is(s', t) && s'.tasks[t] == s.tasks[t].(owner := Some(c))
  {
    var s', group := DoJoin(s, c, m), s.tasks[c].group;
    forall t | t in group + [m] ensures Is(s', t) && s'.tasks[t] == s.tasks[t].(owner := Some(c)) {
      if t != m { var i :| 0 <= i < |group| && group[i] == t; }
    }
  }

  lemma OwnedByAll(s: State, s': State, c: TaskId, group: seq<TaskId>, members: seq<seq<Entry>>)
    requires Bring(s, c, group, members)
    requires forall t :: t in group ==>
               Is(s', t) && Is(s, t) && s.tasks[t].Parked? && s'.tasks[t] == s.tasks[t].(owner := Some(c))
    requires Is(s', c) && s'.tasks[c] == Gathering(group, GroupIds(members), Attempts(members))
    ensures Gathered(s', c, members)
  {
    BringKept(s, s', c, group, members);
  }

  /** A batch that joins brings its member. */
  lemma JoinBrings(s: State, c: TaskId, members: seq<seq<Entry>>, m: TaskId, entries: seq<Entry>)
    requires Gathered(s, c, members) && CanJoin(s, c, m) && s.tasks[m].batch == Listing(entries)
    requires forall i :: 0 <= i < |entries| ==> entries[i].occurrences >= 1
    ensures Gathered(DoJoin(s, c, m), c, members + [entries])
  {
    var group := s.tasks[c].group;
    JoinIs(s, c, members, m);
    OneMoreBrings(s, c, group, members, m, entries);
    ListingNames(entries);
    MoreMembers(members, entries);
    OwnedByAll(s, DoJoin(s, c, m), c, group + [m], members + [entries]);
  }

  /** Planning and taking stripes changes nothing of what the group brings. */
  lemma PlanBrings(s: State, c: TaskId, members: seq<seq<Entry>>, wanted: seq<nat>)
    requires s.n > 0 && Gathered(s, c, members) && CanBeginLocking(s, c, wanted)
    ensures Planned(SetTask(s, c, StartClosing(s.tasks[c], wanted)), c, members)
  {
    BringKept(s, SetTask(s, c, StartClosing(s.tasks[c], wanted)), c, s.tasks[c].group, members);
  }

  lemma LockBrings(s: State, c: TaskId, members: seq<seq<Entry>>)
    requires Planned(s, c, members) && CanLockStripe(s, c)
    ensures Planned(DoLockStripe(s, c), c, members)
  {
    BringKept(s, DoLockStripe(s, c), c, s.tasks[c].members, members);
  }

  /** What the answer makes of a parked request. */
  function Told(p: Task, answer: Outcome): Task
    requires p.Parked?
  {
    if answer.Ok? && p.waiting then Writing(p.goal, p.got + p.batch) else Done(Failed)
  }

  /** The first `i` tasks of a group have been told their answers. */
  ghost predicate AllTold(tasks: map<TaskId, Task>, c: TaskId, group: seq<TaskId>, answers: seq<Outcome>, i: nat,
                          tasks': map<TaskId, Task>)
    requires c in tasks && tasks[c].Closing? && i <= |answers| == |group|
    requires forall j :: 0 <= j < |group| ==> group[j] in tasks && tasks[group[j]].Parked?
  {
    && tasks'.Keys == tasks.Keys && tasks'[c] == tasks[c].(members := group[i..])
    && (forall j :: 0 <= j < i ==> tasks'[group[j]] == Told(tasks[group[j]], answers[j]))
    && (forall t :: t in tasks && t != c && t !in group[..i] ==> tasks'[t] == tasks[t])
  }

  lemma ToldStep(tasks: map<TaskId, Task>, c: TaskId, group: seq<TaskId>, answers: seq<Outcome>, i: nat,
                 tasks': map<TaskId, Task>)
    requires c in tasks && tasks[c].Closing? && i < |answers| == |group| && c !in group
    requires forall j :: 0 <= j < |group| ==> group[j] in tasks && tasks[group[j]].Parked?
    requires forall j, k :: 0 <= j < k < |group| ==> group[j] != group[k]
    requires AllTold(tasks, c, group, answers, i, tasks')
    ensures var m := group[i];
            && m != c && m in tasks' && tasks'[m] == tasks[m]
            && AllTold(tasks, c, group, answers, i + 1,
                       tasks'[m := Told(tasks[m], answers[i])][c := tasks[c].(members := group[i + 1..])])
  {
    var m := group[i];
    NewInTake(group, i);
    var after := tasks'[m := Told(tasks[m], answers[i])][c := tasks[c].(members := group[i + 1..])];
    assert after.Keys == tasks.Keys;
    forall j | 0 <= j < i + 1 ensures after[group[j]] == Told(tasks[group[j]], answers[j]) {
      assert group[j] != c && (j < i ==> group[j] != m);
    }
  }

  lemma NewInTake(group: seq<TaskId>, i: nat)
    requires i < |group| && forall j, k :: 0 <= j < k < |group| ==> group[j] != group[k]
    ensures group[i] !in group[..i] && forall t :: t in group[..i + 1] <==> t in group[..i] || t == group[i]
  {
    assert group[..i + 1] == group[..i] + [group[i]];
  }

  /** The first `i` members have been answered, in order. */
  ghost predicate Answered(s: State, c: TaskId, members: seq<seq<Entry>>, answers: seq<Outcome>, i: nat, s': State)
    requires Is(s, c) && s.tasks[c].Closing? && |members| == |answers| && i <= |members|
    requires Bring(s, c, s.tasks[c].members, members)
  {
    && s' == s.(blocks := s'.blocks, tasks := s'.tasks, leaked := s'.leaked)
    && s'.blocks == InOrder(s.blocks, members[..i], answers[..i], s.tasks[c].placed)
    && AllTold(s.tasks, c, s.tasks[c].members, answers, i, s'.tasks)
  }

  /** What an answer makes of the state. */
  function AfterAnswer(s: State, c: TaskId, answer: Outcome): State
    requires if answer.Ok? then CanCommit(s, c) else CanFailMember(s, c)
  {
    if answer.Ok? then DoCommit(s, c) else DoFailMember(s, c)
  }

  lemma AfterAnswerIs(s: State, c: TaskId, entries: seq<Entry>, answer: Outcome)
    requires IsStriped(s, c) && CanFailMember(s, c) && s.tasks[s.tasks[c].members[0]].batch == Listing(entries)
    requires answer.Ok? ==> Recordable(s.blocks, Listing(entries), s.tasks[c].placed)
    ensures if answer.Ok? then CanCommit(s, c) else CanFailMember(s, c)
    ensures var s', x := AfterAnswer(s, c, answer), s.tasks[c];
            && s' == s.(blocks := s'.blocks, tasks := s'.tasks, leaked := s'.leaked)
            && s'.blocks == CommitOne(s.blocks, entries, answer, x.placed)
            && s'.tasks
               == s.tasks[x.members[0] := Told(s.tasks[x.members[0]], answer)][c := x.(members := x.members[1..])]
  {
  }

  lemma AnswerStep(s: State, c: TaskId, members: seq<seq<Entry>>, answers: seq<Outcome>, i: nat, s': State)
    requires IsStriped(s, c) && |members| == |answers| && i < |members|
    requires Bring(s, c, s.tasks[c].members, members) && Exact(s.blocks, members, answers, s.tasks[c].placed)
    requires Answered(s, c, members, answers, i, s')
    ensures if answers[i].Ok? then CanCommit(s', c) else CanFailMember(s', c)
    ensures Answered(s, c, members, answers, i + 1, AfterAnswer(s', c, answers[i]))
  {
    var group := s.tasks[c].members;
    assert group[i..][0] == group[i] && group[i..][1..] == group[i + 1..];
    ToldStep(s.tasks, c, group, answers, i, s'.tasks);
    AfterAnswerIs(s', c, members[i], answers[i]);
    InOrderStep(s.blocks, members[..i], answers[..i], s.tasks[c].placed, members[i], answers[i]);
    TakeStep(members, i);
    TakeStep(answers, i);
  }

  lemma {:induction false} AnswerAll(r: Closed, s: State, members: seq<seq<Entry>>, answers: seq<Outcome>, i: nat,
                                     s': State)
      returns (last: State)
    requires Is(s, r.c) && IsStriped(s, r.c) && |members| == |answers| && i <= |members|
    requires Bring(s, r.c, s.tasks[r.c].members, members) && Exact(s.blocks, members, answers, s.tasks[r.c].placed)
    requires Answered(s, r.c, members, answers, i, s') && s' in r.states
    ensures Answered(s, r.c, members, answers, |members|, last) && last in r.states
    decreases |members| - i
  {
    if i == |members| {
      last := s';
    } else {
      AnswerStep(s, r.c, members, answers, i, s');
      last := AnswerAll(r, s, members, answers, i + 1, AfterAnswer(s', r.c, answers[i]));
    }
  }

  // ------------------------------------------------------------ the whole call

  /** Strays of blocks that were not rewritten in the end. */
  function Unmended(w: FileWork): Files { set f | f in w.strays && f.0 !in w.rewritten }

  lemma StraysFit(s: State, c: TaskId, members: seq<seq<Entry>>, base: Files, w: FileWork)
    requires AtStripes(s, c, members) && WorkOk(members, base, w)
    ensures OnePerBlock(Unmended(w)) && forall f :: f in Unmended(w) ==> Placeable(s.tasks[c], f)
  {
    forall f, g | f in Unmended(w) && g in Unmended(w) && f.0 == g.0 ensures f == g {
      assert Written(w.rewritten, w.strays, f) && Written(w.rewritten, w.strays, g);
    }
    forall f | f in Unmended(w) ensures Placeable(s.tasks[c], f) {
      assert Written(w.rewritten, w.strays, f);
      HitIsNamed(members, f.0);
      OneAttempt(members, f.0);
    }
  }

  /** Enough attempts are left for what was placed after the strays. */
  lemma AttemptLeft(members: seq<seq<Entry>>, base: Files, w: FileWork, id: BlockId)
    requires WorkOk(members, base, w) && GroupOk(members) && id in w.placed
    requires forall i :: 0 <= i < |members| ==> Distinct(members[i])
    ensures id in GroupIds(members) && InRange(id, w.placed[id])
    ensures Attempts(members)[id] > multiset(BlocksOf(Unmended(w)))[id]
  {
    var f := (id, w.placed[id]);
    if id in w.rewritten {
      assert Written(w.rewritten, w.strays, f);
      HitIsNamed(members, id);
    } else {
      StagedIsNamed(members, id);
      FirstIsInRange(members, id);
      if g :| g in Unmended(w) && g.0 == id {
        assert Written(w.rewritten, w.strays, g);
        TwoAttempts(members, id);
      }
    }
    OneAttempt(members, id);
  }

  lemma AllFiles(base: Files, files: Files, members: seq<seq<Entry>>, w: FileWork)
    requires FilesAre(base, files, w) && WorkOk(members, base, w)
    ensures files == base + Unmended(w) + FilesOf(w.placed)
  {
    forall f | f in files ensures f in base + Unmended(w) + FilesOf(w.placed) {
      if f in w.strays && f.0 in w.rewritten {
        var g := (f.0, w.rewritten[f.0]);
        assert Written(w.rewritten, w.strays, f) && Written(w.rewritten, w.strays, g);
        assert f == g && w.placed[f.0] == f.1;
      }
    }
    forall f | f in base + Unmended(w) + FilesOf(w.placed) ensures f in files {
      if f in FilesOf(w.placed) { assert PlacedAt(w.placed, f); }
    }
  }

  /** All the file work of a group, step by step. */
  lemma PlaceAll(r: Closed, s: State, members: seq<seq<Entry>>, files: Files, w: FileWork) returns (y: Task)
    requires AtStripes(s, r.c, members) && GroupOk(members) && s in r.states
    requires forall i :: 0 <= i < |members| ==> Distinct(members[i])
    requires FilesAre(s.files, files, w) && WorkOk(members, s.files, w)
    ensures y.Closing? && y == s.tasks[r.c].(tries := y.tries, placed := w.placed)
    ensures Further(s, r.c, y, files) in r.states
  {
    var z := AfterStrays(s.tasks[r.c], w);
    PlaceAllStrays(r, s, members, w);
    KnownFit(s, r.c, members, w);
    y := PlaceKnown(r, s, z, s.files + Unmended(w), w.placed);
    AllFiles(s.files, files, members, w);
    assert z.placed + w.placed == w.placed;
  }

  /** The closer once the strays are in place. */
  function AfterStrays(x: Task, w: FileWork): Task
    requires x.Closing?
  {
    x.(tries := x.tries - multiset(BlocksOf(Unmended(w))))
  }

  lemma PlaceAllStrays(r: Closed, s: State, members: seq<seq<Entry>>, w: FileWork)
    requires AtStripes(s, r.c, members) && s in r.states && WorkOk(members, s.files, w)
    ensures Further(s, r.c, AfterStrays(s.tasks[r.c], w), s.files + Unmended(w)) in r.states
  {
    var x := s.tasks[r.c];
    assert s.tasks[r.c := x] == s.tasks;
    assert Further(s, r.c, x, s.files) == s;
    StraysFit(s, r.c, members, s.files, w);
    PlaceStrays(r, s, x, s.files, Unmended(w));
  }

  lemma KnownFit(s: State, c: TaskId, members: seq<seq<Entry>>, w: FileWork)
    requires AtStripes(s, c, members) && GroupOk(members) && WorkOk(members, s.files, w)
    requires forall i :: 0 <= i < |members| ==> Distinct(members[i])
    ensures forall g :: g in FilesOf(w.placed) ==> Placeable(AfterStrays(s.tasks[c], w), g)
  {
    forall g | g in FilesOf(w.placed) ensures Placeable(AfterStrays(s.tasks[c], w), g) {
      AttemptLeft(members, s.files, w, g.0);
    }
  }

  predicate OnlyBy(run: seq<Action>, c: TaskId) {
    forall i :: 0 <= i < |run| ==> run[i].Group? && run[i].t == c
  }

  /** `c` alone can take the store from `s` to `s'`. */
  ghost predicate LeadsBy(s: State, c: TaskId, run: seq<Action>, s': State) {
    Leads(s, run, s') && OnlyBy(run, c)
  }

  ghost predicate CanReach(s: State, c: TaskId, s': State) { exists run :: LeadsBy(s, c, run, s') }

  ghost function ReachedBy(s: State, c: TaskId): Reach {
    Reach(c, iset s' | CanReach(s, c, s'))
  }

  lemma OneMoreBy(s: State, c: TaskId, s': State, a: GroupStep)
    requires s' in ReachedBy(s, c).states && s'.n > 0 && CanGroup(s', c, a)
    ensures DoGroup(s', c, a) in ReachedBy(s, c).states
  {
    var run :| LeadsBy(s, c, run, s');
    Onward(s, run, s', Group(c, a));
    assert LeadsBy(s, c, run + [Group(c, a)], DoGroup(s', c, a));
  }

  lemma ReachedIsClosed(s: State, c: TaskId)
    requires s.n > 0
    ensures s in ReachedBy(s, c).states && ClosedUnder(ReachedBy(s, c))
  {
    var r := ReachedBy(s, c);
    assert LeadsBy(s, c, [], s);
    forall s', id, depth, known | s' in r.states && CanPlace(s', c, id, depth)
      ensures DoPlace(s', c, id, depth, known) in r.states
    {
      OneMoreBy(s, c, s', PlaceFile(id, depth, known));
    }
    forall s' | s' in r.states && CanCommit(s', c) ensures DoCommit(s', c) in r.states {
      OneMoreBy(s, c, s', CommitMember);
    }
    forall s' | s' in r.states && CanFailMember(s', c) ensures DoFailMember(s', c) in r.states {
      OneMoreBy(s, c, s', FailMember);
    }
    forall s' | s' in r.states && CanEndGroup(s', c) ensures DoEndGroup(s', c) in r.states {
      OneMoreBy(s, c, s', EndGroup);
    }
  }

  /** Every member has been told its answer, the closer is done, the rest is as it was. */
  ghost predicate AllDone(tasks: map<TaskId, Task>, c: TaskId, group: seq<TaskId>, answers: seq<Outcome>,
                          tasks': map<TaskId, Task>)
    requires c in tasks && |answers| == |group|
    requires forall j :: 0 <= j < |group| ==> group[j] in tasks && tasks[group[j]].Parked?
  {
    && tasks'.Keys == tasks.Keys && tasks'[c] == Done(Finished)
    && (forall j :: 0 <= j < |answers| ==> group[j] in tasks' && tasks'[group[j]] == Told(tasks[group[j]], answers[j]))
    && (forall t :: t in tasks && t != c && t !in group ==> tasks'[t] == tasks[t])
  }

  lemma ToldIsDone(tasks: map<TaskId, Task>, c: TaskId, y: Task, answers: seq<Outcome>, told: map<TaskId, Task>)
    requires c in tasks && y.Closing? && |answers| == |y.members| && c !in y.members
    requires forall j :: 0 <= j < |y.members| ==> y.members[j] in tasks && tasks[y.members[j]].Parked?
    requires AllTold(tasks[c := y], c, y.members, answers, |answers|, told)
    ensures c in told && told[c].Closing? && told[c].members == []
    ensures AllDone(tasks, c, y.members, answers, told[c := Done(Finished)])
  {
    assert y.members[|answers|..] == [] && y.members[..|answers|] == y.members;
  }

  /** The call has ended: the records and files are these, the stripes are free, every
      member has been told its answer, and nothing else has changed. */
  ghost predicate Ended(s: State, c: TaskId, answers: seq<Outcome>, blocks: Blocks, files: Files, s': State)
    requires Is(s, c) && s.tasks[c].Closing? && |answers| == |s.tasks[c].members|
    requires var group := s.tasks[c].members;
             forall j :: 0 <= j < |group| ==> Is(s, group[j]) && s.tasks[group[j]].Parked?
  {
    && s' == s.(blocks := blocks, files := files, tasks := s'.tasks, locks := s'.locks, leaked := s'.leaked)
    && s'.locks == (map k | k in s.locks && s.locks[k] != c :: s.locks[k])
    && AllDone(s.tasks, c, s.tasks[c].members, answers, s'.tasks)
  }

  lemma EndIs(s: State, c: TaskId, members: seq<seq<Entry>>, answers: seq<Outcome>, files: Files, y: Task, last: State)
    requires AtStripes(s, c, members) && |answers| == |members|
    requires y.Closing? && y == s.tasks[c].(tries := y.tries, placed := y.placed)
    requires Bring(Further(s, c, y, files), c, y.members, members)
    requires Answered(Further(s, c, y, files), c, members, answers, |members|, last)
    ensures CanEndGroup(last, c)
    ensures Ended(s, c, answers, InOrder(s.blocks, members, answers, y.placed), files, DoEndGroup(last, c))
  {
    ToldIsDone(s.tasks, c, y, answers, last.tasks);
    assert members[..|members|] == members && answers[..|members|] == answers;
  }

  /** Whatever `close_group` does and answers, the closer can do by steps of the
      protocol: it places the same files, commits or fails each member, and ends. */
  lemma ClosesByItsSteps(s: State, c: TaskId, members: seq<seq<Entry>>, answers: seq<Outcome>, files: Files,
                         w: FileWork)
      returns (run: seq<Action>)
    requires s.n > 0 && AtStripes(s, c, members) && GroupOk(members) && |answers| == |members|
    requires forall i :: 0 <= i < |members| ==> Distinct(members[i])
    requires FilesAre(s.files, files, w) && WorkOk(members, s.files, w) && Exact(s.blocks, members, answers, w.placed)
    ensures IsRun(s, run) && OnlyBy(run, c)
    ensures Ended(s, c, answers, InOrder(s.blocks, members, answers, w.placed), files, Exec(s, run))
  {
    ReachedIsClosed(s, c);
    var r: Closed := ReachedBy(s, c);
    var y := PlaceAll(r, s, members, files, w);
    var s1 := Further(s, c, y, files);
    assert Bring(s1, c, y.members, members);
    assert Answered(s1, c, members, answers, 0, s1);
    var last := AnswerAll(r, s1, members, answers, 0, s1);
    EndIs(s, c, members, answers, files, y, last);
    assert CanReach(s, c, DoEndGroup(last, c));
    run :| LeadsBy(s, c, run, DoEndGroup(last, c));
  }

  /** A call of `close_group` on the protocol's records and files is a run of it. */
  method CloseAsRun(store: BlockStore, members: seq<seq<Entry>>, ghost s: State, ghost c: TaskId)
      returns (answers: seq<Outcome>, ghost run: seq<Action>)
    requires s.n > 0 && AtStripes(s, c, members) && GroupOk(members)
    requires forall i :: 0 <= i < |members| ==> Distinct(members[i])
    requires store.records == s.blocks && store.files == s.files && Filed(s.blocks, s.files)
    modifies store
    ensures |answers| == |members| && IsRun(s, run) && OnlyBy(run, c)
    ensures Ended(s, c, answers, store.records, store.files, Exec(s, run))
  {
    ghost var w, h;
    answers, w, h := CloseGroup.CloseGroup(store, members);
    run := ClosesByItsSteps(s, c, members, answers, store.files, w);
  }
}
