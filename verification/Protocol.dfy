/** The reference-counted block store as a transition system.

    The shared state is the namespace database (object records), the shared
    database (part, upload and block records), the block files and the stripe
    table. Requests, the group committer and the collector are tasks, each with
    its own program counter; every action below is one step of one task, and a
    crash or a stranger's step may fall between any two of them. */
module Protocol {
  import opened Ids
  import opened Accounting
  import opened Records
  import Stripes

  type TaskId = nat

  datatype ObjectKey = ObjectKey(bucket: string, key: string)
  datatype Upload = Upload(bucket: string, key: string, uploadId: string)
  datatype PartKey = PartKey(upload: Upload, number: int)

  /** The record a write is going to publish. */
  datatype Goal = ObjectGoal(dest: ObjectKey) | PartGoal(part: PartKey)

  datatype Answer = Stored | NotCloned | Finished | Failed

  /** Where `release_blocks` stands inside one occurrence. */
  datatype ReleasePc = Idle | Striped | Unlinking(id: BlockId, depth: nat)

  datatype Task =
    | Writing(goal: Goal, got: seq<BlockId>)
      // streaming chunks; `got` are the occurrences of the batches flushed so far
    | Parked(goal: Goal, got: seq<BlockId>, batch: seq<BlockId>, owner: Option<TaskId>, waiting: bool)
      // a sealed batch handed to a closer; a client that hung up no longer waits
    | Publishing(goal: Goal, got: seq<BlockId>)
      // every reference taken, the record not written yet
    | Releasing(todo: seq<BlockId>, pc: ReleasePc, rest: seq<PartKey>, answer: Answer)
      // the record is gone, its references go one by one; then the parts of `rest`
    | Acquiring(copy: ObjectKey, blocks: seq<BlockId>, taken: nat, locked: bool)
      // a clone taking one reference per occurrence
    | Gathering(group: seq<TaskId>, named: set<BlockId>, budget: multiset<BlockId>)
      // the committer collecting a group
    | Closing(members: seq<TaskId>, ids: set<BlockId>, wanted: seq<nat>, held: set<nat>,
              placed: map<BlockId, nat>, tries: multiset<BlockId>)
      // a group taking its stripes, placing files, committing members in order;
      // each member's entry for a block is good for one attempt to place its file
    | Sweeping(orphans: seq<PartKey>)
      // the collector's scan for parts no upload owns
    | Done(answer: Answer)

  /** What became of a part record, by the serial it was inserted under. */
  datatype Fate = Inherited(who: TaskId) | Reaped(who: TaskId) | Overwritten

  datatype State = State(
    n: nat,                                  // stripes in the table
    rows: set<string>,                       // bucket rows
    objects: map<ObjectKey, seq<BlockId>>,   // object records, by tree and key
    parts: map<PartKey, seq<BlockId>>,       // part records
    uploads: set<Upload>,                    // upload records
    blocks: Blocks,                          // block records
    files: set<(BlockId, nat)>,              // block files, by name and depth
    locks: map<nat, TaskId>,                 // stripes held, and by whom
    tasks: map<TaskId, Task>,
    leaked: seq<BlockId>,                    // references counted with no holder left
    ever: set<Upload>,                       // history: uploads ever created
    wins: seq<(Upload, TaskId)>,             // history: won claims
    serials: map<PartKey, nat>,              // history: serial of each part record
    nextSerial: nat,
    fates: seq<(nat, Fate)>                  // history: how each record left
  )

  /** Steps of a request. */
  datatype RequestStep =
    | BeginPut(goal: Goal)
    | SealBatch(batch: seq<BlockId>)
    | EndStream
    | Publish
    | Abandon
    | BeginDelete(key: ObjectKey)
    | BeginClone(src: ObjectKey, dest: ObjectKey)
    | EndAcquire

  /** Steps of a closer, the group committer or a request closing alone. */
  datatype GroupStep =
    | BeginGroup(first: TaskId)
    | JoinGroup(member: TaskId)
    | BeginLocking(wanted: seq<nat>)
    | LockStripe
    | PlaceFile(id: BlockId, depth: nat, known: bool)
    | CommitMember
    | RefuseMember
    | FailMember
    | EndGroup

  /** Steps on one block occurrence: `release_blocks` and `acquire_references`. */
  datatype BlockStep =
    | LockBlock
    | DecrementBlock
    | FailDecrement
    | UnlinkFile(ok: bool)
    | BumpBlock
    | FailBump
    | LoseBump(committed: bool)

  /** Steps of complete, abort and the collector. */
  datatype UploadStep =
    | BeginComplete(upload: Upload, numbers: seq<int>)
    | BeginAbort(upload: Upload, keys: seq<PartKey>)
    | BeginSweep
    | CollectOrphan(part: PartKey)
    | EndSweep
    | NextPart
    | SkipPart
    | EndRelease

  /** Events of the whole store. */
  datatype StoreStep =
    | CreateUpload(upload: Upload)
    | CreateBucket(bucket: string)
    | RemoveRow(bucket: string)
    | DropBucket(bucket: string)
    | Crash

  datatype Action =
    | Request(t: TaskId, request: RequestStep)
    | Group(t: TaskId, group: GroupStep)
    | OnBlock(t: TaskId, block: BlockStep)
    | OnUpload(t: TaskId, upload: UploadStep)
    | OnStore(store: StoreStep)

  // ---------------------------------------------------------------- views

  /** References a task holds that no record names: they are counted, and the
      task must publish or release them. */
  function Owed(x: Task): seq<BlockId> {
    match x
    case Writing(_, got) => got
    case Parked(_, got, _, _, _) => got
    case Publishing(_, got) => got
    case Releasing(todo, _, _, _) => todo
    case Acquiring(_, blocks, taken, _) => if taken <= |blocks| then blocks[..taken] else blocks
    case _ => []
  }

  /** How many references to `b` somebody accounts for: object records, part
      records, tasks in flight, and the leak. */
  ghost function Total(s: State, b: BlockId): nat {
    Refs(s.objects, Listed, b) + Refs(s.parts, Listed, b) + Refs(s.tasks, Owed, b) + Count(s.leaked, b)
  }

  predicate Holds(s: State, t: TaskId, stripe: nat) {
    stripe in s.locks && s.locks[stripe] == t
  }

  // ------------------------------------------------------------- helpers

  function SetTask(s: State, t: TaskId, x: Task): State {
    s.(tasks := s.tasks[t := x])
  }

  predicate Is(s: State, t: TaskId) { t in s.tasks }

  /** The claim's walk over the named parts: each is read and removed, and the
      first that is not there, or not there any more, refuses the claim. */
  function TakeParts(parts: map<PartKey, seq<BlockId>>, u: Upload, numbers: seq<int>)
    : Option<(map<PartKey, seq<BlockId>>, seq<BlockId>)>
  {
    if numbers == [] then Some((parts, []))
    else
      var pk := PartKey(u, numbers[0]);
      if pk !in parts then None
      else
        match TakeParts(parts - {pk}, u, numbers[1..])
        case None => None
        case Some((left, got)) => Some((left, parts[pk] + got))
  }

  /** The fate entries of a successful claim. */
  function InheritAll(serials: map<PartKey, nat>, u: Upload, numbers: seq<int>, t: TaskId): seq<(nat, Fate)> {
    if numbers == [] then []
    else
      var pk := PartKey(u, numbers[0]);
      (if pk in serials then [(serials[pk], Inherited(t))] else [])
        + InheritAll(serials - {pk}, u, numbers[1..], t)
  }

  function DropNumbers(serials: map<PartKey, nat>, u: Upload, numbers: seq<int>): map<PartKey, nat> {
    serials - set i | 0 <= i < |numbers| :: PartKey(u, numbers[i])
  }

  // ------------------------------------------------------------- actions

  /** PUT writes: `store_object`, then the record through `create_object_meta`
      or `insert_multipart_part`. An object write displaces and releases; a part
      write is a blind insert. */
  function DoPublish(s: State, t: TaskId): (r: State)
    requires Is(s, t) && s.tasks[t].Publishing?
    ensures t in r.tasks && r.tasks == s.tasks[t := r.tasks[t]]
  {
    var x := s.tasks[t];
    match x.goal
    case ObjectGoal(k) =>
      SetTask(s, t, if k in s.objects then Releasing(s.objects[k], Idle, [], Stored) else Done(Stored))
        .(objects := s.objects[k := x.got])
    case PartGoal(pk) =>
      SetTask(s, t, Done(Stored))
        .(parts := s.parts[pk := x.got],
          leaked := s.leaked + if pk in s.parts then s.parts[pk] else [],
          serials := s.serials[pk := s.nextSerial],
          nextSerial := s.nextSerial + 1,
          fates := if pk in s.serials then s.fates + [(s.serials[pk], Overwritten)] else s.fates)
  }

  /** A request that fails or is cancelled at an await point: what it had taken
      stays counted. A parked batch is the closer's and goes on without it. */
  predicate CanAbandon(s: State, t: TaskId) {
    Is(s, t) &&
    match s.tasks[t]
    case Writing(_, _) => true
    case Parked(_, _, _, _, waiting) => waiting
    case Publishing(_, _) => true
    case Releasing(_, pc, _, _) => pc.Idle?
    case Acquiring(_, _, _, locked) => !locked
    case Sweeping(_) => true
    case _ => false
  }

  function DoAbandon(s: State, t: TaskId): (r: State)
    requires CanAbandon(s, t)
    ensures t in r.tasks && r.tasks == s.tasks[t := r.tasks[t]]
  {
    var x := s.tasks[t];
    SetTask(s, t, if x.Parked? then x.(got := [], waiting := false) else Done(Failed))
      .(leaked := s.leaked + Owed(x))
  }

  /** The distinct blocks of a batch. */
  function Names(batch: seq<BlockId>): set<BlockId> {
    set i | 0 <= i < |batch| :: batch[i]
  }

  predicate CanJoin(s: State, c: TaskId, m: TaskId) {
    Is(s, c) && s.tasks[c].Gathering? && Is(s, m) && s.tasks[m].Parked? && s.tasks[m].owner.None?
  }

  function DoJoin(s: State, c: TaskId, m: TaskId): State
    requires CanJoin(s, c, m)
  {
    var g, x := s.tasks[c], s.tasks[m];
    SetTask(SetTask(s, m, x.(owner := Some(c))),
            c, Gathering(g.group + [m], g.named + Names(x.batch), g.budget + multiset(Names(x.batch))))
  }

  const NewGroup: Task := Gathering([], {}, multiset{})

  /** A group starts with the batch that woke the committer. */
  predicate CanBeginGroup(s: State, c: TaskId, m: TaskId) {
    Fresh(s, c) && Is(s, m) && s.tasks[m].Parked? && s.tasks[m].owner.None?
  }

  function DoBeginGroup(s: State, c: TaskId, m: TaskId): State
    requires CanBeginGroup(s, c, m)
  {
    DoJoin(SetTask(s, c, NewGroup), c, m)
  }

  /** The group's stripes are planned: all of them, in stripe order. */
  predicate CanBeginLocking(s: State, c: TaskId, wanted: seq<nat>)
    requires s.n > 0
  {
    && Is(s, c) && s.tasks[c].Gathering? && Stripes.Increasing(wanted)
    && (forall k :: k in wanted ==> k < s.n)
    && (forall id :: id in s.tasks[c].named ==> StripeOf(id, s.n) in wanted)
  }

  function StartClosing(g: Task, wanted: seq<nat>): Task
    requires g.Gathering?
  {
    Closing(g.group, g.named, wanted, {}, map[], g.budget)
  }

  predicate CanLockStripe(s: State, c: TaskId) {
    Is(s, c) && s.tasks[c].Closing? && s.tasks[c].wanted != [] && s.tasks[c].wanted[0] !in s.locks
  }

  function DoLockStripe(s: State, c: TaskId): State
    requires CanLockStripe(s, c)
  {
    var x := s.tasks[c];
    SetTask(s, c, x.(wanted := x.wanted[1..], held := x.held + {x.wanted[0]}))
      .(locks := s.locks[x.wanted[0] := c])
  }

  /** Every stripe of the group is held. */
  predicate IsStriped(s: State, c: TaskId) {
    Is(s, c) && s.tasks[c].Closing? && s.tasks[c].wanted == []
  }

  /** A block file reaches its final path. `known` is false when the write was
      reported as failed although the rename had happened. */
  predicate CanPlace(s: State, c: TaskId, id: BlockId, depth: nat) {
    && IsStriped(s, c) && id in s.tasks[c].ids && id !in s.tasks[c].placed && id in s.tasks[c].tries
    && 1 <= depth <= |id|
  }

  function DoPlace(s: State, c: TaskId, id: BlockId, depth: nat, known: bool): State
    requires CanPlace(s, c, id, depth)
  {
    var x := s.tasks[c].(tries := s.tasks[c].tries - multiset{id});
    SetTask(s, c, if known then x.(placed := x.placed[id := depth]) else x)
      .(files := s.files + {(id, depth)})
  }

  /** The member at the head of the group may commit: each of its blocks has a
      record or a file placed for it. */
  predicate CanCommit(s: State, c: TaskId) {
    IsStriped(s, c) && s.tasks[c].members != [] &&
    var m := s.tasks[c].members[0];
    m != c && Is(s, m) && s.tasks[m].Parked? && Recordable(s.blocks, s.tasks[m].batch, s.tasks[c].placed)
  }

  function DoCommit(s: State, c: TaskId): State
    requires CanCommit(s, c)
  {
    var x := s.tasks[c];
    var m := x.members[0];
    var p := s.tasks[m];
    SetTask(SetTask(s, m, if p.waiting then Writing(p.goal, p.got + p.batch) else Done(Failed)),
            c, x.(members := x.members[1..]))
      .(blocks := RecordAll(s.blocks, p.batch, x.placed),
        leaked := if p.waiting then s.leaked else s.leaked + (p.got + p.batch))
  }

  /** A member that is refused, whose transaction fails, or whose request gives up
      while the stripes are still being taken. */
  predicate CanFailMember(s: State, c: TaskId) {
    Is(s, c) && s.tasks[c].Closing? && s.tasks[c].members != [] &&
    var m := s.tasks[c].members[0];
    m != c && Is(s, m) && s.tasks[m].Parked?
  }

  function DoFailMember(s: State, c: TaskId): State
    requires CanFailMember(s, c)
  {
    var x := s.tasks[c];
    var m := x.members[0];
    SetTask(SetTask(s, m, Done(Failed)), c, x.(members := x.members[1..]))
      .(leaked := s.leaked + s.tasks[m].got)
  }

  /** A member one of whose blocks has neither a record nor a file, with no attempt
      left to place one. */
  predicate CanRefuse(s: State, c: TaskId) {
    CanFailMember(s, c) && IsStriped(s, c) &&
    var x := s.tasks[c];
    exists b :: b in s.tasks[x.members[0]].batch && b !in s.blocks && b !in x.placed && b !in x.tries
  }

  /** Every member is answered: the stripes go, taken in full or not. */
  predicate CanEndGroup(s: State, c: TaskId) {
    Is(s, c) && s.tasks[c].Closing? && s.tasks[c].members == []
  }

  function DoEndGroup(s: State, c: TaskId): State
    requires CanEndGroup(s, c)
  {
    SetTask(s, c, Done(Finished)).(locks := map k | k in s.locks && s.locks[k] != c :: s.locks[k])
  }

  /** DELETE takes the record out first and owes its references. */
  function DoBeginDelete(s: State, t: TaskId, k: ObjectKey): (r: State)
    ensures t in r.tasks && r.tasks == s.tasks[t := r.tasks[t]]
  {
    if k in s.objects then
      SetTask(s, t, Releasing(s.objects[k], Idle, [], Finished)).(objects := s.objects - {k})
    else
      SetTask(s, t, Done(Finished))
  }

  /** The block whose stripe a task asks for next. */
  predicate WantsBlock(x: Task) {
    match x
    case Releasing(todo, pc, _, _) => pc.Idle? && todo != []
    case Acquiring(_, blocks, taken, locked) => !locked && taken < |blocks|
    case _ => false
  }

  function WantedBlock(x: Task): BlockId
    requires WantsBlock(x)
  {
    if x.Releasing? then x.todo[0] else x.blocks[x.taken]
  }

  predicate CanLockBlock(s: State, t: TaskId)
    requires s.n > 0
  {
    Is(s, t) && WantsBlock(s.tasks[t]) && StripeOf(WantedBlock(s.tasks[t]), s.n) !in s.locks
  }

  function DoLockBlock(s: State, t: TaskId): (r: State)
    requires s.n > 0 && CanLockBlock(s, t)
    ensures t in r.tasks && r.tasks == s.tasks[t := r.tasks[t]]
  {
    var x := s.tasks[t];
    SetTask(s, t, if x.Releasing? then x.(pc := Striped) else x.(locked := true))
      .(locks := s.locks[StripeOf(WantedBlock(x), s.n) := t])
  }

  predicate CanDecrement(s: State, t: TaskId) {
    Is(s, t) && s.tasks[t].Releasing? && s.tasks[t].pc.Striped? && s.tasks[t].todo != []
  }

  /** `decrement_one_block` up to its commit. The stripe goes with it unless
      the last reference went, in which case the unlink is still to come. */
  function DoDecrement(s: State, t: TaskId): (r: State)
    requires s.n > 0 && CanDecrement(s, t)
    ensures t in r.tasks && r.tasks == s.tasks[t := r.tasks[t]]
  {
    var x := s.tasks[t];
    var id, found := x.todo[0], DecrementOf(s.blocks, x.todo[0]);
    SetTask(s, t, x.(todo := x.todo[1..], pc := if found.Removed? then Unlinking(id, found.record.depth) else Idle))
      .(blocks := AfterDecrement(s.blocks, id),
        locks := if found.Removed? then s.locks else s.locks - {StripeOf(id, s.n)})
  }

  /** A decrement that failed: the loop goes on, the reference stays counted. */
  function DoFailDecrement(s: State, t: TaskId): (r: State)
    requires s.n > 0 && CanDecrement(s, t)
    ensures t in r.tasks && r.tasks == s.tasks[t := r.tasks[t]]
  {
    var x := s.tasks[t];
    SetTask(s, t, x.(todo := x.todo[1..], pc := Idle))
      .(locks := s.locks - {StripeOf(x.todo[0], s.n)}, leaked := s.leaked + [x.todo[0]])
  }

  predicate CanUnlink(s: State, t: TaskId) {
    Is(s, t) && s.tasks[t].Releasing? && s.tasks[t].pc.Unlinking?
  }

  function DoUnlink(s: State, t: TaskId, ok: bool): (r: State)
    requires s.n > 0 && CanUnlink(s, t)
    ensures t in r.tasks && r.tasks == s.tasks[t := r.tasks[t]]
  {
    var x := s.tasks[t];
    SetTask(s, t, x.(pc := Idle))
      .(files := if ok then s.files - {(x.pc.id, x.pc.depth)} else s.files,
        locks := s.locks - {StripeOf(x.pc.id, s.n)})
  }

  predicate BetweenParts(s: State, t: TaskId) {
    Is(s, t) && s.tasks[t].Releasing? && s.tasks[t].pc.Idle? && s.tasks[t].todo == []
  }

  /** `reap_part`: whoever takes the record out, atomically, owes its blocks'
      references; a caller that finds it gone owes nothing. */
  function DoNextPart(s: State, t: TaskId): (r: State)
    requires BetweenParts(s, t) && s.tasks[t].rest != []
    ensures t in r.tasks && r.tasks == s.tasks[t := r.tasks[t]]
  {
    var x := s.tasks[t];
    var pk := x.rest[0];
    if pk in s.parts then
      SetTask(s, t, x.(todo := s.parts[pk], rest := x.rest[1..]))
        .(parts := s.parts - {pk},
          serials := s.serials - {pk},
          fates := if pk in s.serials then s.fates + [(s.serials[pk], Reaped(t))] else s.fates)
    else
      SetTask(s, t, x.(rest := x.rest[1..]))
  }

  predicate CanBump(s: State, t: TaskId) {
    Is(s, t) && s.tasks[t].Acquiring? && s.tasks[t].locked && s.tasks[t].taken < |s.tasks[t].blocks|
  }

  /** One clone reference under its stripe: taken, or refused because the block
      is gone, and then everything taken so far is released. */
  function DoBump(s: State, t: TaskId): (r: State)
    requires s.n > 0 && CanBump(s, t)
    ensures t in r.tasks && r.tasks == s.tasks[t := r.tasks[t]]
  {
    var x := s.tasks[t];
    var id := x.blocks[x.taken];
    var unlocked := s.(locks := s.locks - {StripeOf(id, s.n)});
    match Bump(s.blocks, id)
    case Some(bumped) =>
      SetTask(unlocked, t, x.(taken := x.taken + 1, locked := false)).(blocks := bumped)
    case None =>
      SetTask(unlocked, t, Releasing(x.blocks[..x.taken], Idle, [], NotCloned))
  }

  /** A store error while bumping returns at once: nothing taken is released. */
  function DoFailBump(s: State, t: TaskId): (r: State)
    requires s.n > 0 && CanBump(s, t)
    ensures t in r.tasks && r.tasks == s.tasks[t := r.tasks[t]]
  {
    var x := s.tasks[t];
    SetTask(s, t, Done(Failed))
      .(locks := s.locks - {StripeOf(x.blocks[x.taken], s.n)},
        leaked := s.leaked + x.blocks[..x.taken])
  }

  /** A bump whose task did not report back, after or before its commit:
      everything taken before it is released. */
  function DoLoseBump(s: State, t: TaskId, committed: bool): (r: State)
    requires s.n > 0 && CanBump(s, t)
    ensures t in r.tasks && r.tasks == s.tasks[t := r.tasks[t]]
  {
    var x := s.tasks[t];
    var id := x.blocks[x.taken];
    var y := SetTask(s, t, Releasing(x.blocks[..x.taken], Idle, [], Failed))
      .(locks := s.locks - {StripeOf(id, s.n)});
    if committed && id in s.blocks then
      y.(blocks := Bump(s.blocks, id).value, leaked := s.leaked + [id])
    else y
  }

  /** Complete's claim: upload record and named parts in one transaction, or
      nothing at all. */
  function DoBeginComplete(s: State, t: TaskId, u: Upload, numbers: seq<int>): (r: State)
    ensures t in r.tasks && r.tasks == s.tasks[t := r.tasks[t]]
  {
    if u !in s.uploads then SetTask(s, t, Done(Failed))
    else
      match TakeParts(s.parts, u, numbers)
      case None => SetTask(s, t, Done(Failed))
      case Some((left, got)) =>
        SetTask(s, t, Publishing(ObjectGoal(ObjectKey(u.bucket, u.key)), got))
          .(parts := left,
            uploads := s.uploads - {u},
            wins := s.wins + [(u, t)],
            serials := DropNumbers(s.serials, u, numbers),
            fates := s.fates + InheritAll(s.serials, u, numbers, t))
  }

  /** Abort's claim, and the part keys its scan then found. */
  function DoBeginAbort(s: State, t: TaskId, u: Upload, keys: seq<PartKey>): (r: State)
    ensures t in r.tasks && r.tasks == s.tasks[t := r.tasks[t]]
  {
    if u !in s.uploads then SetTask(s, t, Done(Failed))
    else
      SetTask(s, t, Releasing([], Idle, keys, Finished))
        .(uploads := s.uploads - {u}, wins := s.wins + [(u, t)])
  }

  /** FLUSH, or the tail of a bucket teardown: the tree goes with whatever
      records are still in it. */
  ghost function DoDropBucket(s: State, bucket: string): State {
    var gone := set k | k in s.objects && k.bucket == bucket;
    s.(objects := s.objects - gone,
       rows := s.rows - {bucket},
       leaked := s.leaked + Flat(Only(s.objects, gone), Listed))
  }

  /** Every volatile thing is lost; what the databases and the disk hold stays. */
  ghost function DoCrash(s: State): State {
    s.(tasks := map[], locks := map[], leaked := s.leaked + Flat(s.tasks, Owed))
  }

  // ------------------------------------------------------ the step relation

  predicate Fresh(s: State, t: TaskId) { t !in s.tasks }

  predicate CanRequest(s: State, t: TaskId, a: RequestStep) {
    match a
    case BeginPut(goal) => Fresh(s, t) && (goal.PartGoal? ==> goal.part.upload in s.uploads)
    case SealBatch(batch) => Is(s, t) && s.tasks[t].Writing? && batch != []
    case EndStream => Is(s, t) && s.tasks[t].Writing?
    case Publish => Is(s, t) && s.tasks[t].Publishing?
    case Abandon => CanAbandon(s, t)
    case BeginDelete(_) => Fresh(s, t)
    case BeginClone(_, _) => Fresh(s, t)
    case EndAcquire =>
      Is(s, t) && s.tasks[t].Acquiring? && !s.tasks[t].locked && s.tasks[t].taken == |s.tasks[t].blocks|
  }

  function DoRequest(s: State, t: TaskId, a: RequestStep): (r: State)
    requires CanRequest(s, t, a)
    ensures r.n == s.n
    ensures t in r.tasks && r.tasks == s.tasks[t := r.tasks[t]]
  {
    match a
    case BeginPut(goal) => SetTask(s, t, Writing(goal, []))
    case SealBatch(batch) => SetTask(s, t, Parked(s.tasks[t].goal, s.tasks[t].got, batch, None, true))
    case EndStream => SetTask(s, t, Publishing(s.tasks[t].goal, s.tasks[t].got))
    case Publish => DoPublish(s, t)
    case Abandon => DoAbandon(s, t)
    case BeginDelete(k) => DoBeginDelete(s, t, k)
    case BeginClone(src, dest) =>
      SetTask(s, t, if src in s.objects then Acquiring(dest, s.objects[src], 0, false) else Done(NotCloned))
    case EndAcquire => SetTask(s, t, Publishing(ObjectGoal(s.tasks[t].copy), s.tasks[t].blocks))
  }

  predicate CanGroup(s: State, t: TaskId, a: GroupStep)
    requires s.n > 0
  {
    match a
    case BeginGroup(m) => CanBeginGroup(s, t, m)
    case JoinGroup(m) => CanJoin(s, t, m)
    case BeginLocking(wanted) => CanBeginLocking(s, t, wanted)
    case LockStripe => CanLockStripe(s, t)
    case PlaceFile(id, depth, _) => CanPlace(s, t, id, depth)
    case CommitMember => CanCommit(s, t)
    case RefuseMember => CanRefuse(s, t)
    case FailMember => CanFailMember(s, t)
    case EndGroup => CanEndGroup(s, t)
  }

  function DoGroup(s: State, t: TaskId, a: GroupStep): (r: State)
    requires s.n > 0 && CanGroup(s, t, a)
    ensures r.n == s.n
  {
    match a
    case BeginGroup(m) => DoBeginGroup(s, t, m)
    case JoinGroup(m) => DoJoin(s, t, m)
    case BeginLocking(wanted) => SetTask(s, t, StartClosing(s.tasks[t], wanted))
    case LockStripe => DoLockStripe(s, t)
    case PlaceFile(id, depth, known) => DoPlace(s, t, id, depth, known)
    case CommitMember => DoCommit(s, t)
    case RefuseMember => DoFailMember(s, t)
    case FailMember => DoFailMember(s, t)
    case EndGroup => DoEndGroup(s, t)
  }

  predicate CanOnBlock(s: State, t: TaskId, a: BlockStep)
    requires s.n > 0
  {
    match a
    case LockBlock => CanLockBlock(s, t)
    case DecrementBlock => CanDecrement(s, t)
    case FailDecrement => CanDecrement(s, t)
    case UnlinkFile(_) => CanUnlink(s, t)
    case BumpBlock => CanBump(s, t)
    case FailBump => CanBump(s, t)
    case LoseBump(_) => CanBump(s, t)
  }

  function DoOnBlock(s: State, t: TaskId, a: BlockStep): (r: State)
    requires s.n > 0 && CanOnBlock(s, t, a)
    ensures r.n == s.n
    ensures t in r.tasks && r.tasks == s.tasks[t := r.tasks[t]]
  {
    match a
    case LockBlock => DoLockBlock(s, t)
    case DecrementBlock => DoDecrement(s, t)
    case FailDecrement => DoFailDecrement(s, t)
    case UnlinkFile(ok) => DoUnlink(s, t, ok)
    case BumpBlock => DoBump(s, t)
    case FailBump => DoFailBump(s, t)
    case LoseBump(committed) => DoLoseBump(s, t, committed)
  }

  predicate CanOnUpload(s: State, t: TaskId, a: UploadStep) {
    match a
    case BeginComplete(_, _) => Fresh(s, t)
    case BeginAbort(u, keys) => Fresh(s, t) && forall k :: k in keys ==> k.upload == u
    case BeginSweep => Fresh(s, t)
    case CollectOrphan(pk) =>
      // the part was read earlier; by now a complete may have taken it along with its upload
      Is(s, t) && s.tasks[t].Sweeping? && pk.upload in s.ever && pk.upload !in s.uploads
    case EndSweep => Is(s, t) && s.tasks[t].Sweeping?
    case NextPart => BetweenParts(s, t) && s.tasks[t].rest != []
    case SkipPart => BetweenParts(s, t) && s.tasks[t].rest != []
    case EndRelease => BetweenParts(s, t) && s.tasks[t].rest == []
  }

  function DoOnUpload(s: State, t: TaskId, a: UploadStep): (r: State)
    requires CanOnUpload(s, t, a)
    ensures r.n == s.n
    ensures t in r.tasks && r.tasks == s.tasks[t := r.tasks[t]]
  {
    match a
    case BeginComplete(u, numbers) => DoBeginComplete(s, t, u, numbers)
    case BeginAbort(u, keys) => DoBeginAbort(s, t, u, keys)
    case BeginSweep => SetTask(s, t, Sweeping([]))
    case CollectOrphan(pk) => SetTask(s, t, Sweeping(s.tasks[t].orphans + [pk]))
    case EndSweep => SetTask(s, t, Releasing([], Idle, s.tasks[t].orphans, Finished))
    case NextPart => DoNextPart(s, t)
    case SkipPart => SetTask(s, t, s.tasks[t].(rest := s.tasks[t].rest[1..]))
    case EndRelease => SetTask(s, t, Done(s.tasks[t].answer))
  }

  ghost function DoOnStore(s: State, a: StoreStep): (r: State)
    ensures r.n == s.n
  {
    match a
    case CreateUpload(u) => s.(uploads := s.uploads + {u}, ever := s.ever + {u})
    case CreateBucket(b) => s.(rows := s.rows + {b})
    case RemoveRow(b) => s.(rows := s.rows - {b})
    case DropBucket(b) => DoDropBucket(s, b)
    case Crash => DoCrash(s)
  }

  ghost predicate Enabled(s: State, a: Action)
    requires s.n > 0
  {
    match a
    case Request(t, step) => CanRequest(s, t, step)
    case Group(t, step) => CanGroup(s, t, step)
    case OnBlock(t, step) => CanOnBlock(s, t, step)
    case OnUpload(t, step) => CanOnUpload(s, t, step)
    case OnStore(step) => step.CreateUpload? ==> step.upload !in s.ever   // upload ids are never minted twice
  }

  ghost function Next(s: State, a: Action): (r: State)
    requires s.n > 0 && Enabled(s, a)
    ensures r.n == s.n
  {
    match a
    case Request(t, step) => DoRequest(s, t, step)
    case Group(t, step) => DoGroup(s, t, step)
    case OnBlock(t, step) => DoOnBlock(s, t, step)
    case OnUpload(t, step) => DoOnUpload(s, t, step)
    case OnStore(step) => DoOnStore(s, step)
  }

  // --------------------------------------------------------------- runs

  function Init(n: nat): State
    requires n > 0
  {
    State(n, {}, map[], map[], {}, map[], {}, map[], map[], [], {}, [], map[], 0, [])
  }

  /** `run` is a sequence of enabled steps from `s`. */
  ghost predicate IsRun(s: State, run: seq<Action>)
    requires s.n > 0
    decreases |run|
  {
    run == [] || (Enabled(s, run[0]) && IsRun(Next(s, run[0]), run[1..]))
  }

  ghost function Exec(s: State, run: seq<Action>): (r: State)
    requires s.n > 0 && IsRun(s, run)
    ensures r.n == s.n
    decreases |run|
  {
    if run == [] then s else Exec(Next(s, run[0]), run[1..])
  }
}
