/** Pairing a blocks database with a blocks root: who may open whose files. */
module Pairing {
  import opened Ids

  type StoreId = nat
  type Db = nat
  type Root = nat

  /** What a blocks root's marker file says. */
  datatype Marker = Absent | Unreadable | Present(id: StoreId)

  /** The header id of every database and the marker of every root. */
  datatype Disk = Disk(headers: map<Db, StoreId>, markers: map<Root, Marker>)

  function HeaderOf(d: Disk, db: Db): Option<StoreId> {
    if db in d.headers then Some(d.headers[db]) else None
  }

  function MarkerOf(d: Disk, root: Root): Marker {
    if root in d.markers then d.markers[root] else Absent
  }

  datatype Write = WriteHeader(id: StoreId) | WriteMarker(id: StoreId)

  datatype Plan = Refuse | Writes(writes: seq<Write>)

  /** The six states: what an open that saw this header and this marker writes, in
      this order, with `minted` the id it would mint. */
  function PlanFor(header: Option<StoreId>, marker: Marker, minted: StoreId): Plan {
    match (header, marker)
    case (Some(h), Present(m)) => if h == m then Writes([]) else Refuse
    case (Some(h), _) => Writes([WriteMarker(h)])
    case (None, Present(m)) => Writes([WriteHeader(m)])
    case (None, _) => Writes([WriteHeader(minted), WriteMarker(minted)])
  }

  function Perform(d: Disk, db: Db, root: Root, w: Write): Disk {
    match w
    case WriteHeader(id) => d.(headers := d.headers[db := id])
    case WriteMarker(id) => d.(markers := d.markers[root := Present(id)])
  }

  function PerformAll(d: Disk, db: Db, root: Root, writes: seq<Write>): Disk
    decreases |writes|
  {
    if writes == [] then d else Perform(PerformAll(d, db, root, writes[..|writes| - 1]), db, root, writes[|writes| - 1])
  }

  /** An open of `db` over `root`, cut off after `done` of its writes by a crash or
      a failed write. */
  datatype Open = Open(db: Db, root: Root, minted: StoreId, done: nat)

  datatype Outcome = Refused | Completed | CutOff

  function PlanOf(d: Disk, o: Open): Plan { PlanFor(HeaderOf(d, o.db), MarkerOf(d, o.root), o.minted) }

  function After(d: Disk, o: Open): Disk {
    match PlanOf(d, o)
    case Refuse => d
    case Writes(ws) => PerformAll(d, o.db, o.root, if o.done < |ws| then ws[..o.done] else ws)
  }

  function OutcomeOf(d: Disk, o: Open): Outcome {
    match PlanOf(d, o)
    case Refuse => Refused
    case Writes(ws) => if o.done < |ws| then CutOff else Completed
  }

  /** Every id that could be read before can be read after, unchanged. */
  ghost predicate KeepsIds(d: Disk, d': Disk) {
    && (forall db :: db in d.headers ==> HeaderOf(d', db) == HeaderOf(d, db))
    && (forall root :: MarkerOf(d, root).Present? ==> MarkerOf(d', root) == MarkerOf(d, root))
  }

  lemma Unfold(d: Disk, db: Db, root: Root, a: Write, b: Write)
    ensures PerformAll(d, db, root, [a]) == Perform(d, db, root, a)
    ensures PerformAll(d, db, root, [a, b]) == Perform(Perform(d, db, root, a), db, root, b)
  {
    var one, two := [a], [a, b];
    assert one[..0] == [] && two[..1] == one;
  }

  lemma AfterCases(d: Disk, o: Open)
    ensures After(d, o) == match PlanOf(d, o)
                           case Refuse => d
                           case Writes(ws) =>
                             if |ws| == 0 || o.done == 0 then d
                             else if |ws| == 1 || o.done == 1 then Perform(d, o.db, o.root, ws[0])
                             else Perform(Perform(d, o.db, o.root, ws[0]), o.db, o.root, ws[1])
  {
    match PlanOf(d, o)
    case Refuse =>
    case Writes(ws) =>
      var performed := if o.done < |ws| then ws[..o.done] else ws;
      if |performed| == 1 { assert performed == [ws[0]]; Unfold(d, o.db, o.root, ws[0], ws[0]); }
      if |performed| == 2 { assert performed == [ws[0], ws[1]]; Unfold(d, o.db, o.root, ws[0], ws[1]); }
  }

  /** One open, whole or cut off anywhere: a refusal writes nothing; a completed
      open leaves both halves with one id; and no readable id is replaced. */
  lemma OpenIsSafe(d: Disk, o: Open)
    ensures OutcomeOf(d, o).Refused? <==>
            HeaderOf(d, o.db).Some? && MarkerOf(d, o.root).Present? && HeaderOf(d, o.db).value != MarkerOf(d, o.root).id
    ensures OutcomeOf(d, o).Refused? ==> After(d, o) == d
    ensures OutcomeOf(d, o).Completed? ==>
              HeaderOf(After(d, o), o.db).Some? &&
              MarkerOf(After(d, o), o.root) == Present(HeaderOf(After(d, o), o.db).value)
    ensures KeepsIds(d, After(d, o))
    ensures forall db :: db != o.db ==> HeaderOf(After(d, o), db) == HeaderOf(d, db)
    ensures forall root :: root != o.root ==> MarkerOf(After(d, o), root) == MarkerOf(d, root)
  {
    AfterCases(d, o);
  }

  ghost function RunOpens(d: Disk, run: seq<Open>): Disk
    decreases |run|
  {
    if run == [] then d else RunOpens(After(d, run[0]), run[1..])
  }

  /** Over any run of opens of any databases with any roots, each possibly cut off,
      an id once readable on either half stays what it is. */
  lemma {:induction false} IdsAreForever(d: Disk, run: seq<Open>)
    ensures KeepsIds(d, RunOpens(d, run))
    decreases |run|
  {
    if run != [] {
      OpenIsSafe(d, run[0]);
      IdsAreForever(After(d, run[0]), run[1..]);
      var mid, end := After(d, run[0]), RunOpens(d, run);
      assert forall db :: db in d.headers ==> db in mid.headers by {
        forall db | db in d.headers ensures db in mid.headers { assert HeaderOf(mid, db) == HeaderOf(d, db); }
      }
    }
  }

  /** The id an open puts on its root, if it gets that far. */
  function MarkerWritten(d: Disk, o: Open): Option<StoreId> {
    match PlanOf(d, o)
    case Refuse => None
    case Writes(ws) =>
      if ws != [] && ws[|ws| - 1].WriteMarker? && o.done >= |ws| then Some(ws[|ws| - 1].id) else None
  }

  /** The id the first open over `root` that got as far as its marker put there. */
  ghost function FirstMarker(d: Disk, run: seq<Open>, root: Root): Option<StoreId>
    decreases |run|
  {
    if run == [] then None
    else if run[0].root == root && MarkerWritten(d, run[0]).Some? then MarkerWritten(d, run[0])
    else FirstMarker(After(d, run[0]), run[1..], root)
  }

  /** A root without an id gets that one, and keeps it. */
  lemma {:induction false} FirstMarkerStays(d: Disk, run: seq<Open>, root: Root)
    requires !MarkerOf(d, root).Present?
    ensures match FirstMarker(d, run, root)
            case Some(id) => MarkerOf(RunOpens(d, run), root) == Present(id)
            case None => MarkerOf(RunOpens(d, run), root) == MarkerOf(d, root)
    decreases |run|
  {
    if run != [] {
      AfterCases(d, run[0]);
      if run[0].root == root && MarkerWritten(d, run[0]).Some? {
        IdsAreForever(After(d, run[0]), run[1..]);
      } else {
        FirstMarkerStays(After(d, run[0]), run[1..], root);
      }
    }
  }

  /** An adoption cut off between its two writes, then any opens of any databases
      over any roots, then the same pair again: the header has kept its id, and the
      pair completes with it exactly when nobody put another id on the root first.
      Otherwise it is refused. */
  lemma {:induction false} HalfAdoptionIsFinished(d: Disk, o: Open, between: seq<Open>, again: Open)
    requires OutcomeOf(d, o).CutOff? && HeaderOf(After(d, o), o.db).Some?
    requires again.db == o.db && again.root == o.root && again.done >= 2
    ensures var half := After(d, o);
            var id, mid, first := HeaderOf(half, o.db).value, RunOpens(half, between),
                FirstMarker(half, between, o.root);
            && HeaderOf(After(mid, again), o.db) == Some(id)
            && (first.None? || first == Some(id) ==>
                  OutcomeOf(mid, again).Completed? && MarkerOf(After(mid, again), o.root) == Present(id))
            && (first.Some? && first != Some(id) ==>
                  OutcomeOf(mid, again).Refused? && MarkerOf(After(mid, again), o.root) == Present(first.value))
  {
    var half := After(d, o);
    AfterCases(d, o);
    IdsAreForever(half, between);
    FirstMarkerStays(half, between, o.root);
    AfterCases(RunOpens(half, between), again);
  }

  /** It can be overtaken: a new database opened over the root before the cut-off
      one comes back puts its own id there, and the first is refused from then on,
      whatever else is opened. */
  lemma AdoptionCanBeOvertaken(a: StoreId, b: StoreId, later: seq<Open>, again: Open)
    requires a != b && again.db == 1 && again.root == 0
    ensures var half := After(Disk(map[], map[]), Open(1, 0, a, 1));
            var taken := After(half, Open(2, 0, b, 2));
            && OutcomeOf(Disk(map[], map[]), Open(1, 0, a, 1)).CutOff? && OutcomeOf(half, Open(2, 0, b, 2)).Completed?
            && OutcomeOf(RunOpens(taken, later), again).Refused?
  {
    var none := Disk(map[], map[]);
    AfterCases(none, Open(1, 0, a, 1));
    var half := After(none, Open(1, 0, a, 1));
    assert HeaderOf(half, 1) == Some(a) && MarkerOf(half, 0) == Absent;
    AfterCases(half, Open(2, 0, b, 2));
    var taken := After(half, Open(2, 0, b, 2));
    assert HeaderOf(taken, 1) == Some(a) && MarkerOf(taken, 0) == Present(b);
    IdsAreForever(taken, later);
    OpenIsSafe(RunOpens(taken, later), again);
  }

  /** `pair_the_roots` on one pair of halves, with writes that may fail. */
  class Pair {
    var header: Option<StoreId>
    var marker: Marker
    ghost var faults: nat

    constructor (header: Option<StoreId>, marker: Marker)
      ensures this.header == header && this.marker == marker && faults == 0
    {
      this.header, this.marker, faults := header, marker, 0;
    }

    method Attempt() returns (ok: bool)
      modifies this`faults
      ensures faults == old(faults) + if ok then 0 else 1
    {
      ok := *;
      if !ok { faults := faults + 1; }
    }

    /** The pair as database 0 over root 0. */
    ghost function OnDisk(): Disk
      reads this
    {
      Disk(if header.Some? then map[0 := header.value] else map[], map[0 := marker])
    }

    /** The header is written before the marker, so that what a failure in between
        leaves can only be completed one way. The whole of it is the open that `After` describes,
        cut off after `done` writes when a write fails. */
    method PairTheRoots(minted: StoreId) returns (o: Outcome, ghost done: nat)
      modifies this
      ensures o == OutcomeOf(old(OnDisk()), Open(0, 0, minted, done))
      ensures OnDisk() == After(old(OnDisk()), Open(0, 0, minted, done))
      ensures o.Refused? <==> old(header).Some? && old(marker).Present? && old(header).value != old(marker).id
      ensures o.Refused? ==> header == old(header) && marker == old(marker)
      ensures o.Completed? ==> header.Some? && marker == Present(header.value)
      ensures old(header).Some? ==> header == old(header)
      ensures old(marker).Present? ==> marker == old(marker)
      ensures header != old(header) ==> header == Some(if old(marker).Present? then old(marker).id else minted)
      ensures marker != old(marker) ==> header.Some? && marker == Present(header.value)
      ensures faults == old(faults) + if o.CutOff? then 1 else 0
    {
      ghost var disk := OnDisk();
      AfterCases(disk, Open(0, 0, minted, 0));
      AfterCases(disk, Open(0, 0, minted, 1));
      AfterCases(disk, Open(0, 0, minted, 2));
      match (header, marker) {
        case (Some(h), Present(m)) =>
          o, done := if h == m then Completed else Refused, 0;
        case (Some(h), _) =>
          var ok := Attempt();
          if !ok { return CutOff, 0; }
          marker := Present(h);
          o, done := Completed, 1;
        case (None, Present(m)) =>
          var ok := Attempt();
          if !ok { return CutOff, 0; }
          header := Some(m);
          o, done := Completed, 1;
        case (None, _) =>
          var ok := Attempt();
          if !ok { return CutOff, 0; }
          header := Some(minted);
          ok := Attempt();
          if !ok { return CutOff, 1; }
          marker := Present(minted);
          o, done := Completed, 2;
      }
    }
  }

  // --------------------------------------------------- opens that overlap

  /** An open between its first read and its end: the marker it saw, whether it has
      its database's lock, the writes it then still has to make, and the id another
      open put on its root since it read the marker. */
  datatype Opening =
    Opening(db: Db, root: Root, seen: Marker, locked: bool, todo: seq<Write>, since: Option<StoreId>)

  /** Opens may overlap. The marker is read first, under no lock at all; then the
      database is opened, which takes its lock, and the header is read; the lock is
      held up to the last write. */
  datatype World = World(disk: Disk, opens: map<nat, Opening>)

  datatype OpenStep =
    | ReadMarker(t: nat, db: Db, root: Root)
    | LockAndReadHeader(t: nat, minted: StoreId)
    | WriteNext(t: nat)
    | Leave(t: nat)          // done, refused, failed or killed

  predicate CanStep(w: World, a: OpenStep) {
    match a
    case ReadMarker(t, _, _) => t !in w.opens
    case LockAndReadHeader(t, _) =>
      t in w.opens && !w.opens[t].locked && forall u :: u in w.opens && w.opens[u].locked ==>
          w.opens[u].db != w.opens[t].db
    case WriteNext(t) => t in w.opens && w.opens[t].locked && w.opens[t].todo != []
    case Leave(t) => t in w.opens
  }

  /** Every other open over the root has been overtaken. */
  function Overtake(opens: map<nat, Opening>, t: nat, root: Root, id: StoreId): map<nat, Opening> {
    map u | u in opens :: if u != t && opens[u].root == root then opens[u].(since := Some(id)) else opens[u]
  }

  function Step(w: World, a: OpenStep): World
    requires CanStep(w, a)
  {
    match a
    case ReadMarker(t, db, root) =>
      w.(opens := w.opens[t := Opening(db, root, MarkerOf(w.disk, root), false, [], None)])
    case LockAndReadHeader(t, minted) =>
      var o := w.opens[t];
      var plan := PlanFor(HeaderOf(w.disk, o.db), o.seen, minted);
      w.(opens := w.opens[t := o.(locked := true, todo := if plan.Refuse? then [] else plan.writes)])
    case WriteNext(t) =>
      var o := w.opens[t];
      var moved := w.opens[t := o.(todo := o.todo[1..])];
      World(Perform(w.disk, o.db, o.root, o.todo[0]),
            if o.todo[0].WriteMarker? then Overtake(moved, t, o.root, o.todo[0].id) else moved)
    case Leave(t) => w.(opens := w.opens - {t})
  }

  /** The step writes a marker over one that another open, with another id, wrote
      since this one read the root. */
  predicate Clashes(w: World, a: OpenStep)
    requires CanStep(w, a)
  {
    a.WriteNext? && w.opens[a.t].todo[0].WriteMarker? &&
    w.opens[a.t].since.Some? && w.opens[a.t].since.value != w.opens[a.t].todo[0].id
  }

  /** What is still to be written is what was missing at the reads, and of the root
      the world knows whether that still holds. */
  ghost predicate OpeningOk(d: Disk, o: Opening) {
    && |o.todo| <= 2 && (o.todo != [] ==> o.locked)
    && (o.todo != [] && o.todo[0].WriteHeader? ==> HeaderOf(d, o.db).None?)
    && (|o.todo| == 2 ==> o.todo[0].WriteHeader? && o.todo[1].WriteMarker?)
    && ((if o.locked then o.todo != [] && o.todo[|o.todo| - 1].WriteMarker? else !o.seen.Present?) ==>
          match o.since
          case None => !MarkerOf(d, o.root).Present?
          case Some(id) => MarkerOf(d, o.root) == Present(id))
  }

  ghost predicate WorldOk(w: World) {
    && (forall t, u :: t in w.opens && u in w.opens && t != u && w.opens[t].locked && w.opens[u].locked ==>
          w.opens[t].db != w.opens[u].db)
    && (forall t :: t in w.opens ==> OpeningOk(w.disk, w.opens[t]))
  }

  /** A write of a header spares every other open, and so does one of a marker: both
      follow what the world knows. */
  lemma WriteKeepsWorld(w: World, t: nat)
    requires WorldOk(w) && CanStep(w, WriteNext(t))
    ensures WorldOk(Step(w, WriteNext(t)))
  {
    var w', o := Step(w, WriteNext(t)), w.opens[t];
    forall u | u in w'.opens ensures OpeningOk(w'.disk, w'.opens[u]) {
      assert OpeningOk(w.disk, w.opens[u]) && OpeningOk(w.disk, o);
      if u != t && w.opens[u].locked { assert w.opens[u].db != o.db; }
    }
  }

  lemma StepKeepsWorld(w: World, a: OpenStep)
    requires WorldOk(w) && CanStep(w, a)
    ensures WorldOk(Step(w, a))
  {
    if a.WriteNext? { WriteKeepsWorld(w, a.t); }
  }

  /** A step replaces a readable id exactly when it clashes. */
  lemma StepKeepsIds(w: World, a: OpenStep)
    requires WorldOk(w) && CanStep(w, a)
    ensures KeepsIds(w.disk, Step(w, a).disk) <==> !Clashes(w, a)
  {
    if a.WriteNext? {
      var o := w.opens[a.t];
      assert OpeningOk(w.disk, o);
      if Clashes(w, a) { assert MarkerOf(w.disk, o.root).Present?; }
    }
  }

  ghost predicate IsSchedule(w: World, run: seq<OpenStep>)
    decreases |run|
  {
    run == [] || (CanStep(w, run[0]) && IsSchedule(Step(w, run[0]), run[1..]))
  }

  ghost function Scheduled(w: World, run: seq<OpenStep>): World
    requires IsSchedule(w, run)
    decreases |run|
  {
    if run == [] then w else Scheduled(Step(w, run[0]), run[1..])
  }

  ghost predicate NoClash(w: World, run: seq<OpenStep>)
    requires IsSchedule(w, run)
    decreases |run|
  {
    run == [] || (!Clashes(w, run[0]) && NoClash(Step(w, run[0]), run[1..]))
  }

  /** No step of the schedule replaces a readable id. */
  ghost predicate AlwaysKeeps(w: World, run: seq<OpenStep>)
    requires IsSchedule(w, run)
    decreases |run|
  {
    run == [] || (KeepsIds(w.disk, Step(w, run[0]).disk) && AlwaysKeeps(Step(w, run[0]), run[1..]))
  }

  lemma KeepsIdsTwice(a: Disk, b: Disk, c: Disk)
    requires KeepsIds(a, b) && KeepsIds(b, c)
    ensures KeepsIds(a, c)
  {
    forall db | db in a.headers
      ensures HeaderOf(c, db) == HeaderOf(a, db)
    {
      assert HeaderOf(b, db) == HeaderOf(a, db);
    }
  }

  /** Over any schedule of overlapping opens, each possibly failing or killed between
      any two writes: no readable id is ever replaced exactly when no open writes a
      root's marker after another open, with another id, did so since its read. */
  lemma {:induction false} OverlapsKeepIds(w: World, run: seq<OpenStep>)
    requires WorldOk(w) && IsSchedule(w, run)
    ensures AlwaysKeeps(w, run) <==> NoClash(w, run)
    ensures NoClash(w, run) ==> KeepsIds(w.disk, Scheduled(w, run).disk)
    decreases |run|
  {
    if run != [] {
      var w' := Step(w, run[0]);
      StepKeepsWorld(w, run[0]);
      StepKeepsIds(w, run[0]);
      OverlapsKeepIds(w', run[1..]);
      if NoClash(w, run) { KeepsIdsTwice(w.disk, w'.disk, Scheduled(w', run[1..]).disk); }
    }
  }

  /** Two opens that have read one root without an id, and carry different ids: when
      both get as far as their markers, the second replaces the first's, whatever
      databases they are of. */
  lemma SecondMarkerReplacesTheFirst(w: World, t: nat, u: nat)
    requires WorldOk(w) && t in w.opens && u in w.opens && t != u && w.opens[t].root == w.opens[u].root
    requires w.opens[t].locked && w.opens[u].locked
    requires |w.opens[t].todo| == 1 && w.opens[t].todo[0].WriteMarker?
    requires |w.opens[u].todo| == 1 && w.opens[u].todo[0].WriteMarker? && w.opens[t].todo[0].id != w.opens[u].todo[0].id
    ensures var one := Step(w, WriteNext(t));
            && CanStep(one, WriteNext(u)) && Clashes(one, WriteNext(u))
            && MarkerOf(one.disk, w.opens[t].root) == Present(w.opens[t].todo[0].id)
            && MarkerOf(Step(one, WriteNext(u)).disk, w.opens[t].root) == Present(w.opens[u].todo[0].id)
  {
  }

  lemma StepFirst(w: World, a: OpenStep, rest: seq<OpenStep>)
    requires CanStep(w, a) && IsSchedule(Step(w, a), rest)
    ensures IsSchedule(w, [a] + rest) && Scheduled(w, [a] + rest) == Scheduled(Step(w, a), rest)
    ensures NoClash(w, [a] + rest) <==> !Clashes(w, a) && NoClash(Step(w, a), rest)
  {
    assert ([a] + rest)[1..] == rest;
  }

  /** Two new databases that have read one new root and written their headers. */
  function TwoNew(a: StoreId, b: StoreId): World {
    World(Disk(map[1 := a, 2 := b], map[]),
          map[0 := Opening(1, 0, Absent, true, [WriteMarker(a)], None),
              1 := Opening(2, 0, Absent, true, [WriteMarker(b)], None)])
  }

  lemma TwoNewAreReached(a: StoreId, b: StoreId, rest: seq<OpenStep>) returns (run: seq<OpenStep>)
    requires IsSchedule(TwoNew(a, b), rest)
    ensures var empty := World(Disk(map[], map[]), map[]);
            && IsSchedule(empty, run) && Scheduled(empty, run) == Scheduled(TwoNew(a, b), rest)
            && (NoClash(empty, run) ==> NoClash(TwoNew(a, b), rest))
  {
    var empty := World(Disk(map[], map[]), map[]);
    var r1, r2 := Step(empty, ReadMarker(0, 1, 0)), Step(Step(empty, ReadMarker(0, 1, 0)), ReadMarker(1, 2, 0));
    var w1 := Step(r2, LockAndReadHeader(0, a));
    var w2 := Step(w1, LockAndReadHeader(1, b));
    var w3 := Step(w2, WriteNext(0));
    assert [WriteHeader(a), WriteMarker(a)][1..] == [WriteMarker(a)] &&
        [WriteHeader(b), WriteMarker(b)][1..] == [WriteMarker(b)];
    assert Step(w3, WriteNext(1)) == TwoNew(a, b);
    StepFirst(w3, WriteNext(1), rest);
    run := [WriteNext(1)] + rest;
    StepFirst(w2, WriteNext(0), run);
    run := [WriteNext(0)] + run;
    StepFirst(w1, LockAndReadHeader(1, b), run);
    run := [LockAndReadHeader(1, b)] + run;
    StepFirst(r2, LockAndReadHeader(0, a), run);
    run := [LockAndReadHeader(0, a)] + run;
    StepFirst(r1, ReadMarker(1, 2, 0), run);
    run := [ReadMarker(1, 2, 0)] + run;
    StepFirst(empty, ReadMarker(0, 1, 0), run);
    run := [ReadMarker(0, 1, 0)] + run;
  }

  /** It does happen: two new databases opened over one new root at the same time
      each mint an id, and the second marker replaces the first. */
  lemma OverlapCanReplaceAnId(a: StoreId, b: StoreId) returns (run: seq<OpenStep>)
    requires a != b
    ensures var empty := World(Disk(map[], map[]), map[]);
            && IsSchedule(empty, run) && !NoClash(empty, run)
            && MarkerOf(Scheduled(empty, run).disk, 0) == Present(b) &&
                 HeaderOf(Scheduled(empty, run).disk, 1) == Some(a)
  {
    var w, one := TwoNew(a, b), Step(TwoNew(a, b), WriteNext(0));
    SecondMarkerReplacesTheFirst(w, 0, 1);
    StepFirst(one, WriteNext(1), []);
    StepFirst(w, WriteNext(0), [WriteNext(1)] + []);
    run := TwoNewAreReached(a, b, [WriteNext(0)] + ([WriteNext(1)] + []));
  }
}
