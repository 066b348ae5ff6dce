/** `close_group`: one transaction for the whole group, and the replay that
    isolates a failing member. */
module CloseGroup {
  import opened Ids
  import opened Accounting
  import opened Records
  import opened GroupCommit
  import opened GroupFiles
  import opened Sequences

  /** Every Ok answer reports what committing that member in its turn did: its
      blocks were recordable, and it counts each of its entries once, as written
      when the block had no record yet and as ignored otherwise. */
  ghost predicate Exact(blocks: Blocks, members: seq<seq<Entry>>, answers: seq<Outcome>, placed: map<BlockId, nat>)
    requires |members| == |answers|
  {
    forall i :: 0 <= i < |members| && answers[i].Ok? ==>
      var before := InOrder(blocks, members[..i], answers[..i], placed);
      && Recordable(before, Listing(members[i]), placed)
      && answers[i].written == FreshIn(before.Keys, members[i])
      && answers[i].written + answers[i].ignored == |members[i]|
  }

  lemma InOrderStep(blocks: Blocks, members: seq<seq<Entry>>, answers: seq<Outcome>, placed: map<BlockId, nat>,
                    entries: seq<Entry>, answer: Outcome)
    requires |members| == |answers|
    ensures InOrder(blocks, members + [entries], answers + [answer], placed)
         == CommitOne(InOrder(blocks, members, answers, placed), entries, answer, placed)
  {
    var n := |members|;
    assert (members + [entries])[..n] == members && (answers + [answer])[..n] == answers;
  }

  lemma ExactStep(blocks: Blocks, members: seq<seq<Entry>>, answers: seq<Outcome>, placed: map<BlockId, nat>,
                  entries: seq<Entry>, answer: Outcome)
    requires |members| == |answers| && Exact(blocks, members, answers, placed)
    requires var before := InOrder(blocks, members, answers, placed);
             answer.Ok? ==>
               Recordable(before, Listing(entries), placed) && answer.written == FreshIn(before.Keys, entries) &&
               answer.written + answer.ignored == |entries|
    ensures Exact(blocks, members + [entries], answers + [answer], placed)
  {
    var ms, as_ := members + [entries], answers + [answer];
    forall i | 0 <= i < |ms| && as_[i].Ok?
      ensures var before := InOrder(blocks, ms[..i], as_[..i], placed);
              && Recordable(before, Listing(ms[i]), placed)
              && as_[i].written == FreshIn(before.Keys, ms[i])
              && as_[i].written + as_[i].ignored == |ms[i]|
    {
      if i < |members| {
        assert ms[..i] == members[..i] && as_[..i] == answers[..i];
      } else {
        assert ms[..i] == members && as_[..i] == answers;
      }
    }
  }

  /** One more member, in its turn. */
  lemma NextAnswer(blocks: Blocks, members: seq<seq<Entry>>, answers: seq<Outcome>, placed: map<BlockId, nat>,
                   answer: Outcome)
    requires |answers| < |members| && Exact(blocks, members[..|answers|], answers, placed)
    requires var before, entries := InOrder(blocks, members[..|answers|], answers, placed), members[|answers|];
             answer.Ok? ==>
               Recordable(before, Listing(entries), placed) && answer.written == FreshIn(before.Keys, entries) &&
               answer.written + answer.ignored == |entries|
    ensures var i := |answers|;
            && InOrder(blocks, members[..i + 1], answers + [answer], placed)
               == CommitOne(InOrder(blocks, members[..i], answers, placed), members[i], answer, placed)
            && Exact(blocks, members[..i + 1], answers + [answer], placed)
  {
    var i := |answers|;
    InOrderStep(blocks, members[..i], answers, placed, members[i], answer);
    ExactStep(blocks, members[..i], answers, placed, members[i], answer);
    assert members[..i + 1] == members[..i] + [members[i]];
  }

  /** Committing in order only adds records, and leaves every record its file. */
  lemma {:induction false} InOrderKeeps(blocks: Blocks, members: seq<seq<Entry>>, answers: seq<Outcome>,
                                        placed: map<BlockId, nat>, files: Files)
    requires |members| == |answers| && Filed(blocks, files)
    requires forall id :: id in placed ==> (id, placed[id]) in files
    ensures Grown(blocks, InOrder(blocks, members, answers, placed))
    ensures Filed(InOrder(blocks, members, answers, placed), files)
    decreases |members|
  {
    if members != [] {
      var n := |members| - 1;
      InOrderKeeps(blocks, members[..n], answers[..n], placed, files);
      var before := InOrder(blocks, members[..n], answers[..n], placed);
      if answers[n].Ok? && Recordable(before, Listing(members[n]), placed) {
        RecordAllFiled(before, Listing(members[n]), placed, files);
        RecordAllGrows(before, Listing(members[n]), placed);
      }
    }
  }

  /** Members that are not refused can be recorded over `blocks`. */
  ghost predicate AllReady(blocks: Blocks, members: seq<seq<Entry>>, refused: seq<bool>, placed: map<BlockId, nat>) {
    |refused| == |members| && forall i :: 0 <= i < |members| && !refused[i] ==> Ready(blocks, members[i], placed)
  }

  /** The members that were not refused, recorded one after another in one copy. */
  method GroupTransaction(store: BlockStore, members: seq<seq<Entry>>, refused: seq<bool>,
                          ghost placed: map<BlockId, nat>)
      returns (ok: bool, answers: seq<Outcome>, tx: Blocks)
    requires AllReady(store.records, members, refused, placed)
    modifies store`faults
    ensures store.faults >= old(store.faults) && (ok <==> store.faults == old(store.faults))
    ensures ok ==> |answers| == |members| && forall i :: 0 <= i < |members| ==> (answers[i].Ok? <==> !refused[i])
    ensures ok ==>
              tx == InOrder(store.records, members, answers, placed) && Exact(store.records, members, answers, placed)
  {
    ok, answers, tx := true, [], store.records;
    for i := 0 to |members|
      invariant ok && store.faults == old(store.faults)
      invariant |answers| == i && forall m :: 0 <= m < i ==> (answers[m].Ok? <==> !refused[m])
      invariant tx == InOrder(store.records, members[..i], answers, placed) && store.records.Keys <= tx.Keys
      invariant Exact(store.records, members[..i], answers, placed)
    {
      var answer := Err;
      ghost var before := tx;
      if !refused[i] {
        assert Ready(tx, members[i], placed);
        var written, ignored;
        ok, written, ignored, tx := RecordMember(store, tx, members[i], placed);
        if !ok { return; }
        answer := Ok(written, ignored);
      }
      NextAnswer(store.records, members, answers, placed, answer);
      answers := answers + [answer];
    }
    assert members[..|members|] == members;
  }

  /** Every durable state since `mark` leaves each record its file, keeps the records
      of `from`, and has at most `k` files more than `base`: what a kill there would
      leave. */
  ghost predicate CrashSafe(trail: seq<(Blocks, Files)>, mark: nat, from: Blocks, base: Files, k: nat) {
    forall i :: mark <= i < |trail| ==>
      Filed(trail[i].0, trail[i].1) && Grown(from, trail[i].0) && base <= trail[i].1 && |trail[i].1 - base| <= k
  }

  lemma OneMoreState(trail: seq<(Blocks, Files)>, mark: nat, from: Blocks, base: Files, k: nat, records: Blocks,
                     files: Files)
    requires CrashSafe(trail, mark, from, base, k)
    requires Filed(records, files) && Grown(from, records) && base <= files && |files - base| <= k
    ensures CrashSafe(trail + [(records, files)], mark, from, base, k)
  {
  }

  /** Files that no record names. */
  function Recordless(records: Blocks, files: Files): Files {
    set f | f in files && !(f.0 in records && records[f.0].depth == f.1)
  }

  /** A kill at any durable state of a close adds at most `k` files that no record
      names. */
  lemma KillLeavesFewStrays(trail: seq<(Blocks, Files)>, mark: nat, from: Blocks, base: Files, k: nat, i: nat)
    requires CrashSafe(trail, mark, from, base, k) && mark <= i < |trail|
    ensures |Recordless(trail[i].0, trail[i].1) - Recordless(from, base)| <= k
  {
    SubsetIsSmaller(Recordless(trail[i].0, trail[i].1) - Recordless(from, base), trail[i].1 - base);
  }

  /** Members that were not refused and were answered with an error all the same. */
  function Failed(answers: seq<Outcome>, refused: seq<bool>): nat
    requires |answers| <= |refused|
  {
    if answers == [] then 0
    else
      var n := |answers| - 1;
      Failed(answers[..n], refused) + if answers[n].Err? && !refused[n] then 1 else 0
  }

  lemma FailedStep(answers: seq<Outcome>, refused: seq<bool>, answer: Outcome)
    requires |answers| < |refused|
    ensures Failed(answers + [answer], refused)
         == Failed(answers, refused) + if answer.Err? && !refused[|answers|] then 1 else 0
  {
    assert (answers + [answer])[..|answers|] == answers;
  }

  /** Nobody has failed exactly when every error answers a refused member. */
  lemma {:induction false} NoneFailed(answers: seq<Outcome>, refused: seq<bool>)
    requires |answers| <= |refused|
    ensures Failed(answers, refused) == 0 <==> forall i :: 0 <= i < |answers| && !refused[i] ==> answers[i].Ok?
    decreases |answers|
  {
    if answers != [] {
      var n := |answers| - 1;
      NoneFailed(answers[..n], refused);
      assert forall i :: 0 <= i < n ==> answers[..n][i] == answers[i];
    }
  }

  /** `replay_alone` for each member that was not refused: its own transaction,
      over files that are already in place. */
  method ReplayAll(store: BlockStore, members: seq<seq<Entry>>, refused: seq<bool>, ghost placed: map<BlockId, nat>,
                   ghost base: Files, ghost mark: nat, ghost k: nat)
      returns (answers: seq<Outcome>)
    requires AllReady(store.records, members, refused, placed)
    requires Filed(store.records, store.files) && forall id :: id in placed ==> (id, placed[id]) in store.files
    requires base <= store.files && |store.files - base| <= k && CrashSafe(store.trail, mark, store.records, base, k)
    modifies store`records, store`trail, store`faults
    ensures |answers| == |members| && forall i :: 0 <= i < |members| && refused[i] ==> answers[i].Err?
    ensures Failed(answers, refused) <= store.faults - old(store.faults)
    ensures store.records == InOrder(old(store.records), members, answers, placed)
    ensures Exact(old(store.records), members, answers, placed)
    ensures Filed(store.records, store.files) && |store.trail| >= |old(store.trail)|
    ensures CrashSafe(store.trail, mark, old(store.records), base, k)
  {
    answers := [];
    ghost var start := store.records;
    for i := 0 to |members|
      invariant |answers| == i && forall m :: 0 <= m < i && refused[m] ==> answers[m].Err?
      invariant Failed(answers, refused) <= store.faults - old(store.faults)
      invariant store.records == InOrder(start, members[..i], answers, placed) && Grown(start, store.records)
      invariant Exact(start, members[..i], answers, placed)
      invariant Filed(store.records, store.files) && |store.trail| >= |old(store.trail)|
      invariant CrashSafe(store.trail, mark, start, base, k)
    {
      var answer := Err;
      if !refused[i] {
        assert Ready(store.records, members[i], placed);
        ghost var trail := store.trail;
        answer := ReplayAlone(store, members[i], placed);
        OneMoreState(trail, mark, start, base, k, store.records, store.files);
      }
      NextAnswer(start, members, answers, placed, answer);
      FailedStep(answers, refused, answer);
      answers := answers + [answer];
    }
    assert members[..|members|] == members;
  }

  /** One member, one transaction. */
  method ReplayAlone(store: BlockStore, entries: seq<Entry>, ghost placed: map<BlockId, nat>) returns (answer: Outcome)
    requires Ready(store.records, entries, placed) && Filed(store.records, store.files)
    requires forall id :: id in placed ==> (id, placed[id]) in store.files
    modifies store`records, store`trail, store`faults
    ensures store.faults >= old(store.faults) && (answer.Ok? <==> store.faults == old(store.faults))
    ensures store.records == CommitOne(old(store.records), entries, answer, placed)
    ensures Grown(old(store.records), store.records)
    ensures Filed(store.records, store.files)
    ensures store.trail == old(store.trail) || store.trail == old(store.trail) + [(store.records, store.files)]
    ensures answer.Ok? ==>
              Recordable(old(store.records), Listing(entries), placed) &&
              answer.written == FreshIn(old(store.records).Keys, entries) &&
              answer.written + answer.ignored == |entries|
  {
    var ok, written, ignored, tx := RecordMember(store, store.records, entries, placed);
    if !ok { return Err; }
    RecordAllFiled(store.records, Listing(entries), placed, store.files);
    RecordAllGrows(store.records, Listing(entries), placed);
    ok := store.Commit(tx);
    if !ok { return Err; }
    answer := Ok(written, ignored);
  }

  lemma MembersReady(records: Blocks, members: seq<seq<Entry>>, refused: seq<bool>, live: map<BlockId, bool>,
                     placed: map<BlockId, nat>)
    requires |refused| == |members|
    requires forall id :: id in live && live[id] ==> id in records
    requires forall i, j :: 0 <= i < |members| && 0 <= j < |members[i]| ==> members[i][j].occurrences >= 1
    requires forall i :: 0 <= i < |members| && !refused[i] ==> DepthsSet(members[i], live, placed)
    ensures AllReady(records, members, refused, placed)
  {
  }

  lemma SameOccurrences(a: seq<seq<Entry>>, b: seq<seq<Entry>>)
    requires SameMembers(a, b)
    requires forall i, j :: 0 <= i < |a| && 0 <= j < |a[i]| ==> a[i][j].occurrences >= 1
    ensures forall i, j :: 0 <= i < |b| && 0 <= j < |b[i]| ==> b[i][j].occurrences >= 1
  {
    forall i, j | 0 <= i < |b| && 0 <= j < |b[i]| ensures b[i][j].occurrences >= 1 {
      assert SameEntries(a[i], b[i]) && a[i][j].(depth := None) == b[i][j].(depth := None);
    }
  }

  lemma {:induction false} AllErr(blocks: Blocks, members: seq<seq<Entry>>, answers: seq<Outcome>,
                                  placed: map<BlockId, nat>)
    requires |members| == |answers| && forall i :: 0 <= i < |answers| ==> answers[i].Err?
    ensures InOrder(blocks, members, answers, placed) == blocks && Exact(blocks, members, answers, placed)
    decreases |members|
  {
    if members != [] {
      var n := |members| - 1;
      AllErr(blocks, members[..n], answers[..n], placed);
    }
  }

  /** Where the files went changes neither the records nor the answers. */
  lemma SameAnswers(blocks: Blocks, a: seq<seq<Entry>>, b: seq<seq<Entry>>, answers: seq<Outcome>,
                    placed: map<BlockId, nat>)
    requires SameMembers(a, b) && |a| == |answers| && Exact(blocks, b, answers, placed)
    ensures InOrder(blocks, a, answers, placed) == InOrder(blocks, b, answers, placed)
    ensures Exact(blocks, a, answers, placed)
  {
    SameOutcome(blocks, a, b, answers, placed);
    forall i | 0 <= i < |a| && answers[i].Ok?
      ensures var before := InOrder(blocks, a[..i], answers[..i], placed);
              && Recordable(before, Listing(a[i]), placed)
              && answers[i].written == FreshIn(before.Keys, a[i])
              && answers[i].written + answers[i].ignored == |a[i]|
    {
      SameOutcome(blocks, a[..i], b[..i], answers[..i], placed);
      SameListing(a[i], b[i]);
    }
  }

  /** How a group's file work went: which blocks it found recorded, whether every chosen
      file landed, and the faults met up to then. */
  datatype Housing = Housing(live: map<BlockId, bool>, landed: bool, faults: nat)

  /** Nothing was left untried. Each recorded block that was taken for unrecorded is one
      of `faults` failed reads; each overtaken block without a file is one of `lost`
      failed writes; and unless the landing failed, every staged block without a live
      record has its file. */
  ghost predicate Tried(members: seq<seq<Entry>>, records: Blocks, w: FileWork, h: Housing, faults: int, lost: int) {
    && h.live.Keys == GroupIds(members) && LiveOk(h.live, records, faults) && NotLive(h.live, w.placed)
    && |Unwritten(GroupHits(members), h.live, w.rewritten)| <= lost
    && (h.landed ==>
          forall id :: id in h.live && !h.live[id] && FirstStagedIn(members, id).Some? ==> id in w.placed)
    && (!h.landed ==> faults > 0)
  }

  /** The members that name a block with neither a live record nor a file. */
  ghost function Refusals(members: seq<seq<Entry>>, live: map<BlockId, bool>, placed: map<BlockId, nat>): seq<bool> {
    seq(|members|, i requires 0 <= i < |members| => Homeless(members[i], live, placed))
  }

  /** When the files could not be landed everybody fails. Otherwise exactly the members
      with a block that has no file are refused, and of the others at most as many fail
      as there were faults after the one that undid the group's own transaction. */
  ghost predicate Isolated(members: seq<seq<Entry>>, answers: seq<Outcome>, w: FileWork, h: Housing, spent: int)
    requires |answers| == |members|
  {
    var refused := Refusals(members, h.live, w.placed);
    && (forall i :: 0 <= i < |members| && (!h.landed || refused[i]) ==> answers[i].Err?)
    && (h.landed ==> Failed(answers, refused) <= Spare(spent))
  }

  /** A block without a live record is staged by someone, or was a hit. */
  lemma {:induction false} StagedOrHit(members: seq<seq<Entry>>, i: nat, j: nat)
    requires i < |members| && j < |members[i]|
    ensures FirstStagedIn(members, members[i][j].id).Some? || members[i][j].id in GroupHits(members)
  {
    if members[i][j].payload.Staged? {
      StagedIsFoundIn(members, i, j);
    } else {
      MemberHits(members, i);
      assert members[i][j].id in HitsOf(members[i]);
    }
  }

  /** Nobody is refused when every overtaken hit was rewritten and every file landed. */
  lemma NobodyHomeless(members: seq<seq<Entry>>, records: Blocks, w: FileWork, h: Housing, faults: int)
    requires Tried(members, records, w, h, faults, 0) && h.landed && Extends(w.rewritten, w.placed)
    ensures forall i :: 0 <= i < |members| ==> !Homeless(members[i], h.live, w.placed)
  {
    forall i | 0 <= i < |members| ensures !Homeless(members[i], h.live, w.placed) {
      forall j | 0 <= j < |members[i]| && members[i][j].id in h.live && !h.live[members[i][j].id]
        ensures members[i][j].id in w.placed
      {
        StagedOrHit(members, i, j);
        assert members[i][j].id !in Unwritten(GroupHits(members), h.live, w.rewritten);
      }
    }
  }

  /** A group that met no fault: exactly its blocks without a record were placed, those
      that some member deduplicated by rewriting them. */
  ghost predicate Covered(members: seq<seq<Entry>>, records: Blocks, w: FileWork) {
    && (forall id :: id in w.placed <==> id in GroupIds(members) && id !in records)
    && (forall id :: id in GroupHits(members) && id !in records ==> id in w.rewritten)
  }

  lemma {:induction false} NamedSomewhere(members: seq<seq<Entry>>, id: BlockId) returns (i: nat)
    requires id in GroupIds(members)
    ensures i < |members| && id in IdsOf(members[i])
    decreases |members|
  {
    i := |members| - 1;
    if id in GroupIds(members[..i]) { i := NamedSomewhere(members[..i], id); }
  }

  lemma {:induction false} HitIsNamed(members: seq<seq<Entry>>, id: BlockId)
    requires id in GroupHits(members)
    ensures id in GroupIds(members)
    decreases |members|
  {
    var n := |members| - 1;
    if id in GroupHits(members[..n]) { HitIsNamed(members[..n], id); }
  }

  lemma CalmCovers(members: seq<seq<Entry>>, records: Blocks, w: FileWork, h: Housing)
    requires Tried(members, records, w, h, 0, 0) && Extends(w.rewritten, w.placed)
    ensures Covered(members, records, w)
  {
    NobodyHomeless(members, records, w, h, 0);
    forall id | id in GroupIds(members) && id !in records ensures id in w.placed {
      var i := NamedSomewhere(members, id);
      assert !Homeless(members[i], h.live, w.placed);
    }
    forall id | id in GroupHits(members) && id !in records ensures id in w.rewritten {
      HitIsNamed(members, id);
      assert id !in Unwritten(GroupHits(members), h.live, w.rewritten);
    }
    forall id | id in w.placed ensures id !in records { assert id !in Misread(h.live, records); }
  }

  /** Without faults everybody is answered Ok. */
  lemma CalmAnswers(members: seq<seq<Entry>>, records: Blocks, answers: seq<Outcome>, w: FileWork, h: Housing)
    requires Tried(members, records, w, h, 0, 0) && Extends(w.rewritten, w.placed)
    requires |answers| == |members| && Isolated(members, answers, w, h, 0)
    ensures forall i :: 0 <= i < |answers| ==> answers[i].Ok?
  {
    NobodyHomeless(members, records, w, h, 0);
    NoneFailed(answers, Refusals(members, h.live, w.placed));
  }

  /** A close that met no fault. */
  lemma CalmClose(members: seq<seq<Entry>>, records: Blocks, answers: seq<Outcome>, w: FileWork, h: Housing,
                  faults: int, lost: int, spent: int)
    requires Tried(members, records, w, h, faults, lost) && Extends(w.rewritten, w.placed)
    requires |answers| == |members| && Isolated(members, answers, w, h, spent)
    ensures faults == 0 && lost == 0 && spent == 0 ==>
              Covered(members, records, w) && forall i :: 0 <= i < |answers| ==> answers[i].Ok?
  {
    if faults == 0 && lost == 0 && spent == 0 {
      CalmCovers(members, records, w, h);
      CalmAnswers(members, records, answers, w, h);
    }
  }

  /** The files that were placed and chosen make the work a complete one. */
  lemma AllTried(members: seq<seq<Entry>>, rewritten: seq<seq<Entry>>, live: map<BlockId, bool>,
                 before: map<BlockId, nat>, placed: map<BlockId, nat>, landing: seq<(BlockId, nat)>,
                 records: Blocks, w: FileWork, h: Housing, faults: int, lost: int)
    requires SameMembers(members, rewritten) && live.Keys == GroupIds(members) && NotLive(live, placed)
    requires LiveOk(live, records, faults) && |Unwritten(GroupHits(members), live, before)| <= lost
    requires Selecting(before, placed, landing, live, FirstIn(rewritten))
    requires h.live == live && w.rewritten == before && Extends(w.placed, placed)
    requires if h.landed then w.placed == placed else faults > 0
    ensures Tried(members, records, w, h, faults, lost)
  {
    forall id | id in live && !live[id] && FirstStagedIn(members, id).Some? ensures id in placed {
      SameStagedIn(members, rewritten, id);
      assert FirstIn(rewritten)(id).Some?;
    }
  }

  lemma TrailIsCrashSafe(trail: seq<(Blocks, Files)>, mark: nat, records: Blocks, base: Files, files: Files, k: nat)
    requires TrailWithin(trail, mark, records, base, files) && Filed(records, base) && |files - base| <= k
    ensures CrashSafe(trail, mark, records, base, k)
  {
    forall i | mark <= i < |trail| ensures |trail[i].1 - base| <= k {
      SubsetIsSmaller(trail[i].1 - base, files - base);
    }
  }

  /** All faults but one: what is left once the group's own transaction has failed. */
  function Spare(faults: int): int { if faults > 0 then faults - 1 else faults }

  /** The group's transaction, or the replay when it fails: a transaction that failed
      costs no member anything by itself. */
  method CommitOrReplay(store: BlockStore, members: seq<seq<Entry>>, refused: seq<bool>,
                        ghost placed: map<BlockId, nat>, ghost base: Files, ghost mark: nat, ghost k: nat)
      returns (answers: seq<Outcome>)
    requires AllReady(store.records, members, refused, placed)
    requires Filed(store.records, store.files) && forall id :: id in placed ==> (id, placed[id]) in store.files
    requires base <= store.files && |store.files - base| <= k && CrashSafe(store.trail, mark, store.records, base, k)
    modifies store`records, store`trail, store`faults
    ensures store.faults >= old(store.faults)
    ensures |answers| == |members| && forall i :: 0 <= i < |members| && refused[i] ==> answers[i].Err?
    ensures store.records == InOrder(old(store.records), members, answers, placed)
    ensures Exact(old(store.records), members, answers, placed)
    ensures Filed(store.records, store.files) && |store.trail| >= |old(store.trail)|
    ensures CrashSafe(store.trail, mark, old(store.records), base, k)
    ensures Failed(answers, refused) <= Spare(store.faults - old(store.faults))
  {
    var ok, tx;
    ok, answers, tx := GroupTransaction(store, members, refused, placed);
    if ok {
      InOrderKeeps(store.records, members, answers, placed, store.files);
      NoneFailed(answers, refused);
      ok := store.Commit(tx);
    }
    if !ok {
      answers := ReplayAll(store, members, refused, placed, base, mark, k);
    }
  }

  /** The placed blocks whose file got there before the landing failed. */
  function Landed(placed: map<BlockId, nat>, files: Files): map<BlockId, nat> {
    map id | id in placed && (id, placed[id]) in files :: placed[id]
  }

  /** What is placed is what was there `before` and the files to land, which are the
      first staged copies of their blocks. */
  ghost predicate Chosen(members: seq<seq<Entry>>, before: map<BlockId, nat>, placed: map<BlockId, nat>,
                         landing: seq<(BlockId, nat)>)
  {
    && Extends(before, placed)
    && (forall f :: f in landing ==> f.0 in GroupIds(members) && PlacedAt(placed, f))
    && (forall id :: id in placed ==> id in before || (id, placed[id]) in landing)
    && (forall id :: id in placed && id !in before ==> FirstStagedIn(members, id) == Some(placed[id]))
  }

  lemma SelectedIsChosen(members: seq<seq<Entry>>, rewritten: seq<seq<Entry>>, live: map<BlockId, bool>,
                         before: map<BlockId, nat>, placed: map<BlockId, nat>, landing: seq<(BlockId, nat)>)
    requires SameMembers(members, rewritten) && Selecting(before, placed, landing, live, FirstIn(rewritten))
    requires NotLive(live, placed) && live.Keys == GroupIds(members)
    ensures Chosen(members, before, placed, landing)
  {
    forall id | id in placed && id !in before ensures FirstStagedIn(members, id) == Some(placed[id]) {
      SameStagedIn(members, rewritten, id);
      assert FirstIn(rewritten)(id) == Some(placed[id]);
    }
  }

  /** What the file work comes to, whether or not the landing got to its end. */
  lemma WorkDone(members: seq<seq<Entry>>, before: map<BlockId, nat>, placed: map<BlockId, nat>,
                 landing: seq<(BlockId, nat)>, strays: Files, base: Files, files: Files)
    requires Chosen(members, before, placed, landing)
    requires OneHome(base, before, strays) && OnlyHits(before, strays, GroupHits(members))
    requires Sparing(base, files, placed, strays, GroupIds(members))
    requires forall id :: id in before ==> (id, placed[id]) in files
    ensures var w := FileWork(before, Landed(placed, files), strays);
            FilesAre(base, files, w) && WorkOk(members, base, w)
  {
  }

  /** Everything before the first staged file lands: which blocks are recorded, the
      overtaken hits rewritten, and which staged files are to land. */
  method PrepareFiles(store: BlockStore, members: seq<seq<Entry>>, ghost fr: Frame)
      returns (live: map<BlockId, bool>, rewritten: seq<seq<Entry>>, placed: map<BlockId, nat>,
               landing: seq<(BlockId, nat)>,
               ghost before: map<BlockId, nat>, ghost strays: Files)
    requires fr == Frame(store.files, GroupIds(members), GroupHits(members), |store.trail|, store.lostWrites,
                         |store.strayed|)
    modifies store`files, store`trail, store`faults, store`lostWrites, store`strayed
    ensures SameMembers(members, rewritten) && live.Keys == GroupIds(members) && NotLive(live, placed)
    ensures LiveOk(live, store.records, store.faults - old(store.faults))
    ensures |Unwritten(GroupHits(members), live, before)| <= store.lostWrites - fr.lost
    ensures Working(store, before, strays, DedupedAll(members), fr)
    ensures Selecting(before, placed, landing, live, FirstIn(rewritten))
    ensures |landing| + DedupedAll(members) <= EntryCount(members)
    ensures store.faults >= old(store.faults) && (store.faults == old(store.faults) ==> store.lostWrites == fr.lost)
  {
    live := ReadLive(store, members);
    rewritten, placed, strays := RewriteAll(store, members, live, fr);
    before := placed;
    SameGroup(members, rewritten);
    placed, landing := SelectAll(rewritten, live, placed);
  }

  /** The staged files land, and with them all the file work of the group is done. */
  method LandFiles(store: BlockStore, ghost members: seq<seq<Entry>>, ghost placed: map<BlockId, nat>,
                   landing: seq<(BlockId, nat)>, ghost before: map<BlockId, nat>, ghost strays: Files, ghost fr: Frame)
      returns (ok: bool, ghost w: FileWork)
    requires fr.ids == GroupIds(members) && fr.hits == GroupHits(members) && Filed(store.records, fr.base)
    requires Working(store, before, strays, DedupedAll(members), fr) && Chosen(members, before, placed, landing)
    requires |landing| + DedupedAll(members) <= EntryCount(members)
    modifies store`files, store`trail, store`faults
    ensures FilesAre(fr.base, store.files, w) && WorkOk(members, fr.base, w)
    ensures w.strays == strays && w.rewritten == before
    ensures forall f :: f in store.files && f !in fr.base ==> f.0 in GroupIds(members)
    ensures |store.files - fr.base| <= EntryCount(members) && fr.mark <= |store.trail|
    ensures CrashSafe(store.trail, fr.mark, store.records, fr.base, EntryCount(members))
    ensures ok ==> w.placed == placed && forall id :: id in placed ==> (id, placed[id]) in store.files
    ensures Extends(w.placed, placed)
    ensures store.faults >= old(store.faults) && (ok <==> store.faults == old(store.faults))
  {
    ok := LandBatch(store, landing, before, placed, strays, DedupedAll(members), fr);
    WorkDone(members, before, placed, landing, strays, fr.base, store.files);
    w := FileWork(before, Landed(placed, store.files), strays);
    TrailIsCrashSafe(store.trail, fr.mark, store.records, fr.base, store.files, EntryCount(members));
  }

  /** Every file of the group, before a single record exists. */
  method PlaceFiles(store: BlockStore, members: seq<seq<Entry>>)
      returns (ok: bool, live: map<BlockId, bool>, rewritten: seq<seq<Entry>>, placed: map<BlockId, nat>,
               ghost w: FileWork, ghost h: Housing)
    requires Filed(store.records, store.files)
    modifies store`files, store`trail, store`faults, store`lostWrites, store`strayed
    ensures SameMembers(members, rewritten) && live.Keys == GroupIds(rewritten)
    ensures forall id :: id in live && live[id] ==> id in store.records
    ensures FilesAre(old(store.files), store.files, w) && WorkOk(members, old(store.files), w)
    ensures forall f :: f in store.files && f !in old(store.files) ==> f.0 in GroupIds(members)
    ensures Strays(old(store.strayed), store.strayed, old(store.lostWrites), store.lostWrites, w.strays)
    ensures |store.files - old(store.files)| <= EntryCount(members)
    ensures |old(store.trail)| <= |store.trail|
    ensures CrashSafe(store.trail, |old(store.trail)|, store.records, old(store.files), EntryCount(members))
    ensures ok ==> w.placed == placed && forall id :: id in placed ==> (id, placed[id]) in store.files
    ensures h == Housing(live, ok, store.faults)
    ensures Tried(members, store.records, w, h, store.faults - old(store.faults),
                  store.lostWrites - old(store.lostWrites))
    ensures store.faults >= old(store.faults)
    ensures store.faults == old(store.faults) ==> store.lostWrites == old(store.lostWrites)
  {
    ghost var fr := Frame(store.files, GroupIds(members), GroupHits(members), |store.trail|, store.lostWrites,
                          |store.strayed|);
    var landing;
    ghost var before, strays;
    live, rewritten, placed, landing, before, strays := PrepareFiles(store, members, fr);
    SameGroup(members, rewritten);
    SelectedIsChosen(members, rewritten, live, before, placed, landing);
    ok, w := LandFiles(store, members, placed, landing, before, strays, fr);
    h := Housing(live, ok, store.faults);
    AllTried(members, rewritten, live, before, placed, landing, store.records, w, h, store.faults - old(store.faults),
             store.lostWrites - fr.lost);
  }

  /** Every entry of the group is one a batch can hold. */
  predicate GroupOk(members: seq<seq<Entry>>) {
    forall i, j :: 0 <= i < |members| && 0 <= j < |members[i]| ==> EntryOk(members[i][j])
  }

  /** `strays` are the files the store's history has gained, at most one for each
      write that was lost. */
  ghost predicate Strays(before: seq<(BlockId, nat)>, after: seq<(BlockId, nat)>, lost: nat, lost': nat,
                         strays: Files) {
    |before| <= |after| && strays == Since(after, |before|) && |after| - |before| <= lost' - lost
  }

  lemma {:induction false} SinceIsFew(strayed: seq<(BlockId, nat)>, mark: nat)
    requires mark <= |strayed|
    ensures |Since(strayed, mark)| <= |strayed| - mark
    decreases |strayed|
  {
    if mark < |strayed| {
      var n := |strayed| - 1;
      var less := Since(strayed[..n], mark);
      SinceIsFew(strayed[..n], mark);
      assert |less + {strayed[n]}| <= |less| + 1;
    }
  }

  lemma {:induction false} SinceIsRecent(strayed: seq<(BlockId, nat)>, mark: nat, f: (BlockId, nat))
    requires mark <= |strayed|
    ensures f in Since(strayed, mark) <==> f in strayed[mark..]
    decreases |strayed|
  {
    if mark < |strayed| {
      var n := |strayed| - 1;
      SinceIsRecent(strayed[..n], mark, f);
      assert strayed[mark..] == strayed[..n][mark..] + [strayed[n]];
    }
  }

  /** Every stray is the file of a write this call lost after its rename. */
  lemma StraysAreLostWrites(before: seq<(BlockId, nat)>, after: seq<(BlockId, nat)>, lost: nat, lost': nat,
                            strays: Files)
    requires Strays(before, after, lost, lost', strays)
    ensures |strays| <= lost' - lost && forall f :: f in strays <==> f in after[|before|..]
  {
    SinceIsFew(after, |before|);
    forall f: (BlockId, nat) { SinceIsRecent(after, |before|, f); }
  }

  /** Without faults it can be told beforehand: a block ends with two files exactly when
      it had two, or when it has no record, no member deduplicated it, and a file of it
      lies elsewhere than where the first member staged it. */
  lemma CalmTwoFiles(members: seq<seq<Entry>>, records: Blocks, base: Files, files: Files, w: FileWork, id: BlockId)
    requires FilesAre(base, files, w) && WorkOk(members, base, w) && GroupOk(members)
    requires Covered(members, records, w) && w.strays == {}
    ensures TwoFiles(files, id) <==>
            || TwoFiles(base, id)
            || (id in GroupIds(members) && id !in records && id !in GroupHits(members) &&
                exists d: nat :: Lies(base, id, d) && FirstStagedIn(members, id) != Some(d))
  {
    TwoFilesExactly(members, base, files, w, id);
    if id in w.rewritten {
      assert Written(w.rewritten, w.strays, (id, w.rewritten[id])) && (id, w.rewritten[id]).0 in GroupHits(members);
    }
  }

  /** The records of a group whose files are in place: depths first, which refuses
      whoever has a block without a file, then the transaction or the replay. */
  method RecordGroup(store: BlockStore, members: seq<seq<Entry>>, rewritten: seq<seq<Entry>>, live: map<BlockId, bool>,
                     placed: map<BlockId, nat>, ghost base: Files, ghost mark: nat, ghost k: nat)
      returns (answers: seq<Outcome>)
    requires GroupOk(members) && SameMembers(members, rewritten) && live.Keys == GroupIds(rewritten)
    requires forall id :: id in live && live[id] ==> id in store.records
    requires Filed(store.records, store.files) && forall id :: id in placed ==> (id, placed[id]) in store.files
    requires base <= store.files && |store.files - base| <= k && CrashSafe(store.trail, mark, store.records, base, k)
    modifies store`records, store`trail, store`faults
    ensures |answers| == |members| && store.faults >= old(store.faults)
    ensures store.records == InOrder(old(store.records), members, answers, placed)
    ensures Exact(old(store.records), members, answers, placed)
    ensures Filed(store.records, store.files) && |store.trail| >= |old(store.trail)|
    ensures CrashSafe(store.trail, mark, old(store.records), base, k)
    ensures var refused := Refusals(members, live, placed);
            && (forall i :: 0 <= i < |members| && refused[i] ==> answers[i].Err?)
            && Failed(answers, refused) <= Spare(store.faults - old(store.faults))
  {
    ghost var records := store.records;
    var ready, refused := SetAllDepths(rewritten, live, placed);
    SameOccurrences(members, rewritten);
    SameOccurrences(rewritten, ready);
    MembersReady(records, ready, refused, live, placed);
    answers := CommitOrReplay(store, ready, refused, placed, base, mark, k);
    SameAnswers(records, rewritten, ready, answers, placed);
    SameAnswers(records, members, rewritten, answers, placed);
    SameRefusals(members, rewritten, live, placed);
    assert refused == Refusals(members, live, placed);
  }

  lemma SameRefusals(a: seq<seq<Entry>>, b: seq<seq<Entry>>, live: map<BlockId, bool>, placed: map<BlockId, nat>)
    requires SameMembers(a, b)
    ensures forall i :: 0 <= i < |a| ==> (Homeless(a[i], live, placed) <==> Homeless(b[i], live, placed))
  {
    forall i | 0 <= i < |a| ensures Homeless(a[i], live, placed) <==> Homeless(b[i], live, placed) {
      assert SameEntries(a[i], b[i]);
      assert forall j :: 0 <= j < |a[i]| ==> a[i][j].(depth := None).id == b[i][j].(depth := None).id;
    }
  }

  /** Closes a group under the stripes of all its blocks. The records end up as
      if the members answered Ok had committed one at a time in order; refused
      and failed members add nothing. Every record has its file, also when that
      file came from a member that failed. The new files are exactly those placed
      and those of writes that failed after their rename. Every read and write was
      tried, whatever failed before it; a member that has its files is answered with
      an error only for a fault of its own, after the group's transaction failed.
      Without faults everybody is answered Ok and exactly the blocks that had no
      record got files. A kill at any point leaves every record its file, and at most
      one new file per entry. */
  method CloseGroup(store: BlockStore, members: seq<seq<Entry>>)
      returns (answers: seq<Outcome>, ghost w: FileWork, ghost h: Housing)
    requires Filed(store.records, store.files) && GroupOk(members)
    modifies store
    ensures |answers| == |members|
    ensures store.records == InOrder(old(store.records), members, answers, w.placed)
    ensures Exact(old(store.records), members, answers, w.placed)
    ensures Filed(store.records, store.files)
    ensures FilesAre(old(store.files), store.files, w) && WorkOk(members, old(store.files), w)
    ensures forall f :: f in store.files && f !in old(store.files) ==> f.0 in GroupIds(members)
    ensures Strays(old(store.strayed), store.strayed, old(store.lostWrites), store.lostWrites, w.strays)
    ensures |store.files - old(store.files)| <= EntryCount(members)
    ensures |store.trail| >= |old(store.trail)|
    ensures CrashSafe(store.trail, |old(store.trail)|, old(store.records), old(store.files), EntryCount(members))
    ensures old(store.faults) <= h.faults <= store.faults
    ensures Tried(members, old(store.records), w, h, h.faults - old(store.faults),
                  store.lostWrites - old(store.lostWrites))
    ensures Isolated(members, answers, w, h, store.faults - h.faults)
    ensures store.faults == old(store.faults) ==>
              store.lostWrites == old(store.lostWrites) && (forall i :: 0 <= i < |answers| ==> answers[i].Ok?) &&
              Covered(members, old(store.records), w)
  {
    ghost var base, mark, records, k := store.files, |store.trail|, store.records, EntryCount(members);
    var ok, live, rewritten, placed;
    ok, live, rewritten, placed, w, h := PlaceFiles(store, members);
    if !ok {
      answers := seq(|members|, _ => Err);
      AllErr(records, members, answers, w.placed);
      return;
    }
    answers := RecordGroup(store, members, rewritten, live, placed, base, mark, k);
    CalmClose(members, records, answers, w, h, h.faults - old(store.faults), store.lostWrites - old(store.lostWrites),
              store.faults - h.faults);
  }

  // --------------------------------------------------- what the answers add up to

  /** References to `b` the members answered Ok add. */
  function OkRefs(members: seq<seq<Entry>>, answers: seq<Outcome>, b: BlockId): nat
    requires |members| == |answers|
  {
    if members == [] then 0
    else
      var n := |members| - 1;
      OkRefs(members[..n], answers[..n], b) + if answers[n].Ok? then Count(Listing(members[n]), b) else 0
  }

  function WrittenIn(answers: seq<Outcome>): nat {
    if answers == [] then 0
    else
      var n := |answers| - 1;
      WrittenIn(answers[..n]) + if answers[n].Ok? then answers[n].written else 0
  }

  lemma ExactPrefix(blocks: Blocks, members: seq<seq<Entry>>, answers: seq<Outcome>, placed: map<BlockId, nat>, n: nat)
    requires |members| == |answers| && Exact(blocks, members, answers, placed) && n <= |members|
    ensures Exact(blocks, members[..n], answers[..n], placed)
  {
    forall i | 0 <= i < n && answers[..n][i].Ok?
      ensures var before := InOrder(blocks, members[..n][..i], answers[..n][..i], placed);
              && Recordable(before, Listing(members[..n][i]), placed)
              && answers[..n][i].written == FreshIn(before.Keys, members[..n][i])
              && answers[..n][i].written + answers[..n][i].ignored == |members[..n][i]|
    {
      assert members[..n][..i] == members[..i] && answers[..n][..i] == answers[..i];
      assert answers[i].Ok?;
    }
  }

  /** Every count grows by exactly the occurrences of the members answered Ok. */
  lemma {:induction false} InOrderCounts(blocks: Blocks, members: seq<seq<Entry>>, answers: seq<Outcome>,
                                         placed: map<BlockId, nat>, b: BlockId)
    requires |members| == |answers| && Exact(blocks, members, answers, placed)
    ensures Rc(InOrder(blocks, members, answers, placed), b) == Rc(blocks, b) + OkRefs(members, answers, b)
    decreases |members|
  {
    if members != [] {
      var n := |members| - 1;
      ExactPrefix(blocks, members, answers, placed, n);
      InOrderCounts(blocks, members[..n], answers[..n], placed, b);
      if answers[n].Ok? {
        RecordAllCounts(InOrder(blocks, members[..n], answers[..n], placed), Listing(members[n]), placed, b);
      }
    }
  }

  lemma {:induction false} FreshInCounts(known: set<BlockId>, entries: seq<Entry>, all: set<BlockId>)
    requires forall x :: x in all <==> x in known || x in IdsOf(entries)
    ensures |all| == |known| + FreshIn(known, entries)
    decreases |entries|
  {
    if entries == [] {
      assert all == known;
    } else {
      var n := |entries| - 1;
      var before, x := entries[..n], entries[n].id;
      IdsStep(entries, n);
      assert entries[..n + 1] == entries;
      if x in known || x in IdsOf(before) {
        FreshInCounts(known, before, all);
      } else {
        FreshInCounts(known, before, all - {x});
        assert |all| == |all - {x}| + 1;
      }
    }
  }

  lemma MemberKeys(blocks: Blocks, entries: seq<Entry>, placed: map<BlockId, nat>)
    requires Recordable(blocks, Listing(entries), placed)
    requires forall j :: 0 <= j < |entries| ==> entries[j].occurrences >= 1
    ensures |RecordAll(blocks, Listing(entries), placed).Keys| == |blocks.Keys| + FreshIn(blocks.Keys, entries)
  {
    var after := RecordAll(blocks, Listing(entries), placed);
    forall x: BlockId ensures x in after.Keys <==> x in blocks.Keys + IdsOf(entries) {
      ListingIds(entries, x);
      RecordAllDepths(blocks, Listing(entries), placed, x);
    }
    FreshInCounts(blocks.Keys, entries, after.Keys);
  }

  /** The blocks reported written are exactly the records that are new. */
  lemma {:induction false} WrittenAreNew(blocks: Blocks, members: seq<seq<Entry>>, answers: seq<Outcome>,
                                         placed: map<BlockId, nat>)
    requires |members| == |answers| && Exact(blocks, members, answers, placed)
    requires forall i, j :: 0 <= i < |members| && 0 <= j < |members[i]| ==> members[i][j].occurrences >= 1
    ensures |InOrder(blocks, members, answers, placed).Keys| == |blocks.Keys| + WrittenIn(answers)
    decreases |members|
  {
    if members != [] {
      var n := |members| - 1;
      ExactPrefix(blocks, members, answers, placed, n);
      WrittenAreNew(blocks, members[..n], answers[..n], placed);
      if answers[n].Ok? {
        MemberKeys(InOrder(blocks, members[..n], answers[..n], placed), members[n], placed);
      }
    }
  }
}
