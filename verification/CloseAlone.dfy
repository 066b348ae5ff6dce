/** `commit_batch`: a request that closes its own batch. Unlike a group it has nobody to
    isolate, so the first failure ends it. */
module CloseAlone {
  import opened Ids
  import opened Records
  import opened GroupCommit
  import opened GroupFiles
  import opened CloseGroup

  /** One read per entry; a failed one ends the close. */
  method ReadAlone(store: BlockStore, entries: seq<Entry>) returns (ok: bool, live: map<BlockId, bool>)
    modifies store`faults
    ensures store.faults == old(store.faults) + if ok then 0 else 1
    ensures ok ==> live.Keys == IdsOf(entries) && forall id :: id in live ==> live[id] == (id in store.records)
  {
    ok, live := true, map[];
    for i := 0 to |entries|
      invariant ok && store.faults == old(store.faults)
      invariant live.Keys == IdsOf(entries[..i]) && forall id :: id in live ==> live[id] == (id in store.records)
    {
      IdsStep(entries, i);
      var read := store.HasLiveRecord(entries[i].id);
      if read.None? { return false, live; }
      live := live[entries[i].id := read.value];
    }
    assert entries[..|entries|] == entries;
  }

  lemma {:induction false} DedupedAtMost(entries: seq<Entry>, i: nat)
    requires i <= |entries|
    ensures DedupedIn(entries[..i]) <= i
    decreases i
  {
    if i > 0 {
      DedupedAtMost(entries, i - 1);
      DedupedStep(entries, i - 1);
    }
  }

  /** A bound that is too large does no harm. */
  lemma WorkingMore(store: BlockStore, placed: map<BlockId, nat>, strays: Files, k: nat, more: nat, fr: Frame)
    requires Working(store, placed, strays, k, fr) && k <= more
    ensures Working(store, placed, strays, more, fr)
  {
  }

  /** The overtaken hits are written again; the first write that fails ends the close. */
  method RewriteAlone(store: BlockStore, entries: seq<Entry>, live: map<BlockId, bool>, ghost fr: Frame)
      returns (ok: bool, entries': seq<Entry>, placed: map<BlockId, nat>, ghost strays: Files)
    requires live.Keys == IdsOf(entries) == fr.ids && HitsOf(entries) == fr.hits && Working(store, map[], {}, 0, fr)
    requires store.lostWrites == fr.lost
    modifies store`files, store`trail, store`faults, store`lostWrites, store`strayed
    ensures Working(store, placed, strays, if ok then DedupedIn(entries) else |entries|, fr) && NotLive(live, placed)
    ensures ok ==> SameEntries(entries, entries') && |Unwritten(HitsOf(entries), live, placed)| <= 0
    ensures store.faults >= old(store.faults) && (ok <==> store.faults == old(store.faults))
    ensures ok ==> store.lostWrites == fr.lost
  {
    ok, entries', placed, strays := true, [], map[], {};
    ghost var none: set<BlockId> := {};
    assert none + HitsOf(entries[..0]) == none;
    for i := 0 to |entries|
      invariant ok && store.faults == old(store.faults) && store.lostWrites == fr.lost
      invariant SameEntries(entries[..i], entries')
      invariant Working(store, placed, strays, DedupedIn(entries[..i]), fr) && NotLive(live, placed)
      invariant |Unwritten(none + HitsOf(entries[..i]), live, placed)| <= 0
    {
      DedupedStep(entries, i);
      EntryIsNamed(entries, i);
      ghost var before := placed;
      var e;
      e, placed, strays := RewriteOne(store, entries[i], live, placed, strays, DedupedIn(entries[..i]), fr);
      if !live[e.id] && e.payload.Deduped? && e.id !in placed {
        DedupedAtMost(entries, i + 1);
        WorkingMore(store, placed, strays, DedupedIn(entries[..i + 1]), |entries|, fr);
        return false, entries', placed, strays;
      }
      HitsStep(entries, i, none);
      UnwrittenStep(none + HitsOf(entries[..i]), live, before, placed, entries[i], 0, 0);
      entries' := AppendEntry(entries, entries', i, e);
    }
    assert entries[..|entries|] == entries && none + HitsOf(entries) == HitsOf(entries);
  }

  lemma OneMember(entries: seq<Entry>)
    ensures GroupIds([entries]) == IdsOf(entries) && GroupHits([entries]) == HitsOf(entries)
    ensures EntryCount([entries]) == |entries| && DedupedAll([entries]) == DedupedIn(entries)
  {
    assert [entries][..0] == [];
  }

  /** What a close leaves on disk, whether or not it succeeded. */
  ghost predicate OnDisk(records: Blocks, base: Files, files: Files, trail: seq<(Blocks, Files)>, mark: nat,
                         members: seq<seq<Entry>>, k: nat, w: FileWork)
  {
    && FilesAre(base, files, w) && WorkOk(members, base, w) && |files - base| <= k
    && mark <= |trail| && CrashSafe(trail, mark, records, base, k)
  }

  /** A commit over files that are in place adds one more such state. */
  lemma CommittedOnDisk(records: Blocks, base: Files, files: Files, trail: seq<(Blocks, Files)>, mark: nat,
                        members: seq<seq<Entry>>, k: nat, w: FileWork, after: Blocks, trail': seq<(Blocks, Files)>)
    requires OnDisk(records, base, files, trail, mark, members, k, w) && Filed(after, files) && Grown(records, after)
    requires trail' == trail || trail' == trail + [(after, files)]
    ensures OnDisk(records, base, files, trail', mark, members, k, w)
  {
    OneMoreState(trail, mark, records, base, k, after, files);
  }

  /** What the file work comes to when a failure ended it early. */
  lemma EarlyWork(store: BlockStore, members: seq<seq<Entry>>, placed: map<BlockId, nat>, strays: Files,
                  k: nat, more: nat, fr: Frame)
    requires Working(store, placed, strays, k, fr) && fr.ids == GroupIds(members) && fr.hits == GroupHits(members)
    requires Filed(store.records, fr.base) && k <= more
    ensures OnDisk(store.records, fr.base, store.files, store.trail, fr.mark, members, more,
                   FileWork(placed, placed, strays))
  {
    TrailIsCrashSafe(store.trail, fr.mark, store.records, fr.base, store.files, more);
  }

  /** The staged files of batches whose every hit has its file. */
  method LandAlone(store: BlockStore, ghost members: seq<seq<Entry>>, members': seq<seq<Entry>>,
                   live: map<BlockId, bool>, before: map<BlockId, nat>, ghost strays: Files, ghost fr: Frame)
      returns (ok: bool, placed: map<BlockId, nat>, ghost w: FileWork)
    requires fr.ids == GroupIds(members) == live.Keys && fr.hits == GroupHits(members)
    requires SameMembers(members, members') && NotLive(live, before) && Filed(store.records, fr.base)
    requires Working(store, before, strays, DedupedAll(members), fr)
    requires (forall id :: id in live ==> live[id] == (id in store.records)) && |Unwritten(fr.hits, live, before)| <= 0
    modifies store`files, store`trail, store`faults
    ensures FilesAre(fr.base, store.files, w) && WorkOk(members, fr.base, w) && w.strays == strays
    ensures |store.files - fr.base| <= EntryCount(members) && fr.mark <= |store.trail|
    ensures CrashSafe(store.trail, fr.mark, store.records, fr.base, EntryCount(members))
    ensures store.faults >= old(store.faults) && (ok <==> store.faults == old(store.faults))
    ensures ok ==> w.placed == placed && forall id :: id in placed ==> (id, placed[id]) in store.files
    ensures ok ==> Tried(members, store.records, w, Housing(live, true, store.faults), 0, 0)
  {
    SameGroup(members, members');
    var landing;
    placed, landing := SelectAll(members', live, before);
    SelectedIsChosen(members, members', live, before, placed, landing);
    ok, w := LandFiles(store, members, placed, landing, before, strays, fr);
    if ok {
      assert Misread(live, store.records) == {};
      AllTried(members, members', live, before, placed, landing, store.records, w,
               Housing(live, true, store.faults), 0, 0);
    }
  }

  /** The reads and the rewrites of the batch. */
  method PrepareAlone(store: BlockStore, entries: seq<Entry>, ghost members: seq<seq<Entry>>, ghost fr: Frame)
      returns (ok: bool, live: map<BlockId, bool>, entries': seq<Entry>, placed: map<BlockId, nat>, ghost strays: Files)
    requires Filed(store.records, store.files) && fr.ids == GroupIds(members) && fr.hits == GroupHits(members)
    requires fr == Frame(store.files, IdsOf(entries), HitsOf(entries), |store.trail|, store.lostWrites, |store.strayed|)
    modifies store`files, store`trail, store`faults, store`lostWrites, store`strayed
    ensures store.faults >= old(store.faults) && (ok <==> store.faults == old(store.faults))
    ensures Working(store, placed, strays, if ok then DedupedIn(entries) else |entries|, fr)
    ensures ok ==> SameEntries(entries, entries') && live.Keys == fr.ids && NotLive(live, placed)
    ensures ok ==> forall id :: id in live ==> live[id] == (id in store.records)
    ensures ok ==> |Unwritten(fr.hits, live, placed)| <= 0 && store.lostWrites == fr.lost
  {
    entries', placed, strays := entries, map[], {};
    ok, live := ReadAlone(store, entries);
    if !ok {
      WorkingMore(store, placed, strays, 0, |entries|, fr);
      return;
    }
    ok, entries', placed, strays := RewriteAlone(store, entries, live, fr);
  }

  /** All the files of the batch, before its records. */
  method PlaceAlone(store: BlockStore, entries: seq<Entry>, ghost members: seq<seq<Entry>>)
      returns (ok: bool, live: map<BlockId, bool>, entries': seq<Entry>, placed: map<BlockId, nat>, ghost w: FileWork)
    requires Filed(store.records, store.files) && members == [entries]
    modifies store`files, store`trail, store`faults, store`lostWrites, store`strayed
    ensures OnDisk(store.records, old(store.files), store.files, store.trail, |old(store.trail)|, members, |entries|, w)
    ensures Strays(old(store.strayed), store.strayed, old(store.lostWrites), store.lostWrites, w.strays)
    ensures store.faults >= old(store.faults) && (ok <==> store.faults == old(store.faults))
    ensures ok ==> SameEntries(entries, entries') && live.Keys == IdsOf(entries) && w.placed == placed
    ensures ok ==> store.lostWrites == old(store.lostWrites)
    ensures ok ==> Tried(members, store.records, w, Housing(live, true, store.faults), 0, 0)
    ensures ok ==> forall id :: id in placed ==> (id, placed[id]) in store.files
  {
    ghost var fr := Frame(store.files, IdsOf(entries), HitsOf(entries), |store.trail|, store.lostWrites,
                          |store.strayed|);
    OneMember(entries);
    ghost var strays;
    ok, live, entries', placed, strays := PrepareAlone(store, entries, members, fr);
    if !ok {
      w := FileWork(placed, placed, strays);
      EarlyWork(store, members, placed, strays, |entries|, |entries|, fr);
      return;
    }
    ok, placed, w := LandAlone(store, members, [entries'], live, placed, strays, fr);
  }

  /** Every entry of the batch can be recorded. */
  lemma ReadyAlone(records: Blocks, entries: seq<Entry>, ready: seq<Entry>, live: map<BlockId, bool>,
                   placed: map<BlockId, nat>)
    requires SameEntries(entries, ready) && DepthsSet(ready, live, placed)
    requires (forall i :: 0 <= i < |entries| ==> EntryOk(entries[i])) && LiveOk(live, records, 0)
    ensures Ready(records, ready, placed)
  {
    forall i | 0 <= i < |ready| ensures ready[i].occurrences >= 1 {
      assert entries[i].(depth := None) == ready[i].(depth := None) && EntryOk(entries[i]);
    }
  }

  lemma HousedAlone(entries: seq<Entry>, entries': seq<Entry>, records: Blocks, w: FileWork, h: Housing)
    requires Tried([entries], records, w, h, 0, 0) && Extends(w.rewritten, w.placed) && SameEntries(entries, entries')
    ensures !Homeless(entries', h.live, w.placed)
  {
    NobodyHomeless([entries], records, w, h, 0);
    assert [entries][0] == entries;
    SameRefusals([entries], [entries'], h.live, w.placed);
    assert [entries'][0] == entries';
  }

  /** The records of a batch whose files are in place: one transaction, and no second
      attempt. */
  method RecordAlone(store: BlockStore, entries: seq<Entry>, entries': seq<Entry>, live: map<BlockId, bool>,
                     placed: map<BlockId, nat>)
      returns (answer: Outcome)
    requires (forall i :: 0 <= i < |entries| ==> EntryOk(entries[i])) && LiveOk(live, store.records, 0)
    requires SameEntries(entries, entries') && live.Keys == IdsOf(entries') && !Homeless(entries', live, placed)
    requires Filed(store.records, store.files) && forall id :: id in placed ==> (id, placed[id]) in store.files
    modifies store`records, store`trail, store`faults
    ensures store.faults >= old(store.faults) && (answer.Ok? <==> store.faults == old(store.faults))
    ensures store.records == CommitOne(old(store.records), entries, answer, placed)
    ensures Grown(old(store.records), store.records) && Filed(store.records, store.files)
    ensures store.trail == old(store.trail) || store.trail == old(store.trail) + [(store.records, store.files)]
    ensures Exact(old(store.records), [entries], [answer], placed)
  {
    ghost var records := store.records;
    var ready, refused := SetDepths(entries', live, placed);
    assert SameEntries(entries, ready);
    ReadyAlone(records, entries, ready, live, placed);
    answer := ReplayAlone(store, ready, placed);
    SameListing(entries, ready);
    OneExact(records, entries, answer, placed);
  }

  lemma OneExact(blocks: Blocks, entries: seq<Entry>, answer: Outcome, placed: map<BlockId, nat>)
    requires answer.Ok? ==>
               Recordable(blocks, Listing(entries), placed) && answer.written == FreshIn(blocks.Keys, entries) &&
               answer.written + answer.ignored == |entries|
    ensures Exact(blocks, [entries], [answer], placed)
  {
    var none: seq<seq<Entry>>, nobody: seq<Outcome> := [], [];
    ExactStep(blocks, none, nobody, placed, entries, answer);
    assert none + [entries] == [entries] && nobody + [answer] == [answer];
  }

  /** What a batch with all its files in place, and no write lost, comes to. */
  lemma CalmAlone(members: seq<seq<Entry>>, records: Blocks, w: FileWork, h: Housing, before: seq<(BlockId, nat)>,
                  after: seq<(BlockId, nat)>, lost: nat)
    requires Tried(members, records, w, h, 0, 0) && Extends(w.rewritten, w.placed)
    requires Strays(before, after, lost, lost, w.strays)
    ensures Covered(members, records, w) && w.strays == {}
  {
    CalmCovers(members, records, w, h);
    StraysAreLostWrites(before, after, lost, lost, w.strays);
  }

  /** The files of the batch, and what that means for its records. */
  method HouseAlone(store: BlockStore, entries: seq<Entry>, ghost members: seq<seq<Entry>>)
      returns (ok: bool, live: map<BlockId, bool>, entries': seq<Entry>, placed: map<BlockId, nat>, ghost w: FileWork)
    requires Filed(store.records, store.files) && members == [entries]
    modifies store`files, store`trail, store`faults, store`lostWrites, store`strayed
    ensures OnDisk(store.records, old(store.files), store.files, store.trail, |old(store.trail)|, members, |entries|, w)
    ensures Strays(old(store.strayed), store.strayed, old(store.lostWrites), store.lostWrites, w.strays)
    ensures store.faults >= old(store.faults) && (ok <==> store.faults == old(store.faults))
    ensures ok ==> SameEntries(entries, entries') && live.Keys == IdsOf(entries') && w.placed == placed
    ensures ok ==> LiveOk(live, store.records, 0) && !Homeless(entries', live, placed)
    ensures ok ==> forall id :: id in placed ==> (id, placed[id]) in store.files
    ensures ok ==> Covered(members, store.records, w) && w.strays == {}
  {
    ok, live, entries', placed, w := PlaceAlone(store, entries, members);
    if ok {
      ghost var h := Housing(live, true, store.faults);
      HousedAlone(entries, entries', store.records, w, h);
      SameListing(entries, entries');
      CalmAlone(members, store.records, w, h, old(store.strayed), store.strayed, store.lostWrites);
    }
  }

  /** The batch is closed whole, or its records are as they were; it fails exactly when
      some read, write or the transaction did. */
  method CommitBatch(store: BlockStore, entries: seq<Entry>, ghost members: seq<seq<Entry>>)
      returns (answer: Outcome, ghost w: FileWork)
    requires Filed(store.records, store.files) && forall i :: 0 <= i < |entries| ==> EntryOk(entries[i])
    requires members == [entries]
    modifies store
    ensures store.faults >= old(store.faults) && (answer.Ok? <==> store.faults == old(store.faults))
    ensures store.records == CommitOne(old(store.records), entries, answer, w.placed)
    ensures Exact(old(store.records), members, [answer], w.placed)
    ensures Filed(store.records, store.files)
    ensures OnDisk(old(store.records), old(store.files), store.files, store.trail, |old(store.trail)|, members,
                   |entries|, w)
    ensures Strays(old(store.strayed), store.strayed, old(store.lostWrites), store.lostWrites, w.strays)
    ensures answer.Ok? ==> Covered(members, old(store.records), w) && w.strays == {}
  {
    ghost var records, base, mark := store.records, store.files, |store.trail|;
    var ok, live, entries', placed;
    ok, live, entries', placed, w := HouseAlone(store, entries, members);
    if !ok {
      OneExact(records, entries, Err, w.placed);
      return Err, w;
    }
    ghost var trail := store.trail;
    answer := RecordAlone(store, entries, entries', live, placed);
    CommittedOnDisk(records, base, store.files, trail, mark, members, |entries|, w, store.records, store.trail);
  }
}
