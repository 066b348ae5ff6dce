/** The file work of `close_group`: which blocks are recorded, which overtaken
    ones are rewritten, which staged files land, and who is refused. */
module GroupFiles {
  import opened Ids
  import opened Records
  import opened GroupCommit
  import opened Sequences

  /** Every block some member of the group names. */
  function GroupIds(members: seq<seq<Entry>>): set<BlockId> {
    if members == [] then {} else GroupIds(members[..|members| - 1]) + IdsOf(members[|members| - 1])
  }

  /** Entries of a member that carry no staged file. */
  function DedupedIn(entries: seq<Entry>): nat {
    if entries == [] then 0
    else DedupedIn(entries[..|entries| - 1]) + if entries[|entries| - 1].payload.Deduped? then 1 else 0
  }

  predicate PlacedAt(placed: map<BlockId, nat>, f: (BlockId, nat)) {
    f.0 in placed && placed[f.0] == f.1
  }

  /** New files are only ever for the group's own blocks; each is where `placed`
      says, or a stray of a write that failed after its rename. */
  ghost predicate Sparing(base: Files, files: Files, placed: map<BlockId, nat>, strays: Files, ids: set<BlockId>) {
    && base <= files && strays <= files
    && (forall f :: f in files && f !in base ==> f.0 in ids && (f in strays || PlacedAt(placed, f)))
  }

  /** The files a group has put in place so far, over those it found at `base`:
      at most `k` of them, every placed block's file among them. */
  ghost predicate Placing(base: Files, files: Files, placed: map<BlockId, nat>, strays: Files, ids: set<BlockId>,
                          k: nat) {
    && Sparing(base, files, placed, strays, ids)
    && (forall id :: id in placed ==> id in ids && (id, placed[id]) in files)
    && |files - base| <= k
  }

  /** The durable states from `mark` on: records untouched, and no file that is not
      among `files` now. */
  ghost predicate TrailWithin(trail: seq<(Blocks, Files)>, mark: nat, records: Blocks, base: Files, files: Files) {
    mark <= |trail| && forall i :: mark <= i < |trail| ==> trail[i].0 == records && base <= trail[i].1 <= files
  }

  lemma OneMoreFile(base: Files, files: Files, f: (BlockId, nat), k: nat)
    requires |files - base| <= k
    ensures |files + {f} - base| <= k + 1
  {
    if f in files || f in base {
      assert files + {f} - base == files - base;
    } else {
      assert files + {f} - base == (files - base) + {f};
    }
  }

  // ------------------------------------------------- which blocks are recorded

  /** Recorded blocks that were taken for unrecorded. */
  function Misread(live: map<BlockId, bool>, records: Blocks): set<BlockId> {
    set id | id in live && !live[id] && id in records
  }

  /** What the reads under the stripes established: a "yes" is always right, and each
      "no" that is wrong is one of `faults` failed reads. */
  ghost predicate LiveOk(live: map<BlockId, bool>, records: Blocks, faults: int) {
    (forall id :: id in live && live[id] ==> id in records) && |Misread(live, records)| <= faults
  }

  lemma LiveStep(live: map<BlockId, bool>, records: Blocks, faults: int, id: BlockId, answer: bool)
    requires LiveOk(live, records, faults) && id !in live && (answer ==> id in records)
    ensures LiveOk(live[id := answer], records, if answer == (id in records) then faults else faults + 1)
  {
    var more := Misread(live[id := answer], records);
    if answer == (id in records) {
      assert more == Misread(live, records);
    } else {
      assert more == Misread(live, records) + {id};
    }
  }

  /** One read per distinct id; a failed read counts as "no live record". */
  method ReadMember(store: BlockStore, entries: seq<Entry>, known: map<BlockId, bool>, ghost f0: nat)
      returns (live: map<BlockId, bool>)
    requires LiveOk(known, store.records, store.faults - f0)
    modifies store`faults
    ensures store.faults >= old(store.faults)
    ensures live.Keys == known.Keys + IdsOf(entries) && LiveOk(live, store.records, store.faults - f0)
  {
    live := known;
    for i := 0 to |entries|
      invariant store.faults >= old(store.faults)
      invariant live.Keys == known.Keys + IdsOf(entries[..i]) && LiveOk(live, store.records, store.faults - f0)
    {
      IdsStep(entries, i);
      if entries[i].id !in live {
        ghost var spent := store.faults - f0;
        var read := store.HasLiveRecord(entries[i].id);
        var answer := read == Some(true);
        LiveStep(live, store.records, spent, entries[i].id, answer);
        live := live[entries[i].id := answer];
      }
    }
    assert entries[..|entries|] == entries;
  }

  method ReadLive(store: BlockStore, members: seq<seq<Entry>>) returns (live: map<BlockId, bool>)
    modifies store`faults
    ensures store.faults >= old(store.faults)
    ensures live.Keys == GroupIds(members) && LiveOk(live, store.records, store.faults - old(store.faults))
  {
    live := map[];
    for i := 0 to |members|
      invariant store.faults >= old(store.faults)
      invariant live.Keys == GroupIds(members[..i]) && LiveOk(live, store.records, store.faults - old(store.faults))
    {
      assert members[..i + 1][..i] == members[..i];
      live := ReadMember(store, members[i], live, old(store.faults));
    }
    assert members[..|members|] == members;
  }

  // -------------------------------------------------------- the overtaken hits

  /** What a group found when it began its file work: the files, its blocks and
      those some member deduplicated, and how long the store's histories were. */
  datatype Frame = Frame(base: Files, ids: set<BlockId>, hits: set<BlockId>, mark: nat, lost: nat, strayed: nat)

  /** The files of a history from `mark` on. */
  ghost function Since(strayed: seq<(BlockId, nat)>, mark: nat): Files
    decreases |strayed|
  {
    if |strayed| <= mark then {} else Since(strayed[..|strayed| - 1], mark) + {strayed[|strayed| - 1]}
  }

  lemma SinceMore(strayed: seq<(BlockId, nat)>, f: (BlockId, nat), mark: nat)
    requires mark <= |strayed|
    ensures Since(strayed + [f], mark) == Since(strayed, mark) + {f}
  {
    assert (strayed + [f])[..|strayed|] == strayed;
  }

  /** A file that an overtaken hit was written to, whether or not it was told. */
  predicate Written(rewritten: map<BlockId, nat>, strays: Files, f: (BlockId, nat)) {
    f in strays || PlacedAt(rewritten, f)
  }

  /** The rewrites of a block all went to one place: where a file of it lay at the
      start, if there was one. */
  ghost predicate OneHome(base: Files, rewritten: map<BlockId, nat>, strays: Files) {
    && (forall f, d :: Written(rewritten, strays, f) && Lies(base, f.0, d) ==> f in base && f.1 <= d)
    && (forall f, g :: Written(rewritten, strays, f) && Written(rewritten, strays, g) && f.0 == g.0 ==> f == g)
  }

  /** Only blocks that some member deduplicated are rewritten, at depths in range. */
  ghost predicate OnlyHits(rewritten: map<BlockId, nat>, strays: Files, hits: set<BlockId>) {
    forall f :: Written(rewritten, strays, f) ==> f.0 in hits && InRange(f.0, f.1)
  }

  /** Where the rewrites of a group have got to: what was written, and what strayed. */
  ghost predicate Homes(rewritten: map<BlockId, nat>, strays: Files, strayed: seq<(BlockId, nat)>, lost: nat,
                        fr: Frame) {
    && fr.strayed <= |strayed| && strays == Since(strayed, fr.strayed)
    && |strayed| - fr.strayed <= lost - fr.lost
    && OneHome(fr.base, rewritten, strays) && OnlyHits(rewritten, strays, fr.hits)
  }

  /** The file work of a group so far. */
  ghost predicate Working(store: BlockStore, rewritten: map<BlockId, nat>, strays: Files, k: nat, fr: Frame)
    reads store
  {
    && Placing(fr.base, store.files, rewritten, strays, fr.ids, k)
    && TrailWithin(store.trail, fr.mark, store.records, fr.base, store.files)
    && Homes(rewritten, strays, store.strayed, store.lostWrites, fr)
  }

  /** The next rewrite of a block goes where the earlier ones went. */
  lemma SameHome(base: Files, files: Files, rewritten: map<BlockId, nat>, strays: Files, ids: set<BlockId>,
                 id: BlockId, depth: nat)
    requires Sparing(base, files, rewritten, strays, ids) && OneHome(base, rewritten, strays)
    requires forall f :: f in strays ==> InRange(f.0, f.1)
    requires id !in rewritten && forall d :: Lies(files, id, d) ==> Lies(files, id, depth) && depth <= d
    ensures forall d :: Lies(base, id, d) ==> (id, depth) in base && depth <= d
    ensures forall g :: g in strays && g.0 == id ==> g == (id, depth)
  {
    forall d | Lies(base, id, d) ensures (id, depth) in base && depth <= d {
      assert Lies(files, id, d);
      if (id, depth) !in base { assert Written(rewritten, strays, (id, depth)); }
    }
    forall g | g in strays && g.0 == id ensures g == (id, depth) {
      assert Lies(files, id, g.1) && Written(rewritten, strays, g) && g == (id, g.1);
      if (id, depth) in base {
        assert Lies(base, id, depth);
      } else {
        assert Written(rewritten, strays, (id, depth));
      }
    }
  }

  lemma OneHomeStep(base: Files, rewritten: map<BlockId, nat>, strays: Files, id: BlockId, depth: nat)
    requires OneHome(base, rewritten, strays) && id !in rewritten
    requires forall d :: Lies(base, id, d) ==> (id, depth) in base && depth <= d
    requires forall g :: g in strays && g.0 == id ==> g == (id, depth)
    ensures OneHome(base, rewritten[id := depth], strays) && OneHome(base, rewritten, strays + {(id, depth)})
  {
    var placed, strayed := rewritten[id := depth], strays + {(id, depth)};
    forall f | Written(placed, strays, f) || Written(rewritten, strayed, f)
      ensures f == (id, depth) || (f.0 != id && Written(rewritten, strays, f))
    {
      if f.0 == id && f in strays { assert f == (id, depth); }
    }
  }

  /** A rewrite that was told to have worked, and one that failed after its rename. */
  lemma HomesStep(files: Files, rewritten: map<BlockId, nat>, strays: Files, strayed: seq<(BlockId, nat)>, lost: nat,
                  fr: Frame,
                  id: BlockId, depth: nat)
    requires Homes(rewritten, strays, strayed, lost, fr) && Sparing(fr.base, files, rewritten, strays, fr.ids)
    requires id !in rewritten && id in fr.hits && InRange(id, depth)
    requires forall d :: Lies(files, id, d) ==> Lies(files, id, depth) && depth <= d
    ensures Homes(rewritten[id := depth], strays, strayed, lost, fr)
    ensures Homes(rewritten, strays + {(id, depth)}, strayed + [(id, depth)], lost + 1, fr)
    ensures Homes(rewritten, strays, strayed, lost + 1, fr)
  {
    forall f | f in strays ensures InRange(f.0, f.1) { assert Written(rewritten, strays, f); }
    SameHome(fr.base, files, rewritten, strays, fr.ids, id, depth);
    OneHomeStep(fr.base, rewritten, strays, id, depth);
    SinceMore(strayed, (id, depth), fr.strayed);
  }

  /** One more file, told or not. */
  lemma PlacingStep(base: Files, files: Files, rewritten: map<BlockId, nat>, strays: Files, ids: set<BlockId>, k: nat,
                    id: BlockId, depth: nat)
    requires Placing(base, files, rewritten, strays, ids, k) && id in ids && id !in rewritten
    ensures Placing(base, files + {(id, depth)}, rewritten[id := depth], strays, ids, k + 1)
    ensures Placing(base, files + {(id, depth)}, rewritten, strays + {(id, depth)}, ids, k + 1)
    ensures Placing(base, files, rewritten, strays, ids, k + 1)
  {
    OneMoreFile(base, files, (id, depth), k);
  }

  lemma TrailStep(trail: seq<(Blocks, Files)>, mark: nat, records: Blocks, base: Files, files: Files, more: Files)
    requires TrailWithin(trail, mark, records, base, files) && base <= files <= more
    ensures TrailWithin(trail + [(records, more)], mark, records, base, more)
  {
  }

  predicate Extends(placed: map<BlockId, nat>, more: map<BlockId, nat>) {
    forall id :: id in placed ==> id in more && more[id] == placed[id]
  }

  lemma ExtendsStep(placed: map<BlockId, nat>, id: BlockId, depth: nat)
    requires id !in placed
    ensures Extends(placed, placed[id := depth]) && placed[id := depth].Keys == placed.Keys + {id}
  {
  }

  /** A hit that a delete overtook: its block needs a file again, and gets one unless
      the group has placed one already. */
  method RewriteEntry(store: BlockStore, e: Entry, placed: map<BlockId, nat>, ghost strays: Files, ghost k: nat,
                      ghost fr: Frame)
      returns (e': Entry, placed': map<BlockId, nat>, ghost strays': Files)
    requires e.id in fr.ids && e.id in fr.hits && Working(store, placed, strays, k, fr)
    modifies store`files, store`trail, store`faults, store`lostWrites, store`strayed
    ensures e' == e.(depth := e'.depth)
    ensures e.id in placed' ==> e'.depth == Some(placed'[e.id])
    ensures Working(store, placed', strays', k + 1, fr)
    ensures Extends(placed, placed') && placed'.Keys <= placed.Keys + {e.id}
    ensures store.lostWrites >= old(store.lostWrites)
    ensures e.id in placed' || store.lostWrites > old(store.lostWrites)
    ensures store.faults >= old(store.faults) && (store.faults == old(store.faults) <==> e.id in placed')
    ensures store.faults == old(store.faults) ==> store.lostWrites == old(store.lostWrites)
  {
    e', placed', strays' := e, placed, strays;
    if e.id in placed {
      e' := e.(depth := Some(placed[e.id]));
      return;
    }
    var depth := store.ChooseDepth(e.id);
    ghost var files, trail, strayed := store.files, store.trail, store.strayed;
    HomesStep(files, placed, strays, strayed, store.lostWrites, fr, e.id, depth);
    PlacingStep(fr.base, files, placed, strays, fr.ids, k, e.id, depth);
    ExtendsStep(placed, e.id, depth);
    var ok := store.WriteBlock(e.id, depth);
    TrailStep(trail, fr.mark, store.records, fr.base, files, store.files);
    if ok {
      e' := e.(depth := Some(depth));
      placed' := placed[e.id := depth];
    } else if store.strayed != strayed {
      strays' := strays + {(e.id, depth)};
    }
  }

  /** Blocks among `hits` that were overtaken and have no file from this group. */
  function Unwritten(hits: set<BlockId>, live: map<BlockId, bool>, placed: map<BlockId, nat>): set<BlockId> {
    set id | id in hits && id in live && !live[id] && id !in placed
  }

  function HitOf(e: Entry): set<BlockId> { if e.payload.Deduped? then {e.id} else {} }

  lemma UnwrittenStep(hits: set<BlockId>, live: map<BlockId, bool>, before: map<BlockId, nat>,
                      placed: map<BlockId, nat>, e: Entry, lost: int, more: nat)
    requires |Unwritten(hits, live, before)| <= lost && Extends(before, placed)
    requires e.id in live && !live[e.id] && e.payload.Deduped? ==> e.id in placed || more > 0
    ensures |Unwritten(hits + HitOf(e), live, placed)| <= lost + more
  {
    var was, left := Unwritten(hits, live, before), Unwritten(hits + HitOf(e), live, placed);
    if more > 0 {
      SubsetIsSmaller(left, was + {e.id});
    } else {
      SubsetIsSmaller(left, was);
    }
  }

  predicate NotLive(live: map<BlockId, bool>, placed: map<BlockId, nat>) {
    forall id :: id in placed ==> id in live && !live[id]
  }

  /** One entry: rewritten when it was overtaken, left alone otherwise. */
  method RewriteOne(store: BlockStore, e: Entry, live: map<BlockId, bool>, placed: map<BlockId, nat>,
                    ghost strays: Files, ghost k: nat, ghost fr: Frame)
      returns (e': Entry, placed': map<BlockId, nat>, ghost strays': Files)
    requires e.id in fr.ids && (e.payload.Deduped? ==> e.id in fr.hits) && e.id in live
    requires Working(store, placed, strays, k, fr) && NotLive(live, placed)
    modifies store`files, store`trail, store`faults, store`lostWrites, store`strayed
    ensures e' == e.(depth := e'.depth)
    ensures Working(store, placed', strays', if e.payload.Deduped? then k + 1 else k, fr)
    ensures NotLive(live, placed') && Extends(placed, placed')
    ensures store.lostWrites >= old(store.lostWrites)
    ensures !live[e.id] && e.payload.Deduped? ==> e.id in placed' || store.lostWrites > old(store.lostWrites)
    ensures store.faults >= old(store.faults)
    ensures store.faults > old(store.faults) <==> !live[e.id] && e.payload.Deduped? && e.id !in placed'
    ensures store.faults == old(store.faults) ==> store.lostWrites == old(store.lostWrites)
  {
    e', placed', strays' := e, placed, strays;
    if !live[e.id] && e.payload.Deduped? {
      e', placed', strays' := RewriteEntry(store, e, placed, strays, k, fr);
    }
  }

  /** The blocks a member deduplicated. */
  function HitsOf(entries: seq<Entry>): set<BlockId> {
    set i | 0 <= i < |entries| && entries[i].payload.Deduped? :: entries[i].id
  }

  lemma EntryIsNamed(entries: seq<Entry>, i: nat)
    requires i < |entries|
    ensures entries[i].id in IdsOf(entries) && (entries[i].payload.Deduped? ==> entries[i].id in HitsOf(entries))
  {
  }

  method RewriteMember(store: BlockStore, entries: seq<Entry>, live: map<BlockId, bool>, placed: map<BlockId, nat>,
                       ghost strays: Files, ghost k: nat, ghost fr: Frame, ghost done: set<BlockId>)
      returns (entries': seq<Entry>, placed': map<BlockId, nat>, ghost strays': Files)
    requires |Unwritten(done, live, placed)| <= store.lostWrites - fr.lost
    requires IdsOf(entries) <= fr.ids && IdsOf(entries) <= live.Keys && HitsOf(entries) <= fr.hits
    requires Working(store, placed, strays, k, fr) && NotLive(live, placed)
    modifies store`files, store`trail, store`faults, store`lostWrites, store`strayed
    ensures SameEntries(entries, entries')
    ensures Working(store, placed', strays', k + DedupedIn(entries), fr) && NotLive(live, placed')
    ensures Extends(placed, placed')
    ensures store.lostWrites >= old(store.lostWrites)
    ensures |Unwritten(done + HitsOf(entries), live, placed')| <= store.lostWrites - fr.lost
    ensures store.faults >= old(store.faults)
    ensures store.faults == old(store.faults) ==> store.lostWrites == old(store.lostWrites)
  {
    entries', placed', strays' := [], placed, strays;
    assert done + HitsOf(entries[..0]) == done;
    for i := 0 to |entries|
      invariant SameEntries(entries[..i], entries')
      invariant Working(store, placed', strays', k + DedupedIn(entries[..i]), fr) && NotLive(live, placed')
      invariant Extends(placed, placed')
      invariant store.lostWrites >= old(store.lostWrites)
      invariant |Unwritten(done + HitsOf(entries[..i]), live, placed')| <= store.lostWrites - fr.lost
      invariant store.faults >= old(store.faults)
      invariant store.faults == old(store.faults) ==> store.lostWrites == old(store.lostWrites)
    {
      DedupedStep(entries, i);
      EntryIsNamed(entries, i);
      ghost var before, lost := placed', store.lostWrites;
      var e;
      e, placed', strays' := RewriteOne(store, entries[i], live, placed', strays', k + DedupedIn(entries[..i]), fr);
      HitsStep(entries, i, done);
      UnwrittenStep(done + HitsOf(entries[..i]), live, before, placed', entries[i], lost - fr.lost,
                    store.lostWrites - lost);
      entries' := AppendEntry(entries, entries', i, e);
    }
    assert entries[..|entries|] == entries;
  }

  lemma DedupedStep(entries: seq<Entry>, i: nat)
    requires i < |entries|
    ensures DedupedIn(entries[..i + 1]) == DedupedIn(entries[..i]) + if entries[i].payload.Deduped? then 1 else 0
  {
    assert entries[..i + 1][..i] == entries[..i];
  }

  function AppendEntry(entries: seq<Entry>, done: seq<Entry>, i: nat, e: Entry): (r: seq<Entry>)
    requires i < |entries| && SameEntries(entries[..i], done) && e == entries[i].(depth := e.depth)
    ensures SameEntries(entries[..i + 1], r)
  {
    done + [e]
  }

  lemma HitsStep(entries: seq<Entry>, i: nat, done: set<BlockId>)
    requires i < |entries|
    ensures done + HitsOf(entries[..i + 1]) == done + HitsOf(entries[..i]) + HitOf(entries[i])
  {
    var longer, shorter := entries[..i + 1], entries[..i];
    assert forall k :: 0 <= k < i ==> longer[k] == shorter[k];
    forall x | x in HitsOf(shorter) + HitOf(entries[i]) ensures x in HitsOf(longer) {
      if x in HitsOf(shorter) {
        var k :| 0 <= k < i && shorter[k].payload.Deduped? && shorter[k].id == x;
        assert longer[k].id == x;
      } else {
        assert longer[i].id == x;
      }
    }
    forall x | x in HitsOf(longer) ensures x in HitsOf(shorter) + HitOf(entries[i]) {
      var k :| 0 <= k < |longer| && longer[k].payload.Deduped? && longer[k].id == x;
      if k < i { assert shorter[k].id == x; }
    }
  }

  /** The two groups differ at most in where the files went. */
  predicate SameMembers(a: seq<seq<Entry>>, b: seq<seq<Entry>>) {
    |a| == |b| && forall i :: 0 <= i < |a| ==> SameEntries(a[i], b[i])
  }

  /** Entries of a group that carry no staged file. */
  function DedupedAll(members: seq<seq<Entry>>): nat {
    if members == [] then 0 else DedupedAll(members[..|members| - 1]) + DedupedIn(members[|members| - 1])
  }

  lemma {:induction false} MemberIds(members: seq<seq<Entry>>, i: nat)
    requires i < |members|
    ensures IdsOf(members[i]) <= GroupIds(members)
    decreases |members|
  {
    var n := |members| - 1;
    if i < n {
      MemberIds(members[..n], i);
      assert members[..n][i] == members[i];
    }
  }

  /** The blocks some member of the group deduplicated. */
  function GroupHits(members: seq<seq<Entry>>): set<BlockId> {
    if members == [] then {} else GroupHits(members[..|members| - 1]) + HitsOf(members[|members| - 1])
  }

  lemma {:induction false} MemberHits(members: seq<seq<Entry>>, i: nat)
    requires i < |members|
    ensures HitsOf(members[i]) <= GroupHits(members)
    decreases |members|
  {
    var n := |members| - 1;
    if i < n {
      MemberHits(members[..n], i);
      assert members[..n][i] == members[i];
    }
  }

  function AppendMember(members: seq<seq<Entry>>, done: seq<seq<Entry>>, i: nat,
                        entries: seq<Entry>): (r: seq<seq<Entry>>)
    requires i < |members| && SameMembers(members[..i], done) && SameEntries(members[i], entries)
    ensures SameMembers(members[..i + 1], r)
  {
    assert forall m :: 0 <= m < i ==> members[..i + 1][m] == members[..i][m];
    done + [entries]
  }

  method RewriteAll(store: BlockStore, members: seq<seq<Entry>>, live: map<BlockId, bool>, ghost fr: Frame)
      returns (members': seq<seq<Entry>>, placed: map<BlockId, nat>, ghost strays: Files)
    requires live.Keys == GroupIds(members) == fr.ids && fr.hits == GroupHits(members)
    requires Working(store, map[], {}, 0, fr)
    modifies store`files, store`trail, store`faults, store`lostWrites, store`strayed
    ensures SameMembers(members, members')
    ensures Working(store, placed, strays, DedupedAll(members), fr) && NotLive(live, placed)
    ensures store.lostWrites >= old(store.lostWrites)
    ensures |Unwritten(GroupHits(members), live, placed)| <= store.lostWrites - fr.lost
    ensures store.faults >= old(store.faults)
    ensures store.faults == old(store.faults) ==> store.lostWrites == old(store.lostWrites)
  {
    members', placed, strays := [], map[], {};
    for i := 0 to |members|
      invariant SameMembers(members[..i], members')
      invariant Working(store, placed, strays, DedupedAll(members[..i]), fr) && NotLive(live, placed)
      invariant store.lostWrites >= old(store.lostWrites)
      invariant |Unwritten(GroupHits(members[..i]), live, placed)| <= store.lostWrites - fr.lost
      invariant store.faults >= old(store.faults)
      invariant store.faults == old(store.faults) ==> store.lostWrites == old(store.lostWrites)
    {
      CountsStep(members, i);
      MemberIds(members, i);
      MemberHits(members, i);
      var entries;
      entries, placed, strays := RewriteMember(store, members[i], live, placed, strays, DedupedAll(members[..i]), fr,
                                               GroupHits(members[..i]));
      members' := AppendMember(members, members', i, entries);
    }
    assert members[..|members|] == members;
  }

  // ---------------------------------------------------------- the staged files

  /** The depth of the first staged copy of the block, in the order of the group. */
  function FirstStaged(entries: seq<Entry>, id: BlockId): Option<nat> {
    if entries == [] then None
    else
      var n := |entries| - 1;
      match FirstStaged(entries[..n], id)
      case Some(d) => Some(d)
      case None => if entries[n].id == id && entries[n].payload.Staged? then Some(entries[n].payload.at) else None
  }

  function FirstStagedIn(members: seq<seq<Entry>>, id: BlockId): Option<nat> {
    if members == [] then None
    else
      var n := |members| - 1;
      match FirstStagedIn(members[..n], id)
      case Some(d) => Some(d)
      case None => FirstStaged(members[n], id)
  }

  /** On top of `before`, every block without a live record that has a staged copy is
      placed where `first` says its first one is; `landing` lists those files. */
  ghost predicate Selecting(before: map<BlockId, nat>, placed: map<BlockId, nat>, landing: seq<(BlockId, nat)>,
                            live: map<BlockId, bool>, first: BlockId -> Option<nat>)
  {
    && Extends(before, placed)
    && (forall f :: f in landing ==> f.0 !in before && PlacedAt(placed, f))
    && (forall id :: id in placed ==> id in before || (id, placed[id]) in landing)
    && (forall id :: id in placed && id !in before ==> first(id) == Some(placed[id]))
    && (forall id :: id in live && !live[id] && first(id).Some? ==> id in placed)
  }

  /** The first copy among `earlier` members, or else among these entries. */
  function Either(earlier: BlockId -> Option<nat>, entries: seq<Entry>): BlockId -> Option<nat> {
    id => match earlier(id) case Some(d) => Some(d) case None => FirstStaged(entries, id)
  }

  /** Each new block lands once, from the first member that staged it; later copies
      of it stay behind. */
  method SelectMember(entries: seq<Entry>, live: map<BlockId, bool>, placed: map<BlockId, nat>,
                      landing: seq<(BlockId, nat)>,
                      ghost before: map<BlockId, nat>, ghost earlier: BlockId -> Option<nat>)
      returns (placed': map<BlockId, nat>, landing': seq<(BlockId, nat)>)
    requires IdsOf(entries) <= live.Keys
    requires Selecting(before, placed, landing, live, earlier) && NotLive(live, placed)
    ensures Selecting(before, placed', landing', live, Either(earlier, entries)) && NotLive(live, placed')
    ensures |landing'| + DedupedIn(entries) <= |landing| + |entries|
  {
    placed', landing' := placed, landing;
    for i := 0 to |entries|
      invariant Selecting(before, placed', landing', live, Either(earlier, entries[..i])) && NotLive(live, placed')
      invariant |landing'| + DedupedIn(entries[..i]) <= |landing| + i
    {
      DedupedStep(entries, i);
      assert entries[i].id in IdsOf(entries) && entries[..i + 1][..i] == entries[..i];
      placed', landing' := SelectEntry(entries[i], live, placed', landing', before, Either(earlier, entries[..i]),
                                       Either(earlier, entries[..i + 1]));
    }
    assert entries[..|entries|] == entries;
  }

  method SelectEntry(e: Entry, live: map<BlockId, bool>, placed: map<BlockId, nat>, landing: seq<(BlockId, nat)>,
                     ghost before: map<BlockId, nat>, ghost first: BlockId -> Option<nat>,
                     ghost first': BlockId -> Option<nat>)
      returns (placed': map<BlockId, nat>, landing': seq<(BlockId, nat)>)
    requires e.id in live && Selecting(before, placed, landing, live, first) && NotLive(live, placed)
    requires forall id: BlockId :: first'(id) == match first(id)
                                               case Some(d) => Some(d)
                                               case None =>
                                                 if e.id == id && e.payload.Staged? then Some(e.payload.at)
                                                 else None
    ensures Selecting(before, placed', landing', live, first') && NotLive(live, placed')
    ensures |landing'| == |landing| || (|landing'| == |landing| + 1 && e.payload.Staged?)
  {
    placed', landing' := placed, landing;
    if e.payload.Staged? && !(live[e.id] || e.id in placed) {
      placed' := placed[e.id := e.payload.at];
      landing' := landing + [(e.id, e.payload.at)];
    }
  }

  function FirstIn(members: seq<seq<Entry>>): BlockId -> Option<nat> {
    id => FirstStagedIn(members, id)
  }

  lemma FirstInStep(members: seq<seq<Entry>>, i: nat, id: BlockId)
    requires i < |members|
    ensures FirstIn(members[..i + 1])(id) == Either(FirstIn(members[..i]), members[i])(id)
  {
    TakeStep(members, i);
  }

  lemma SameFirst(before: map<BlockId, nat>, placed: map<BlockId, nat>, landing: seq<(BlockId, nat)>,
                  live: map<BlockId, bool>,
                  first: BlockId -> Option<nat>, first': BlockId -> Option<nat>)
    requires Selecting(before, placed, landing, live, first) && forall id: BlockId :: first'(id) == first(id)
    ensures Selecting(before, placed, landing, live, first')
  {
  }

  lemma CountsStep(members: seq<seq<Entry>>, i: nat)
    requires i < |members|
    ensures EntryCount(members[..i + 1]) == EntryCount(members[..i]) + |members[i]|
    ensures DedupedAll(members[..i + 1]) == DedupedAll(members[..i]) + DedupedIn(members[i])
    ensures GroupHits(members[..i + 1]) == GroupHits(members[..i]) + HitsOf(members[i])
  {
    TakeStep(members, i);
  }

  method SelectAll(members: seq<seq<Entry>>, live: map<BlockId, bool>, before: map<BlockId, nat>)
      returns (placed: map<BlockId, nat>, landing: seq<(BlockId, nat)>)
    requires live.Keys == GroupIds(members) && NotLive(live, before)
    ensures Selecting(before, placed, landing, live, FirstIn(members)) && NotLive(live, placed)
    ensures |landing| + DedupedAll(members) <= EntryCount(members)
  {
    placed, landing := before, [];
    for i := 0 to |members|
      invariant Selecting(before, placed, landing, live, FirstIn(members[..i])) && NotLive(live, placed)
      invariant |landing| + DedupedAll(members[..i]) <= EntryCount(members[..i])
    {
      CountsStep(members, i);
      MemberIds(members, i);
      placed, landing := SelectMember(members[i], live, placed, landing, before, FirstIn(members[..i]));
      forall id: BlockId { FirstInStep(members, i, id); }
      SameFirst(before, placed, landing, live, Either(FirstIn(members[..i]), members[i]), FirstIn(members[..i + 1]));
    }
    assert members[..|members|] == members;
  }

  lemma LandingSparing(base: Files, files: Files, files': Files, before: map<BlockId, nat>, placed: map<BlockId, nat>,
                       landing: seq<(BlockId, nat)>, strays: Files, ids: set<BlockId>, k: nat)
    requires Placing(base, files, before, strays, ids, k) && Extends(before, placed)
    requires forall f :: f in landing ==> f.0 in ids && PlacedAt(placed, f)
    requires files <= files' && forall f :: f in files' ==> f in files || f in landing
    ensures Sparing(base, files', placed, strays, ids)
  {
  }

  /** Once every chosen file is in place, so is every placed block's. */
  lemma LandedPlacing(base: Files, files: Files, files': Files, before: map<BlockId, nat>, placed: map<BlockId, nat>,
                      landing: seq<(BlockId, nat)>, strays: Files, ids: set<BlockId>, k: nat, k': nat)
    requires Placing(base, files, before, strays, ids, k) && Extends(before, placed)
    requires forall f :: f in landing ==> f.0 in ids && PlacedAt(placed, f)
    requires forall id :: id in placed ==> id in before || (id, placed[id]) in landing
    requires (forall f :: f in files' <==> f in files || f in landing) && |files' - base| <= k'
    ensures Placing(base, files', placed, strays, ids, k')
  {
  }

  /** `land_batch`: every chosen file is renamed into place, then the directories
      are synced; a failure anywhere fails the group. */
  method LandBatch(store: BlockStore, landing: seq<(BlockId, nat)>, ghost before: map<BlockId, nat>,
                   ghost placed: map<BlockId, nat>,
                   ghost strays: Files, ghost k: nat, ghost fr: Frame)
      returns (ok: bool)
    requires Working(store, before, strays, k, fr) && Extends(before, placed)
    requires forall f :: f in landing ==> f.0 in fr.ids && PlacedAt(placed, f)
    requires forall id :: id in placed ==> id in before || (id, placed[id]) in landing
    modifies store`files, store`trail, store`faults
    ensures TrailWithin(store.trail, fr.mark, store.records, fr.base, store.files)
    ensures store.faults >= old(store.faults) && (ok <==> store.faults == old(store.faults))
    ensures |store.files - fr.base| <= k + |landing| && Sparing(fr.base, store.files, placed, strays, fr.ids)
    ensures forall id :: id in placed && (ok || id in before) ==> (id, placed[id]) in store.files
  {
    ghost var start, base, ids := store.files, fr.base, fr.ids;
    for i := 0 to |landing|
      invariant forall f :: f in store.files <==> f in start || f in landing[..i]
      invariant |store.files - base| <= k + i
      invariant TrailWithin(store.trail, fr.mark, store.records, base, store.files)
      invariant store.faults == old(store.faults)
    {
      ghost var was, trail := store.files, store.trail;
      ok := store.LandOne(landing[i].0, landing[i].1);
      if !ok {
        LandingSparing(base, start, store.files, before, placed, landing, strays, ids, k);
        return;
      }
      OneMoreFile(base, was, landing[i], k + i);
      TakeStep(landing, i);
      TrailStep(trail, fr.mark, store.records, base, was, store.files);
    }
    assert landing[..|landing|] == landing;
    LandedPlacing(base, start, store.files, before, placed, landing, strays, ids, k, k + |landing|);
    ok := store.Attempt();
  }

  // ------------------------------------------------------ one file or two

  /** What a group did to the files: the overtaken hits it rewrote, all the blocks it
      placed a file for, and the files of writes that failed after their rename. */
  datatype FileWork = FileWork(rewritten: map<BlockId, nat>, placed: map<BlockId, nat>, strays: Files)

  /** The files are those found at `base`, those placed, and the strays. */
  ghost predicate FilesAre(base: Files, files: Files, w: FileWork) {
    forall f :: f in files <==> f in base || f in w.strays || PlacedAt(w.placed, f)
  }

  /** The rewrites of a block went to one place and only for blocks that were
      deduplicated; what else was placed is the first staged copy of its block. */
  ghost predicate WorkOk(members: seq<seq<Entry>>, base: Files, w: FileWork) {
    && OneHome(base, w.rewritten, w.strays) && OnlyHits(w.rewritten, w.strays, GroupHits(members))
    && Extends(w.rewritten, w.placed)
    && forall id :: id in w.placed && id !in w.rewritten ==> FirstStagedIn(members, id) == Some(w.placed[id])
  }

  /** The block has two files. */
  ghost predicate TwoFiles(files: Files, id: BlockId) {
    exists d, e :: Lies(files, id, d) && Lies(files, id, e) && d != e
  }

  /** The first staged copy of the block landed at one depth while a file of it lay at
      another: found there, or left there by a write that failed after its rename. */
  ghost predicate LandsBeside(members: seq<seq<Entry>>, base: Files, w: FileWork, id: BlockId) {
    && id in w.placed && id !in w.rewritten && FirstStagedIn(members, id) == Some(w.placed[id])
    && exists d :: d != w.placed[id] && (Lies(base, id, d) || Lies(w.strays, id, d))
  }

  predicate StagedOk(entries: seq<Entry>) {
    forall i :: 0 <= i < |entries| && entries[i].payload.Staged? ==> InRange(entries[i].id, entries[i].payload.at)
  }

  /** A group leaves a block two files exactly when it had two before, or the first
      staged copy of it landed beside another file. */
  lemma TwoFilesExactly(members: seq<seq<Entry>>, base: Files, files: Files, w: FileWork, id: BlockId)
    requires FilesAre(base, files, w) && WorkOk(members, base, w)
    requires forall i :: 0 <= i < |members| ==> StagedOk(members[i])
    ensures TwoFiles(files, id) <==> TwoFiles(base, id) || LandsBeside(members, base, w, id)
  {
    assert forall d :: Lies(base, id, d) || Lies(w.strays, id, d) ==> Lies(files, id, d);
    if TwoFiles(files, id) && !TwoFiles(base, id) {
      var d, e :| Lies(files, id, d) && Lies(files, id, e) && d != e;
      OneBesideLanded(base, w, id, d, e);
    }
    if LandsBeside(members, base, w, id) {
      FirstIsInRange(members, id);
      assert PlacedAt(w.placed, (id, w.placed[id])) && Lies(files, id, w.placed[id]);
    }
  }

  lemma {:induction false} FirstIsInRange(members: seq<seq<Entry>>, id: BlockId)
    requires FirstStagedIn(members, id).Some? && forall i :: 0 <= i < |members| ==> StagedOk(members[i])
    ensures InRange(id, FirstStagedIn(members, id).value)
    decreases |members|
  {
    var n := |members| - 1;
    if FirstStagedIn(members[..n], id).Some? {
      assert forall i :: 0 <= i < n ==> members[..n][i] == members[i];
      FirstIsInRange(members[..n], id);
    } else {
      MemberFirstIsInRange(members[n], id);
    }
  }

  lemma {:induction false} MemberFirstIsInRange(entries: seq<Entry>, id: BlockId)
    requires FirstStaged(entries, id).Some? && StagedOk(entries)
    ensures InRange(id, FirstStaged(entries, id).value)
    decreases |entries|
  {
    var n := |entries| - 1;
    if FirstStaged(entries[..n], id).Some? { MemberFirstIsInRange(entries[..n], id); }
  }

  /** Beside what was landed, a block that did not have two files has at most one. */
  lemma OneUnlanded(base: Files, w: FileWork, id: BlockId, d: nat, e: nat)
    requires OneHome(base, w.rewritten, w.strays) && !TwoFiles(base, id)
    requires Lies(base, id, d) || Written(w.rewritten, w.strays, (id, d))
    requires Lies(base, id, e) || Written(w.rewritten, w.strays, (id, e))
    requires InRange(id, d) && InRange(id, e)
    ensures d == e
  {
    if Lies(base, id, d) && Written(w.rewritten, w.strays, (id, e)) {
      assert Lies(base, (id, e).0, d) && Lies(base, id, e);
    } else if Lies(base, id, e) && Written(w.rewritten, w.strays, (id, d)) {
      assert Lies(base, (id, d).0, e) && Lies(base, id, d);
    }
  }

  /** Of two files of a block that did not have two, one is a staged copy. */
  lemma OneBesideLanded(base: Files, w: FileWork, id: BlockId, d: nat, e: nat)
    requires OneHome(base, w.rewritten, w.strays) && Extends(w.rewritten, w.placed)
    requires d != e && InRange(id, d) && InRange(id, e) && !TwoFiles(base, id)
    requires Lies(base, id, d) || Lies(w.strays, id, d) || PlacedAt(w.placed, (id, d))
    requires Lies(base, id, e) || Lies(w.strays, id, e) || PlacedAt(w.placed, (id, e))
    ensures id in w.placed && id !in w.rewritten
    ensures exists c :: c != w.placed[id] && (Lies(base, id, c) || Lies(w.strays, id, c))
  {
    if (Lies(base, id, d) || Written(w.rewritten, w.strays, (id, d))) &&
        (Lies(base, id, e) || Written(w.rewritten, w.strays, (id, e))) {
      OneUnlanded(base, w, id, d, e);
    }
    assert Lies(base, id, d) || Lies(w.strays, id, d) || Lies(base, id, e) || Lies(w.strays, id, e);
  }

  /** A new block gets one file: no file of it was there, and no write of it failed
      after its rename. */
  lemma NewBlockGetsOneFile(members: seq<seq<Entry>>, base: Files, files: Files, w: FileWork, id: BlockId)
    requires FilesAre(base, files, w) && WorkOk(members, base, w)
    requires forall i :: 0 <= i < |members| ==> StagedOk(members[i])
    requires forall d :: !Lies(base, id, d) && !Lies(w.strays, id, d)
    ensures !TwoFiles(files, id)
  {
    TwoFilesExactly(members, base, files, w, id);
  }

  // -------------------------------------------------- depths, and who is refused

  /** Some block of the member has neither a live record nor a file. */
  ghost predicate Homeless(entries: seq<Entry>, live: map<BlockId, bool>, placed: map<BlockId, nat>) {
    exists j :: 0 <= j < |entries| && entries[j].id in live && !live[entries[j].id] && entries[j].id !in placed
  }

  /** Every entry without a live record learns the depth the group put its file
      at; a member naming a block with no file is refused. */
  method SetDepths(entries: seq<Entry>, live: map<BlockId, bool>, placed: map<BlockId, nat>)
      returns (entries': seq<Entry>, refused: bool)
    requires IdsOf(entries) <= live.Keys
    ensures SameEntries(entries, entries')
    ensures refused <==> Homeless(entries, live, placed)
    ensures !refused ==> DepthsSet(entries', live, placed)
  {
    entries', refused := [], false;
    for i := 0 to |entries|
      invariant |entries'| == i && forall j :: 0 <= j < i ==> entries'[j].(depth := None) == entries[j].(depth := None)
      invariant refused <==>
                exists j :: 0 <= j < i && entries[j].id in live && !live[entries[j].id] && entries[j].id !in placed
      invariant !refused ==> DepthsSet(entries', live, placed)
    {
      var e := entries[i];
      assert e.id in IdsOf(entries);
      if !live[e.id] {
        if e.id in placed {
          e := e.(depth := Some(placed[e.id]));
        } else {
          refused := true;
        }
      }
      entries' := entries' + [e];
    }
  }

  lemma {:induction false} SameListing(a: seq<Entry>, b: seq<Entry>)
    requires SameEntries(a, b)
    ensures Listing(a) == Listing(b) && IdsOf(a) == IdsOf(b)
    ensures forall known :: FreshIn(known, a) == FreshIn(known, b)
    decreases |a|
  {
    if a != [] {
      var n := |a| - 1;
      assert SameEntries(a[..n], b[..n]);
      SameListing(a[..n], b[..n]);
      assert a[n].id == b[n].id && a[n].occurrences == b[n].occurrences;
      IdsStep(a, n);
      IdsStep(b, n);
      assert a[..n + 1] == a && b[..n + 1] == b;
    }
  }

  lemma {:induction false} SameOutcome(blocks: Blocks, a: seq<seq<Entry>>, b: seq<seq<Entry>>, answers: seq<Outcome>,
                                       placed: map<BlockId, nat>)
    requires SameMembers(a, b) && |a| == |answers|
    ensures InOrder(blocks, a, answers, placed) == InOrder(blocks, b, answers, placed)
    decreases |a|
  {
    if a != [] {
      var n := |a| - 1;
      SameOutcome(blocks, a[..n], b[..n], answers[..n], placed);
      SameListing(a[n], b[n]);
    }
  }

  lemma {:induction false} SameDeduped(a: seq<Entry>, b: seq<Entry>)
    requires SameEntries(a, b)
    ensures DedupedIn(a) == DedupedIn(b)
    decreases |a|
  {
    if a != [] {
      var n := |a| - 1;
      SameDeduped(a[..n], b[..n]);
      assert a[n].payload == b[n].payload;
    }
  }

  lemma {:induction false} SameGroup(a: seq<seq<Entry>>, b: seq<seq<Entry>>)
    requires SameMembers(a, b)
    ensures GroupIds(a) == GroupIds(b) && DedupedAll(a) == DedupedAll(b) && EntryCount(a) == EntryCount(b)
    decreases |a|
  {
    if a != [] {
      var n := |a| - 1;
      SameGroup(a[..n], b[..n]);
      SameListing(a[n], b[n]);
      SameDeduped(a[n], b[n]);
    }
  }

  /** Every entry of the member that has no live record names the depth its file
      was placed at. */
  ghost predicate DepthsSet(entries: seq<Entry>, live: map<BlockId, bool>, placed: map<BlockId, nat>) {
    forall j :: 0 <= j < |entries| ==>
      entries[j].id in live &&
      (!live[entries[j].id] ==> entries[j].id in placed && entries[j].depth == Some(placed[entries[j].id]))
  }

  lemma {:induction false} SameStaged(a: seq<Entry>, b: seq<Entry>, id: BlockId)
    requires SameEntries(a, b)
    ensures FirstStaged(a, id) == FirstStaged(b, id)
    decreases |a|
  {
    if a != [] {
      var n := |a| - 1;
      SameStaged(a[..n], b[..n], id);
      assert a[n].id == b[n].id && a[n].payload == b[n].payload;
    }
  }

  lemma {:induction false} SameStagedIn(a: seq<seq<Entry>>, b: seq<seq<Entry>>, id: BlockId)
    requires SameMembers(a, b)
    ensures FirstStagedIn(a, id) == FirstStagedIn(b, id)
    decreases |a|
  {
    if a != [] {
      var n := |a| - 1;
      SameStagedIn(a[..n], b[..n], id);
      SameStaged(a[n], b[n], id);
    }
  }

  lemma {:induction false} StagedIsFound(entries: seq<Entry>, j: nat)
    requires j < |entries| && entries[j].payload.Staged?
    ensures FirstStaged(entries, entries[j].id).Some?
    decreases |entries|
  {
    var n := |entries| - 1;
    if j < n { StagedIsFound(entries[..n], j); }
  }

  lemma {:induction false} StagedIsFoundIn(members: seq<seq<Entry>>, i: nat, j: nat)
    requires i < |members| && j < |members[i]| && members[i][j].payload.Staged?
    ensures FirstStagedIn(members, members[i][j].id).Some?
    decreases |members|
  {
    var n := |members| - 1;
    if i < n { StagedIsFoundIn(members[..n], i, j); } else { StagedIsFound(members[n], j); }
  }

  /** The depths of every member, and who is refused. */
  method SetAllDepths(members: seq<seq<Entry>>, live: map<BlockId, bool>, placed: map<BlockId, nat>)
      returns (members': seq<seq<Entry>>, refused: seq<bool>)
    requires live.Keys == GroupIds(members)
    ensures SameMembers(members, members') && |refused| == |members|
    ensures forall i :: 0 <= i < |members| ==> (refused[i] <==> Homeless(members[i], live, placed))
    ensures forall i :: 0 <= i < |members| && !refused[i] ==> DepthsSet(members'[i], live, placed)
  {
    members', refused := [], [];
    for i := 0 to |members|
      invariant |members'| == |refused| == i && forall m :: 0 <= m < i ==> SameEntries(members[m], members'[m])
      invariant forall m :: 0 <= m < i ==> (refused[m] <==> Homeless(members[m], live, placed))
      invariant forall m :: 0 <= m < i && !refused[m] ==> DepthsSet(members'[m], live, placed)
    {
      MemberIds(members, i);
      var entries, no := SetDepths(members[i], live, placed);
      members', refused := members' + [entries], refused + [no];
    }
  }
}
