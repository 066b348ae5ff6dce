/** The multipart operations on the shared database: complete's claim, abort,
    and the collector's sweep. */
module Uploads {
  import opened Ids
  import opened Sequences
  import opened Accounting
  import opened Records
  import opened Protocol
  import opened ProtocolUploads
  import opened GroupCommit
  import opened References

  datatype UploadClaim =
    | Claimed(created: int, parts: seq<seq<BlockId>>)
    | NoUpload
    | MissingPart(number: int)
    | ClaimError

  datatype Reap = Took(blocks: seq<BlockId>) | AlreadyGone | ReapError

  datatype Aborted = Won(reaped: nat) | Lost | AbortError

  datatype SweepStats = SweepStats(uploadsReaped: nat, orphanPartsReaped: nat, errors: nat)

  /** Keys of the parts whose upload is `u`. */
  function PartsOf(parts: map<PartKey, seq<BlockId>>, u: Upload): set<PartKey> {
    set pk | pk in parts && pk.upload == u
  }

  /** Keys of the parts whose upload has no record. */
  function Orphans(parts: map<PartKey, seq<BlockId>>, uploads: map<Upload, int>): set<PartKey> {
    set pk | pk in parts && pk.upload !in uploads
  }

  /** The position at which a claim meets the first part it cannot take: absent,
      or already taken under the same number. */
  ghost predicate FirstMissing(parts: map<PartKey, seq<BlockId>>, u: Upload, numbers: seq<int>, i: nat) {
    && i < |numbers|
    && (PartKey(u, numbers[i]) !in parts || numbers[i] in numbers[..i])
    && NoDup(numbers[..i]) && (forall k :: 0 <= k < i ==> PartKey(u, numbers[k]) in parts)
  }

  /** The shared database: upload records with their creation time, part records,
      and the block store they hold references in. */
  class SharedDb {
    const store: BlockStore
    var uploads: map<Upload, int>
    var parts: map<PartKey, seq<BlockId>>

    constructor (store: BlockStore)
      ensures this.store == store && uploads == map[] && parts == map[]
    {
      this.store, uploads, parts := store, map[], map[];
    }

    /** References to `b` beyond those the part records hold: what objects and
        requests in flight account for. */
    ghost function Others(b: BlockId): int
      reads this`parts, store`records
    {
      Rc(store.records, b) - Refs(parts, Listed, b)
    }

    /** Every part's references are counted, and every record has its file. */
    ghost predicate Sound()
      reads this`parts, store`records, store`files
    {
      Filed(store.records, store.files) && forall b: BlockId :: Others(b) >= 0
    }

    /** `claim_upload_with_parts`: the upload and its named parts change hands
        together, or nothing does. */
    method ClaimUploadWithParts(u: Upload, numbers: seq<int>) returns (claim: UploadClaim)
      modifies this`uploads, this`parts, store`faults
      ensures store.faults == old(store.faults) + if claim.ClaimError? then 1 else 0
      ensures !claim.Claimed? ==> uploads == old(uploads) && parts == old(parts)
      ensures claim.Claimed? ==>
                u in old(uploads) && claim.created == old(uploads)[u] && uploads == old(uploads) - {u} &&
                |claim.parts| == |numbers| && TakeParts(old(parts), u, numbers) == Some((parts, Flatten(claim.parts)))
      ensures claim.Claimed? ==> forall i :: 0 <= i < |numbers| ==>
                PartKey(u, numbers[i]) in old(parts) && claim.parts[i] == old(parts)[PartKey(u, numbers[i])]
      ensures claim.NoUpload? ==> u !in old(uploads)
      ensures claim.MissingPart? ==>
                u in old(uploads) &&
                exists i: nat :: FirstMissing(old(parts), u, numbers, i) && claim.number == numbers[i]
    {
      var readable := store.Attempt();
      if !readable { return ClaimError; }
      if u !in uploads { return NoUpload; }
      var tx, taken := parts, [];
      for i := 0 to |numbers|
        invariant |taken| == i && store.faults == old(store.faults) && uploads == old(uploads) && parts == old(parts)
        invariant TakenSoFar(parts, tx, taken, u, numbers, i)
      {
        var pk := PartKey(u, numbers[i]);
        var decoded := store.Attempt();
        if !decoded { return ClaimError; }
        TakenStep(parts, tx, taken, u, numbers, i);
        if pk !in tx { return MissingPart(numbers[i]); }
        taken, tx := taken + [tx[pk]], tx - {pk};
      }
      assert numbers[..|numbers|] == numbers;
      ClaimTakesExactlyTheNamed(parts, u, numbers);
      var committed := store.Attempt();
      if !committed { return ClaimError; }
      claim := Claimed(uploads[u], taken);
      uploads, parts := uploads - {u}, tx;
    }

    /** `reap_part`: takes the record out, then releases exactly its blocks. What
        others hold is never released; without faults it is not touched either. */
    method ReapPart(pk: PartKey) returns (r: Reap)
      requires Sound()
      modifies this`parts, store
      ensures Sound() && store.faults >= old(store.faults)
      ensures parts == if r.Took? then old(parts) - {pk} else old(parts)
      ensures r.Took? ==> pk in old(parts) && r.blocks == old(parts)[pk]
      ensures r.AlreadyGone? ==> pk !in old(parts)
      ensures !r.Took? ==> store.records == old(store.records)
      ensures !r.Took? ==> store.faults == old(store.faults) + if r.ReapError? then 1 else 0
      ensures forall b: BlockId :: 0 <= Others(b) - old(Others(b)) <= store.faults - old(store.faults)
    {
      var readable := store.Attempt();
      if !readable { return ReapError; }
      if pk !in parts { return AlreadyGone; }
      var blocks := parts[pk];
      ghost var before, records := parts, store.records;
      parts := parts - {pk};
      forall b: BlockId ensures Refs(before, Listed, b) == Count(blocks, b) + Refs(parts, Listed, b) {
        RefsDrop(before, Listed, pk, b);
      }
      var released, lost := ReleaseBlocks(store, blocks);
      forall b: BlockId
        ensures Others(b) == old(Others(b)) + Count(lost, b) && Count(lost, b) <= store.faults - old(store.faults)
      {
        assert old(Others(b)) >= 0;
        ReleaseAllCounts(records, released, b);
        CountAtMost(lost, b);
      }
      r := Took(blocks);
    }

    /** Reaps a list of part keys, stepping over what is gone or will not go: what is
        still there afterwards had an error of its own. */
    method ReapParts(keys: seq<PartKey>) returns (reaped: nat, errors: nat)
      requires Sound() && NoDup(keys)
      modifies this`parts, store
      ensures Sound() && errors <= store.faults - old(store.faults)
      ensures Less(old(parts), parts, keys) && reaped + |parts| == |old(parts)| && |Stuck(keys, parts)| <= errors
      ensures forall b: BlockId :: 0 <= Others(b) - old(Others(b)) <= store.faults - old(store.faults)
    {
      reaped, errors := 0, 0;
      for i := 0 to |keys|
        invariant Sound() && errors <= store.faults - old(store.faults)
        invariant Less(old(parts), parts, keys[..i]) && reaped + |parts| == |old(parts)|
        invariant |Stuck(keys[..i], parts)| <= errors
        invariant forall b: BlockId :: 0 <= Others(b) - old(Others(b)) <= store.faults - old(store.faults)
      {
        ghost var was := parts;
        var r := ReapPart(keys[i]);
        ReapStep(old(parts), was, parts, keys, i);
        match r {
          case Took(_) => reaped := reaped + 1;
          case AlreadyGone =>
          case ReapError => errors := errors + 1;
        }
      }
      assert keys[..|keys|] == keys;
    }

    /** `claim_upload`: the atomic read and remove that decides who ends it. */
    method ClaimUpload(u: Upload) returns (won: bool, ok: bool)
      modifies this`uploads, store`faults
      ensures store.faults == old(store.faults) + if ok then 0 else 1
      ensures ok ==> won == (u in old(uploads)) && uploads == old(uploads) - {u}
      ensures !ok ==> uploads == old(uploads)
    {
      ok := store.Attempt();
      won := ok && u in uploads;
      if ok { uploads := uploads - {u}; }
    }

    /** `abort_upload`: claim it, then reap the parts the scan found. A part that is still
        there afterwards could not be read or not be reaped. */
    method AbortUpload(u: Upload) returns (r: Aborted)
      requires Sound()
      modifies this`uploads, this`parts, store
      ensures Sound() && store.faults >= old(store.faults)
      ensures r.Won? <==> u in old(uploads) && !r.AbortError?
      ensures r.AbortError? ==> store.faults == old(store.faults) + 1
      ensures uploads == if r.Won? then old(uploads) - {u} else old(uploads)
      ensures !r.Won? ==> parts == old(parts) && store.records == old(store.records)
      ensures r.Won? ==> r.reaped + |parts| == |old(parts)|
      ensures LessOf(old(parts), parts, u) && (r.Won? ==> |PartsOf(parts, u)| <= store.faults - old(store.faults))
      ensures forall b: BlockId :: 0 <= Others(b) - old(Others(b)) <= store.faults - old(store.faults)
    {
      var won, ok := ClaimUpload(u);
      if !ok { return AbortError; }
      if !won { return Lost; }
      ghost var before := parts;
      var keys := Scan(PartsOf(parts, u));
      var reaped, errors := ReapParts(keys);
      PartsLeft(before, parts, keys, u);
      r := Won(reaped);
    }

    /** The keys of a scan: each of them once, except the records that could not
        be read. */
    method Scan(wanted: set<PartKey>) returns (keys: seq<PartKey>)
      modifies store`faults
      ensures NoDup(keys) && forall pk :: pk in keys ==> pk in wanted
      ensures |Unlisted(wanted, keys)| <= store.faults - old(store.faults)
      ensures |keys| + (store.faults - old(store.faults)) == |wanted|
    {
      keys := [];
      var left := wanted;
      assert Unlisted(wanted - left, keys) == {};
      while left != {}
        invariant left <= wanted && NoDup(keys) && forall pk :: pk in keys ==> pk in wanted && pk !in left
        invariant |keys| + |left| + (store.faults - old(store.faults)) == |wanted|
        invariant |Unlisted(wanted - left, keys)| <= store.faults - old(store.faults)
        decreases |left|
      {
        var pk :| pk in left;
        ScanStep(wanted, left, pk, keys);
        left := left - {pk};
        var readable := store.Attempt();
        if readable { keys := keys + [pk]; }
      }
      assert wanted - left == wanted;
    }

    /** The uploads of a listing, each once. */
    method ListUploads() returns (listed: seq<Upload>)
      ensures NoDup(listed) && forall u :: u in listed <==> u in uploads
      ensures |listed| == |uploads.Keys|
    {
      listed := [];
      var left := uploads.Keys;
      while left != {}
        invariant left <= uploads.Keys && NoDup(listed) && forall u :: u in listed <==> u in uploads && u !in left
        invariant |listed| + |left| == |uploads.Keys|
        decreases |left|
      {
        var u :| u in left;
        left := left - {u};
        listed := listed + [u];
      }
    }

    /** How far phase 1 has come: of the uploads in `stale` each is aborted and counted, or
        was stepped over for an error of its own. */
    ghost predicate Sweeping(was: map<Upload, int>, before: map<PartKey, seq<BlockId>>, stale: set<Upload>,
                             reaped: nat, errors: nat, f0: nat)
      reads this, store
    {
      && Sound() && Within(was, uploads, before, parts, stale)
      && reaped + |uploads| == |was| && |Spared(uploads, stale)| <= errors
      && errors + |Residue(uploads, parts, stale)| <= store.faults - f0
    }

    /** One upload of the listing: skipped when recent, aborted when stale. */
    method SweepOne(u: Upload, created: int, cutoff: int, reaped: nat, errors: nat,
                    ghost was: map<Upload, int>, ghost before: map<PartKey, seq<BlockId>>, ghost stale: set<Upload>,
                    ghost f0: nat)
        returns (reaped': nat, errors': nat)
      requires Sweeping(was, before, stale, reaped, errors, f0) && u in was && u !in stale
      modifies this`uploads, this`parts, store
      ensures Sweeping(was, before, if created < cutoff then stale + {u} else stale, reaped', errors', f0)
      ensures forall b: BlockId :: 0 <= Others(b) - old(Others(b)) <= store.faults - old(store.faults)
    {
      reaped', errors' := reaped, errors;
      if created >= cutoff { return; }
      ghost var had, held := uploads, parts;
      var r := AbortUpload(u);
      AbortStep(had, uploads, held, parts, stale, u);
      match r {
        case Won(_) => reaped' := reaped + 1;
        case Lost =>
        case AbortError => errors' := errors + 1;
      }
    }

    /** The aborts of phase 1, against the listing. */
    method SweepListed(records: seq<Upload>, was: map<Upload, int>, cutoff: int) returns (reaped: nat, errors: nat)
      requires Sound() && uploads == was && NoDup(records) && forall u :: u in records <==> u in was
      modifies this`uploads, this`parts, store
      ensures Sweeping(was, old(parts), Aged(was, cutoff), reaped, errors, old(store.faults))
      ensures forall b: BlockId :: 0 <= Others(b) - old(Others(b)) <= store.faults - old(store.faults)
    {
      reaped, errors := 0, 0;
      ghost var before := parts;
      assert Spared(uploads, {}) == {} && Residue(uploads, parts, {}) == {};
      for i := 0 to |records|
        invariant Sweeping(was, before, AgedAmong(records[..i], was, cutoff), reaped, errors, old(store.faults))
        invariant forall b: BlockId :: 0 <= Others(b) - old(Others(b)) <= store.faults - old(store.faults)
      {
        AgedStep(records, i, was, cutoff);
        reaped, errors := SweepOne(records[i], was[records[i]], cutoff, reaped, errors, was, before,
                                   AgedAmong(records[..i], was, cutoff), old(store.faults));
      }
      assert records[..|records|] == records && AgedAmong(records, was, cutoff) == Aged(was, cutoff);
    }

    /** Phase 1 of the sweep: every listed upload created before `cutoff` is
        aborted. Nothing of an upload at or after the cutoff is touched. Unless the
        listing failed, each stale upload that is still there had an error of its own. */
    method SweepAgedUploads(cutoff: int) returns (reaped: nat, errors: nat, listed: bool)
      requires Sound()
      modifies this`uploads, this`parts, store
      ensures Sound() && Within(old(uploads), uploads, old(parts), parts, Aged(old(uploads), cutoff))
      ensures reaped + |uploads| == |old(uploads)| && errors <= store.faults - old(store.faults)
      ensures listed ==>
                |Aged(uploads, cutoff)| <= errors &&
                errors + |Residue(uploads, parts, Aged(old(uploads), cutoff))| <= store.faults - old(store.faults)
      ensures !listed ==> errors == 1 && uploads == old(uploads) && parts == old(parts)
      ensures forall b: BlockId :: 0 <= Others(b) - old(Others(b)) <= store.faults - old(store.faults)
    {
      reaped, errors := 0, 0;
      listed := store.Attempt();
      if !listed { errors := 1; return; }
      var records := ListUploads();
      reaped, errors := SweepListed(records, uploads, cutoff);
      SparedAreAged(old(uploads), uploads, cutoff);
    }

    /** The walk of phase 2 over all part records: the orphans, except where the part or
        its upload could not be read. */
    method FindOrphans() returns (orphans: seq<PartKey>, errors: nat)
      modifies store`faults
      ensures NoDup(orphans) && forall pk :: pk in orphans ==> pk in Orphans(parts, uploads)
      ensures |Unlisted(Orphans(parts, uploads), orphans)| <= errors == store.faults - old(store.faults)
    {
      orphans, errors := [], 0;
      var left := parts.Keys;
      ghost var wanted := Orphans(parts, uploads);
      assert Unlisted(wanted - left, orphans) == {};
      while left != {}
        invariant left <= parts.Keys && NoDup(orphans) && forall pk :: pk in orphans ==> pk in wanted && pk !in left
        invariant |Unlisted(wanted - left, orphans)| <= errors == store.faults - old(store.faults)
        decreases |left|
      {
        var pk :| pk in left;
        ScanStep(wanted, left, pk, orphans);
        left := left - {pk};
        var readable := store.Attempt();
        if !readable { errors := errors + 1; continue; }
        var known := store.Attempt();
        if !known { errors := errors + 1; continue; }
        if pk.upload !in uploads { orphans := orphans + [pk]; }
      }
      assert wanted - left == wanted;
    }

    /** Phase 2 of the sweep: every part whose upload has no record is reaped, and
        no other. Unless the tree could not be walked, each orphan that is still there
        had an error of its own. */
    method SweepOrphanParts() returns (reaped: nat, errors: nat, walked: bool)
      requires Sound()
      modifies this`parts, store
      ensures Sound() && errors <= store.faults - old(store.faults)
      ensures forall pk :: pk in parts ==> pk in old(parts) && parts[pk] == old(parts)[pk]
      ensures forall pk :: pk in old(parts) && pk.upload in uploads ==> pk in parts
      ensures reaped + |parts| == |old(parts)|
      ensures walked ==> |Orphans(parts, uploads)| <= errors
      ensures !walked ==> errors == 1 && parts == old(parts)
      ensures forall b: BlockId :: 0 <= Others(b) - old(Others(b)) <= store.faults - old(store.faults)
    {
      reaped, errors := 0, 0;
      walked := store.Attempt();
      if !walked { errors := 1; return; }
      var orphans, unread := FindOrphans();
      ghost var before := parts;
      reaped, errors := ReapParts(orphans);
      OrphansLeft(before, parts, uploads, orphans);
      errors := errors + unread;
    }

    /** One sweep. What anybody but a dead upload's parts holds is never released, and
        nothing of an upload at or after the cutoff is touched. The counts say what went;
        what should have gone and has not had an error of its own. Without faults exactly
        the stale uploads and the orphaned parts are gone. */
    method SweepStaleUploads(cutoff: int) returns (stats: SweepStats, ghost listed: bool, ghost walked: bool)
      requires Sound()
      modifies this`uploads, this`parts, store
      ensures Sound() && stats.errors <= store.faults - old(store.faults)
      ensures forall u :: u in old(uploads) && old(uploads)[u] >= cutoff ==>
                u in uploads && uploads[u] == old(uploads)[u]
      ensures forall pk :: pk in old(parts) && pk.upload in old(uploads) && old(uploads)[pk.upload] >= cutoff ==>
                pk in parts && parts[pk] == old(parts)[pk]
      ensures stats.uploadsReaped + |uploads| == |old(uploads)|
      ensures (listed ==> |Aged(uploads, cutoff)| <= stats.errors) && (!listed ==> stats.errors >= 1)
      ensures (walked ==> |Orphans(parts, uploads)| <= stats.errors) && (!walked ==> stats.errors >= 1)
      ensures forall b: BlockId :: 0 <= Others(b) - old(Others(b)) <= store.faults - old(store.faults)
      ensures store.faults == old(store.faults) ==>
                && uploads == old(uploads) - Aged(old(uploads), cutoff)
                && parts == old(parts) - (set pk | pk in old(parts) && pk.upload !in uploads)
                && stats == SweepStats(|Aged(old(uploads), cutoff)|, |Orphans(old(parts), old(uploads))|, 0)
    {
      var aged, failed, orphans, more;
      ghost var was, held := uploads, parts;
      aged, failed, listed := SweepAgedUploads(cutoff);
      ghost var mid := parts;
      orphans, more, walked := SweepOrphanParts();
      stats := SweepStats(aged, orphans, failed + more);
      if store.faults == old(store.faults) {
        CalmSweep(was, uploads, held, mid, parts, cutoff);
      }
    }
  }

  function AgedAmong(records: seq<Upload>, was: map<Upload, int>, cutoff: int): set<Upload> {
    set u | u in was && was[u] < cutoff && u in records
  }

  lemma AgedStep(records: seq<Upload>, i: nat, was: map<Upload, int>, cutoff: int)
    requires i < |records| && NoDup(records) && forall u :: u in records ==> u in was
    ensures var u, stale := records[i], AgedAmong(records[..i], was, cutoff);
            && u in was && u !in stale
            && AgedAmong(records[..i + 1], was, cutoff) == if was[u] < cutoff then stale + {u} else stale
  {
    assert records[..i + 1] == records[..i] + [records[i]] && records[i] in records;
    assert records[i] !in records[..i];
  }

  /** At most the parts in `keys` are gone; what is left is as it was. */
  ghost predicate Less(before: map<PartKey, seq<BlockId>>, parts: map<PartKey, seq<BlockId>>, keys: seq<PartKey>) {
    && (forall pk :: pk in parts ==> pk in before && parts[pk] == before[pk])
    && (forall pk :: pk in before && pk !in keys ==> pk in parts)
  }

  /** At most parts of `u` are gone; what is left is as it was. */
  ghost predicate LessOf(before: map<PartKey, seq<BlockId>>, parts: map<PartKey, seq<BlockId>>, u: Upload) {
    && (forall pk :: pk in parts ==> pk in before && parts[pk] == before[pk])
    && (forall pk :: pk in before && pk.upload != u ==> pk in parts)
  }

  /** Parts on the list that are still there. */
  function Stuck(keys: seq<PartKey>, parts: map<PartKey, seq<BlockId>>): set<PartKey> {
    set pk | pk in parts && pk in keys
  }

  function Unlisted(wanted: set<PartKey>, keys: seq<PartKey>): set<PartKey> {
    set pk | pk in wanted && pk !in keys
  }

  /** Uploads that should have been aborted and were not. */
  function Spared(uploads: map<Upload, int>, stale: set<Upload>): set<Upload> {
    set u | u in uploads && u in stale
  }

  /** Parts left behind by uploads that were aborted. */
  function Residue(uploads: map<Upload, int>, parts: map<PartKey, seq<BlockId>>, stale: set<Upload>): set<PartKey> {
    set pk | pk in parts && pk.upload in stale && pk.upload !in uploads
  }

  lemma ReapStep(start: map<PartKey, seq<BlockId>>, was: map<PartKey, seq<BlockId>>, parts: map<PartKey, seq<BlockId>>,
                 keys: seq<PartKey>, i: nat)
    requires i < |keys| && Less(start, was, keys[..i])
    requires parts == was || (keys[i] in was && parts == was - {keys[i]})
    ensures Less(start, parts, keys[..i + 1])
    ensures parts != was || keys[i] !in was ==> |Stuck(keys[..i + 1], parts)| <= |Stuck(keys[..i], was)|
    ensures |Stuck(keys[..i + 1], parts)| <= |Stuck(keys[..i], was)| + 1
    ensures parts != was ==> |parts| + 1 == |was|
  {
    assert keys[..i + 1] == keys[..i] + [keys[i]];
    var stuck := Stuck(keys[..i + 1], parts);
    SubsetIsSmaller(stuck, Stuck(keys[..i], was) + {keys[i]});
    if keys[i] !in parts { SubsetIsSmaller(stuck, Stuck(keys[..i], was)); }
    if parts != was { CardDrop(was, keys[i]); }
  }

  lemma ScanStep(wanted: set<PartKey>, left: set<PartKey>, pk: PartKey, keys: seq<PartKey>)
    requires pk in left
    ensures |Unlisted(wanted - (left - {pk}), keys)| <= |Unlisted(wanted - left, keys)| + 1
    ensures pk !in wanted ==> |Unlisted(wanted - (left - {pk}), keys)| <= |Unlisted(wanted - left, keys)|
    ensures |Unlisted(wanted - (left - {pk}), keys + [pk])| <= |Unlisted(wanted - left, keys)|
  {
    var more := wanted - (left - {pk});
    SubsetIsSmaller(Unlisted(more, keys), Unlisted(wanted - left, keys) + {pk});
    if pk !in wanted { SubsetIsSmaller(Unlisted(more, keys), Unlisted(wanted - left, keys)); }
    SubsetIsSmaller(Unlisted(more, keys + [pk]), Unlisted(wanted - left, keys));
  }

  lemma PartsLeft(before: map<PartKey, seq<BlockId>>, parts: map<PartKey, seq<BlockId>>, keys: seq<PartKey>, u: Upload)
    requires Less(before, parts, keys) && forall pk :: pk in keys ==> pk in PartsOf(before, u)
    ensures LessOf(before, parts, u)
    ensures |PartsOf(parts, u)| <= |Unlisted(PartsOf(before, u), keys)| + |Stuck(keys, parts)|
  {
    SubsetIsSmaller(PartsOf(parts, u), Unlisted(PartsOf(before, u), keys) + Stuck(keys, parts));
  }

  lemma OrphansLeft(before: map<PartKey, seq<BlockId>>, parts: map<PartKey, seq<BlockId>>, uploads: map<Upload, int>,
                    orphans: seq<PartKey>)
    requires Less(before, parts, orphans)
    ensures |Orphans(parts, uploads)| <= |Unlisted(Orphans(before, uploads), orphans)| + |Stuck(orphans, parts)|
  {
    SubsetIsSmaller(Orphans(parts, uploads), Unlisted(Orphans(before, uploads), orphans) + Stuck(orphans, parts));
  }

  lemma AbortStep(had: map<Upload, int>, uploads: map<Upload, int>, held: map<PartKey, seq<BlockId>>,
                  parts: map<PartKey, seq<BlockId>>, stale: set<Upload>, u: Upload)
    requires LessOf(held, parts, u) && (uploads == had || uploads == had - {u}) && u !in stale
    ensures uploads == had ==>
              |Spared(uploads, stale + {u})| <= |Spared(had, stale)| + 1 &&
              (u in had ==> |Residue(uploads, parts, stale + {u})| <= |Residue(had, held, stale)|)
    ensures u !in uploads ==>
              |Spared(uploads, stale + {u})| <= |Spared(had, stale)| &&
              |Residue(uploads, parts, stale + {u})| <= |Residue(had, held, stale)| + |PartsOf(parts, u)|
    ensures u in had && u !in uploads ==> |uploads| + 1 == |had|
  {
    SubsetIsSmaller(Spared(uploads, stale + {u}), Spared(had, stale) + {u});
    if u !in uploads { SubsetIsSmaller(Spared(uploads, stale + {u}), Spared(had, stale)); }
    SubsetIsSmaller(Residue(uploads, parts, stale + {u}), Residue(had, held, stale) + PartsOf(parts, u));
    if u in uploads { SubsetIsSmaller(Residue(uploads, parts, stale + {u}), Residue(had, held, stale)); }
    if u in had && u !in uploads { CardDrop(had, u); }
  }

  lemma SparedAreAged(was: map<Upload, int>, uploads: map<Upload, int>, cutoff: int)
    requires forall u :: u in uploads ==> u in was && uploads[u] == was[u]
    ensures Spared(uploads, Aged(was, cutoff)) == Aged(uploads, cutoff)
  {
  }

  /** Every stale upload is gone, and no other. */
  lemma CalmUploads(was: map<Upload, int>, uploads: map<Upload, int>, cutoff: int)
    requires (forall u :: u in uploads ==> u in was && uploads[u] == was[u]) && |Aged(uploads, cutoff)| <= 0
    requires forall u :: u in was && u !in Aged(was, cutoff) ==> u in uploads
    ensures uploads == was - Aged(was, cutoff) && |was| - |uploads| == |Aged(was, cutoff)|
  {
    forall u | u in uploads ensures was[u] >= cutoff { assert u !in Aged(uploads, cutoff); }
    assert uploads == was - Aged(was, cutoff);
    assert uploads.Keys == was.Keys - Aged(was, cutoff);
  }

  /** Every orphan is gone, and no other part. */
  lemma CalmParts(uploads: map<Upload, int>, mid: map<PartKey, seq<BlockId>>, parts: map<PartKey, seq<BlockId>>)
    requires |Orphans(parts, uploads)| <= 0 && forall pk :: pk in parts ==> pk in mid && parts[pk] == mid[pk]
    requires forall pk :: pk in mid && pk.upload in uploads ==> pk in parts
    ensures parts == mid - Orphans(mid, uploads) && |mid| - |parts| == |Orphans(mid, uploads)|
  {
    forall pk | pk in parts ensures pk.upload in uploads { assert pk !in Orphans(parts, uploads); }
    assert parts == mid - Orphans(mid, uploads);
    assert parts.Keys == mid.Keys - Orphans(mid, uploads);
  }

  /** Between the phases exactly the orphans of before are left to reap. */
  lemma CalmMiddle(was: map<Upload, int>, uploads: map<Upload, int>, held: map<PartKey, seq<BlockId>>,
                   mid: map<PartKey, seq<BlockId>>, stale: set<Upload>)
    requires Within(was, uploads, held, mid, stale) && uploads == was - stale && stale <= was.Keys
    requires |Residue(uploads, mid, stale)| <= 0
    ensures Orphans(mid, uploads) == Orphans(held, was)
    ensures mid - Orphans(mid, uploads) == held - (set pk | pk in held && pk.upload !in uploads)
  {
    forall pk | pk in mid ensures pk.upload !in stale { assert pk !in Residue(uploads, mid, stale); }
    assert Orphans(mid, uploads) == Orphans(held, was);
    forall pk | pk in held && pk.upload in uploads ensures pk in mid { assert pk.upload !in stale; }
  }

  /** A sweep that met no fault. */
  lemma CalmSweep(was: map<Upload, int>, uploads: map<Upload, int>, held: map<PartKey, seq<BlockId>>,
                  mid: map<PartKey, seq<BlockId>>, parts: map<PartKey, seq<BlockId>>, cutoff: int)
    requires Within(was, uploads, held, mid, Aged(was, cutoff)) && |Aged(uploads, cutoff)| <= 0
    requires |Residue(uploads, mid, Aged(was, cutoff))| <= 0 && |Orphans(parts, uploads)| <= 0
    requires forall pk :: pk in parts ==> pk in mid && parts[pk] == mid[pk]
    requires forall pk :: pk in mid && pk.upload in uploads ==> pk in parts
    ensures uploads == was - Aged(was, cutoff) && |was| - |uploads| == |Aged(was, cutoff)|
    ensures parts == held - (set pk | pk in held && pk.upload !in uploads)
    ensures |mid| - |parts| == |Orphans(held, was)|
  {
    var stale := Aged(was, cutoff);
    CalmUploads(was, uploads, cutoff);
    CalmParts(uploads, mid, parts);
    CalmMiddle(was, uploads, held, mid, stale);
  }

  /** At most the uploads in `stale`, and their parts, are gone; what is left is
      as it was. */
  ghost predicate Within(was: map<Upload, int>, uploads: map<Upload, int>,
                         before: map<PartKey, seq<BlockId>>, parts: map<PartKey, seq<BlockId>>, stale: set<Upload>) {
    && uploads.Keys <= was.Keys && (forall u :: u in uploads ==> uploads[u] == was[u])
    && (forall u :: u in was && u !in stale ==> u in uploads)
    && parts.Keys <= before.Keys && (forall pk :: pk in parts ==> parts[pk] == before[pk])
    && (forall pk :: pk in before && pk.upload !in stale ==> pk in parts)
  }

  function Aged(uploads: map<Upload, int>, cutoff: int): set<Upload> {
    set u | u in uploads && uploads[u] < cutoff
  }

  /** The claim has walked over the first `i` numbers. */
  ghost predicate TakenSoFar(parts: map<PartKey, seq<BlockId>>, tx: map<PartKey, seq<BlockId>>,
                             taken: seq<seq<BlockId>>, u: Upload, numbers: seq<int>, i: nat)
    requires i <= |numbers|
  {
    && |taken| == i && NoDup(numbers[..i])
    && (forall k :: 0 <= k < i ==> PartKey(u, numbers[k]) in parts && taken[k] == parts[PartKey(u, numbers[k])])
    && tx == parts - (set k | k in Named(u, numbers[..i]))
    && Flatten(taken) == Joined(parts, Named(u, numbers[..i]))
  }

  lemma TakenStep(parts: map<PartKey, seq<BlockId>>, tx: map<PartKey, seq<BlockId>>, taken: seq<seq<BlockId>>,
                  u: Upload, numbers: seq<int>, i: nat)
    requires i < |numbers| && TakenSoFar(parts, tx, taken, u, numbers, i)
    ensures var pk := PartKey(u, numbers[i]);
            if pk in tx then TakenSoFar(parts, tx - {pk}, taken + [tx[pk]], u, numbers, i + 1)
            else FirstMissing(parts, u, numbers, i)
  {
    var pk := PartKey(u, numbers[i]);
    NamedStep(u, numbers, i);
    if pk in tx {
      JoinedSnoc(parts, Named(u, numbers[..i]), pk);
      FlattenStep(taken, tx[pk]);
    }
  }

  lemma NamedStep(u: Upload, numbers: seq<int>, i: nat)
    requires i < |numbers|
    ensures Named(u, numbers[..i + 1]) == Named(u, numbers[..i]) + [PartKey(u, numbers[i])]
    ensures PartKey(u, numbers[i]) in Named(u, numbers[..i]) <==> numbers[i] in numbers[..i]
    ensures NoDup(numbers[..i]) && numbers[i] !in numbers[..i] ==> NoDup(numbers[..i + 1])
  {
    var before, keys := numbers[..i], Named(u, numbers[..i]);
    assert numbers[..i + 1] == before + [numbers[i]];
    if numbers[i] in before {
      var k :| 0 <= k < i && before[k] == numbers[i];
      assert keys[k] == PartKey(u, numbers[i]);
    }
    if PartKey(u, numbers[i]) in keys {
      var k :| 0 <= k < i && keys[k] == PartKey(u, numbers[i]);
      assert before[k] == numbers[i];
    }
  }

  lemma {:induction false} JoinedSnoc(parts: map<PartKey, seq<BlockId>>, keys: seq<PartKey>, pk: PartKey)
    requires (forall k :: k in keys ==> k in parts) && pk in parts
    ensures Joined(parts, keys + [pk]) == Joined(parts, keys) + parts[pk]
    decreases |keys|
  {
    if keys == [] {
      assert [pk][1..] == [];
    } else {
      assert (keys + [pk])[1..] == keys[1..] + [pk];
      JoinedSnoc(parts, keys[1..], pk);
    }
  }
}
