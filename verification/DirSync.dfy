/** Which directories a write syncs, and in what order. */
module DirSync {
  import opened Ids

  /** A directory below the blocks root, by its components; the root is []. */
  type Path = seq<string>

  function Parent(p: Path): Path
    requires p != []
  {
    p[..|p| - 1]
  }

  datatype Event = Rename(dir: Path) | SyncFile | SyncDir(dir: Path)

  /** With every directory its parent is in the set too, up to the root. */
  ghost predicate ParentClosed(known: set<Path>) {
    [] in known && forall p :: p in known && p != [] ==> Parent(p) in known
  }

  /** The directories a landing in `dirs` has to sync: those it lands in, and
      every ancestor of one that is not known to be durable. */
  ghost predicate Planned(known: set<Path>, dirs: seq<Path>, p: Path) {
    p in dirs || (p !in known && exists d :: d in dirs && p <= d)
  }

  ghost predicate DeepestFirst(chain: seq<Path>) {
    forall i, j :: 0 <= i < j < |chain| ==> |chain[i]| >= |chain[j]|
  }

  /** Everything below an unknown directory is unknown. */
  lemma {:induction false} UnknownBelow(known: set<Path>, p: Path, d: Path)
    requires ParentClosed(known) && p <= d && p !in known
    ensures d !in known
    decreases |d|
  {
    if p == d {
    } else {
      assert p <= Parent(d);
      UnknownBelow(known, p, Parent(d));
    }
  }

  /** Adding a plan keeps the set closed, also when other writers have added
      theirs since it was made. */
  lemma PlanKeepsClosed(known: set<Path>, later: set<Path>, dirs: seq<Path>, chain: seq<Path>)
    requires ParentClosed(known) && ParentClosed(later) && known <= later
    requires forall p :: p in chain <==> Planned(known, dirs, p)
    ensures ParentClosed(later + set p | p in chain)
  {
    forall p | p in chain && p != [] ensures Parent(p) in known || Parent(p) in chain {
      var d :| d in dirs && p <= d;
      assert Parent(p) <= d;
    }
  }

  /** Whatever else a batch lands: the parent of a landing directory is synced if and
      only if it is not known durable, or is landed in itself. A parent that is known
      durable and has just gained this child directory is not synced again. */
  lemma KnownParentIsLeftAlone(known: set<Path>, dirs: seq<Path>, d: Path)
    requires d in dirs && d != []
    ensures Planned(known, dirs, Parent(d)) <==> Parent(d) !in known || Parent(d) in dirs
  {
    assert Parent(d) <= d;
  }

  function Inserted(chain: seq<Path>, j: nat, p: Path): (r: seq<Path>)
    requires j <= |chain|
    ensures |r| == |chain| + 1
    ensures forall k :: 0 <= k < |r| ==> r[k] == if k < j then chain[k] else if k == j then p else chain[k - 1]
  {
    chain[..j] + [p] + chain[j..]
  }

  lemma InsertedHas(chain: seq<Path>, j: nat, p: Path, q: Path)
    requires j <= |chain|
    ensures q in Inserted(chain, j, p) <==> q in chain || q == p
  {
    var r := Inserted(chain, j, p);
    if q in chain {
      var k :| 0 <= k < |chain| && chain[k] == q;
      assert r[if k < j then k else k + 1] == q;
    }
    assert r[j] == p;
  }

  lemma InsertedNoDup(chain: seq<Path>, j: nat, p: Path)
    requires j <= |chain| && NoDup(chain) && p !in chain
    ensures NoDup(Inserted(chain, j, p))
  {
  }

  lemma InsertedDeepest(chain: seq<Path>, j: nat, p: Path)
    requires j <= |chain| && DeepestFirst(chain)
    requires (forall k :: 0 <= k < j ==> |chain[k]| >= |p|) && (j < |chain| ==> |chain[j]| < |p|)
    ensures DeepestFirst(Inserted(chain, j, p))
  {
  }

  /** Inserts a directory behind all that are at least as deep. */
  method InsertByDepth(chain: seq<Path>, p: Path) returns (r: seq<Path>)
    requires DeepestFirst(chain)
    ensures DeepestFirst(r) && |r| == |chain| + 1 && (forall q :: q in r <==> q in chain || q == p)
    ensures NoDup(chain) && p !in chain ==> NoDup(r)
  {
    var j := 0;
    while j < |chain| && |chain[j]| >= |p|
      invariant 0 <= j <= |chain| && forall k :: 0 <= k < j ==> |chain[k]| >= |p|
    {
      j := j + 1;
    }
    r := Inserted(chain, j, p);
    forall q ensures q in r <==> q in chain || q == p { InsertedHas(chain, j, p, q); }
    if NoDup(chain) && p !in chain { InsertedNoDup(chain, j, p); }
    InsertedDeepest(chain, j, p);
  }

  /** The sort of the plan: deepest first. */
  method SortByDepth(chain: seq<Path>) returns (r: seq<Path>)
    requires NoDup(chain)
    ensures DeepestFirst(r) && NoDup(r) && |r| == |chain| && forall q :: q in r <==> q in chain
  {
    r := [];
    for i := 0 to |chain|
      invariant DeepestFirst(r) && NoDup(r) && |r| == i && forall q :: q in r <==> q in chain[..i]
    {
      assert chain[..i + 1] == chain[..i] + [chain[i]];
      assert chain[i] !in chain[..i];
      r := InsertByDepth(r, chain[i]);
    }
    assert chain[..|chain|] == chain;
  }

  // ------------------------------------------------------------- the plan

  /** The directories collected so far for `dirs`, each once. */
  ghost predicate Collected(known: set<Path>, dirs: seq<Path>, chain: seq<Path>, planned: set<Path>) {
    NoDup(chain) && (forall p :: p in chain <==> p in planned) && forall p :: p in planned <==> Planned(known, dirs, p)
  }

  predicate Between(low: Path, p: Path, high: Path) { low <= p <= high }

  lemma BetweenParent(cursor: Path, p: Path, dir: Path)
    requires cursor != [] && cursor <= dir
    ensures Between(Parent(cursor), p, dir) <==> p == Parent(cursor) || Between(cursor, p, dir)
    ensures Between(dir, p, dir) <==> p == dir
  {
    if Between(Parent(cursor), p, dir) && p != Parent(cursor) {
      assert |p| > |Parent(cursor)|;
      assert p[..|cursor|] == dir[..|cursor|] == cursor;
    }
    if Between(dir, p, dir) { assert |p| == |dir|; }
  }

  /** One landing directory: itself, then its parents up to the first that is
      known durable or planned already. */
  method PlanOne(known: set<Path>, ghost dirs: seq<Path>, dir: Path, chain: seq<Path>, planned: set<Path>)
      returns (chain': seq<Path>, planned': set<Path>)
    requires ParentClosed(known) && dir != [] && Collected(known, dirs, chain, planned)
    ensures Collected(known, dirs + [dir], chain', planned')
  {
    var cursor := dir;
    chain', planned' := chain, planned;
    if cursor !in planned' {
      chain', planned' := chain' + [cursor], planned' + {cursor};
    }
    forall p ensures Between(dir, p, dir) <==> p == dir { BetweenParent(dir, p, dir); }
    while true
      invariant cursor != [] && cursor <= dir && NoDup(chain') && forall p :: p in chain' <==> p in planned'
      invariant forall p :: p in planned' <==> Planned(known, dirs, p) || Between(cursor, p, dir)
      invariant forall p :: Between(cursor, p, dir) && p != dir ==> p !in known
      decreases |cursor|
    {
      var parent := Parent(cursor);
      if parent in known || parent in planned' {
        PlanStops(known, dirs, dir, cursor);
        break;
      }
      chain', planned' := chain' + [parent], planned' + {parent};
      forall p
        ensures Between(parent, p, dir) <==> p == parent || Between(cursor, p, dir)
      {
        BetweenParent(cursor, p, dir);
      }
      cursor := parent;
      assert cursor != [];
    }
  }

  /** Stopping at a parent that is durable or planned leaves nothing out. */
  lemma PlanStops(known: set<Path>, dirs: seq<Path>, dir: Path, cursor: Path)
    requires ParentClosed(known) && cursor != [] && cursor <= dir
    requires Parent(cursor) in known || Planned(known, dirs, Parent(cursor)) || Between(cursor, Parent(cursor), dir)
    requires forall p :: Between(cursor, p, dir) && p != dir ==> p !in known
    ensures forall p :: Planned(known, dirs + [dir], p) <==> Planned(known, dirs, p) || Between(cursor, p, dir)
  {
    var all, parent := dirs + [dir], Parent(cursor);
    assert dir in all && forall d :: d in dirs ==> d in all;
    forall p | Planned(known, all, p) ensures Planned(known, dirs, p) || Between(cursor, p, dir) {
      if p != dir && p !in dirs {
        var d :| d in all && p <= d;
        if d == dir && !(cursor <= p) {
          assert p <= parent;
          if parent in known { UnknownBelow(known, p, parent); }
          if parent !in dirs {
            var e :| e in dirs && parent <= e;
            assert p <= e;
          }
        }
      }
    }
  }

  method PlanAll(known: set<Path>, dirs: seq<Path>) returns (chain: seq<Path>)
    requires ParentClosed(known) && forall d :: d in dirs ==> d != []
    ensures NoDup(chain) && forall p :: p in chain <==> Planned(known, dirs, p)
  {
    chain := [];
    var planned: set<Path> := {};
    for i := 0 to |dirs|
      invariant Collected(known, dirs[..i], chain, planned)
    {
      assert dirs[..i + 1] == dirs[..i] + [dirs[i]] && dirs[i] in dirs;
      chain, planned := PlanOne(known, dirs[..i], dirs[i], chain, planned);
    }
    assert dirs[..|dirs|] == dirs;
  }

  // ----------------------------------------------------------- the writer

  /** What a log says was synced. */
  ghost predicate Synced(log: seq<Event>, p: Path) {
    exists i :: 0 <= i < |log| && log[i] == SyncDir(p)
  }

  function Renames(dirs: seq<Path>): seq<Event> {
    seq(|dirs|, i requires 0 <= i < |dirs| => Rename(dirs[i]))
  }

  function Syncs(chain: seq<Path>): seq<Event> {
    seq(|chain|, i requires 0 <= i < |chain| => SyncDir(chain[i]))
  }

  /** The atomic writer's directory cache. `log` is every rename and sync that
      took effect, in order; `refusals` counts those that did not. */
  class AtomicBlockWriter {
    const syncs: bool
    var known: set<Path>
    ghost var log: seq<Event>
    ghost var refusals: nat

    /** Open syncs the temp directory and the root before it claims them. */
    constructor (syncs: bool, tmp: string)
      ensures this.syncs == syncs && refusals == 0 && Valid()
      ensures known == (if syncs then {[tmp], []} else {}) && log == if syncs then [SyncDir([tmp]), SyncDir([])] else []
    {
      this.syncs, refusals := syncs, 0;
      known := if syncs then {[tmp], []} else {};
      log := if syncs then [SyncDir([tmp]), SyncDir([])] else [];
      new;
      assert syncs ==> log[0] == SyncDir([tmp]) && log[1] == SyncDir([]);
    }

    /** Every directory claimed durable was synced, and with it its ancestors are
        claimed. Without syncing, nothing is claimed. */
    ghost predicate Valid()
      reads this`known, this`log
    {
      (forall p :: p in known ==> Synced(log, p)) && (if syncs then ParentClosed(known) else known == {})
    }

    /** A rename or a sync, which the system may refuse. */
    method Attempt(e: Event) returns (ok: bool)
      modifies this`log, this`refusals
      ensures log == if ok then old(log) + [e] else old(log)
      ensures refusals == old(refusals) + if ok then 0 else 1
    {
      ok := *;
      if ok { log := log + [e]; } else { refusals := refusals + 1; }
    }

    /** Syncs a chain in order, stopping at the first failure. */
    method SyncChain(chain: seq<Path>) returns (ok: bool)
      modifies this`log, this`refusals
      ensures old(log) <= log <= old(log) + Syncs(chain) && (ok ==> log == old(log) + Syncs(chain))
      ensures refusals == old(refusals) + if ok then 0 else 1
    {
      for i := 0 to |chain|
        invariant log == old(log) + Syncs(chain[..i]) && refusals == old(refusals)
      {
        assert Syncs(chain[..i + 1]) == Syncs(chain[..i]) + [SyncDir(chain[i])];
        ok := Attempt(SyncDir(chain[i]));
        if !ok {
          assert Syncs(chain[..i]) == Syncs(chain)[..i];
          return;
        }
      }
      assert chain[..|chain|] == chain;
      ok := true;
    }

    /** Renames a batch into place, stopping at the first failure. */
    method RenameAll(dirs: seq<Path>) returns (ok: bool)
      modifies this`log, this`refusals
      ensures old(log) <= log <= old(log) + Renames(dirs) && (ok ==> log == old(log) + Renames(dirs))
      ensures refusals == old(refusals) + if ok then 0 else 1
    {
      for i := 0 to |dirs|
        invariant log == old(log) + Renames(dirs[..i]) && refusals == old(refusals)
      {
        assert Renames(dirs[..i + 1]) == Renames(dirs[..i]) + [Rename(dirs[i])];
        ok := Attempt(Rename(dirs[i]));
        if !ok {
          assert Renames(dirs[..i]) == Renames(dirs)[..i];
          return;
        }
      }
      assert dirs[..|dirs|] == dirs;
      ok := true;
    }

    /** Claims a synced chain. */
    method Extend(ghost dirs: seq<Path>, chain: seq<Path>)
      requires syncs && Valid() && (forall p :: p in chain <==> Planned(known, dirs, p))
      requires forall p :: p in chain ==> Synced(log, p)
      modifies this`known
      ensures Valid() && known == old(known) + set p | p in chain
    {
      PlanKeepsClosed(known, known, dirs, chain);
      known := known + set p | p in chain;
    }

    /** `land_batch`: every rename first; then each planned directory once, deepest
        first; only then are they claimed. The first failure ends it and claims
        nothing. */
    method LandBatch(dirs: seq<Path>) returns (ok: bool, ghost chain: seq<Path>)
      requires Valid() && forall d :: d in dirs ==> d != []
      modifies this
      ensures Valid() && old(log) <= log <= old(log) + Renames(dirs) + Syncs(chain)
      ensures refusals == old(refusals) + if ok then 0 else 1
      ensures !ok || !syncs ==> known == old(known)
      ensures ok && !syncs ==> log == old(log) + Renames(dirs)
      ensures chain == [] ||
              (NoDup(chain) && DeepestFirst(chain) && forall p :: p in chain <==> Planned(old(known), dirs, p))
      ensures ok && syncs ==>
                && log == old(log) + Renames(dirs) + Syncs(chain)
                && NoDup(chain) && DeepestFirst(chain) && (forall p :: p in chain <==> Planned(old(known), dirs, p))
                && known == old(known) + set p | p in chain
    {
      chain := [];
      ok := RenameAll(dirs);
      LongerLog(old(log), log, known);
      if !ok || !syncs { return; }
      var plan := PlanAll(known, dirs);
      var sorted := SortByDepth(plan);
      chain := sorted;
      ghost var renamed := log;
      ok := SyncChain(sorted);
      LongerLog(renamed, log, known);
      if ok {
        ChainSynced(renamed, sorted);
        Extend(dirs, sorted);
      }
    }

    /** `fsync_chain_deepest_up`: the directory and its ancestors up to the first
        that is known durable, deepest first. */
    method FsyncChainDeepestUp(dir: Path) returns (ok: bool, ghost chain: seq<Path>)
      requires syncs && Valid() && dir != []
      modifies this
      ensures Valid() && old(log) <= log <= old(log) + Syncs(chain) && (!ok ==> known == old(known))
      ensures refusals == old(refusals) + if ok then 0 else 1
      ensures ok ==>
                && log == old(log) + Syncs(chain)
                && NoDup(chain) && DeepestFirst(chain) && (forall p :: p in chain <==> p !in old(known) && p <= dir)
                && known == old(known) + set p | p in chain
    {
      var up: seq<Path>, cursor := [], dir;
      while cursor !in known
        invariant cursor <= dir && NoDup(up) && DeepestFirst(up)
        invariant forall p :: p in up <==> p != cursor && Between(cursor, p, dir)
        invariant forall p :: p in up ==> p !in known && |p| > |cursor|
        decreases |cursor|
      {
        forall p ensures Between(Parent(cursor), p, dir) <==> p == Parent(cursor) || Between(cursor, p, dir) {
          BetweenParent(cursor, p, dir);
        }
        up := up + [cursor];
        cursor := Parent(cursor);
      }
      chain := up;
      forall p ensures p in up <==> p !in known && p <= dir {
        if p !in known && p <= dir {
          if p <= cursor { UnknownBelow(known, p, cursor); }
          assert cursor <= p;
        }
      }
      ok := SyncChain(up);
      LongerLog(old(log), log, known);
      if ok {
        ChainSynced(old(log), up);
        ClaimUnknown(dir, up);
      }
    }

    method ClaimUnknown(ghost dir: Path, chain: seq<Path>)
      requires syncs && Valid() && (forall p :: p in chain <==> p !in known && p <= dir)
      requires forall p :: p in chain ==> Synced(log, p)
      modifies this`known
      ensures Valid() && known == old(known) + set p | p in chain
    {
      forall p | p in chain && p != [] ensures Parent(p) in known || Parent(p) in chain { assert Parent(p) <= dir; }
      known := known + set p | p in chain;
    }

    /** `write_block` at the syncing level, from the sync of its temp file on: the
        chain is durable before the rename, the landing directory after it. */
    method WriteBlock(dir: Path) returns (ok: bool, ghost chain: seq<Path>)
      requires Valid() && dir != []
      modifies this
      ensures Valid() && old(log) <= log && old(known) <= known
      ensures refusals == old(refusals) + if ok then 0 else 1
      ensures !syncs ==> log <= old(log) + [Rename(dir)]
      ensures syncs ==> log <= old(log) + [SyncFile] + Syncs(chain) + [Rename(dir), SyncDir(dir)]
      ensures ok && !syncs ==> log == old(log) + [Rename(dir)] && known == old(known)
      ensures ok && syncs ==>
                && log == old(log) + [SyncFile] + Syncs(chain) + [Rename(dir), SyncDir(dir)]
                && NoDup(chain) && DeepestFirst(chain) && (forall p :: p in chain <==> p !in old(known) && p <= dir)
                && known == old(known) + set p | p in chain
    {
      chain := [];
      if syncs {
        ok := Attempt(SyncFile);
        LongerLog(old(log), log, known);
        if !ok { return; }
        ok, chain := FsyncChainDeepestUp(dir);
        if !ok { return; }
      }
      ghost var l1 := log;
      ok := Attempt(Rename(dir));
      LongerLog(l1, log, known);
      if !ok || !syncs { return; }
      ghost var l2 := log;
      ok := Attempt(SyncDir(dir));
      LongerLog(l2, log, known);
    }
  }

  lemma OneElement(chain: seq<Path>, p: Path)
    requires NoDup(chain) && forall q :: q in chain <==> q == p
    ensures chain == [p]
  {
    assert p in chain;
    assert chain[0] in chain && chain[|chain| - 1] in chain;
  }

  /** The first block under a new directory of the root, right after open: the root
      gained a directory entry, and is not synced after it. */
  method NewChildOfTheRoot(tmp: string, dir: string) returns (ok: bool, ghost log: seq<Event>)
    requires dir != tmp
    ensures ok ==> log == [SyncDir([tmp]), SyncDir([]), Rename([dir]), SyncDir([dir])]
  {
    var w := new AtomicBlockWriter(true, tmp);
    ghost var chain;
    ghost var known := w.known;
    ok, chain := w.LandBatch([[dir]]);
    log := w.log;
    if ok {
      forall p ensures Planned(known, [[dir]], p) <==> p == [dir] {
        if p <= [dir] && p != [dir] { assert p == []; }
      }
      OneElement(chain, [dir]);
    }
  }

  lemma LongerLog(before: seq<Event>, after: seq<Event>, known: set<Path>)
    requires before <= after && forall p :: p in known ==> Synced(before, p)
    ensures forall p :: p in known ==> Synced(after, p)
  {
    forall p | p in known ensures Synced(after, p) {
      var i :| 0 <= i < |before| && before[i] == SyncDir(p);
      assert after[i] == SyncDir(p);
    }
  }

  lemma ChainSynced(before: seq<Event>, chain: seq<Path>)
    ensures forall p :: p in chain ==> Synced(before + Syncs(chain), p)
  {
    forall p | p in chain ensures Synced(before + Syncs(chain), p) {
      var i :| 0 <= i < |chain| && chain[i] == p;
      assert (before + Syncs(chain))[|before| + i] == SyncDir(p);
    }
  }
}
