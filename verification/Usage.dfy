/** The per-bucket usage ledger and the quota checked against it. */
module Usage {
  import opened Ids
  import opened Accounting
  import opened Protocol
  import opened Words

  /** Reduction to a signed 64-bit value, two's complement. */
  function Wrap(x: int): int {
    var m := x % TwoTo64;
    if m < TwoTo63 then m else m - TwoTo64
  }

  /** `size as i64 - previous as i64`. */
  function Delta(size: u64, previous: u64): int {
    Wrap(Wrap(size) - Wrap(previous))
  }

  /** `add_bucket_usage`: saturating upwards, clamped to zero downwards. */
  function Moved(current: u64, delta: int): u64 {
    if delta >= 0 then if current + delta < TwoTo64 then current + delta else MaxU64
    else if -delta > current then 0
    else current + delta
  }

  lemma WrapPeriod(x: int, k: int)
    ensures Wrap(x + k * TwoTo64) == Wrap(x)
  {
    assert (x + k * TwoTo64) % TwoTo64 == x % TwoTo64 by {
      var q, r := x / TwoTo64, x % TwoTo64;
      assert x + k * TwoTo64 == (q + k) * TwoTo64 + r;
      RemainderIsUnique(x + k * TwoTo64, q + k, r);
    }
  }

  lemma RemainderIsUnique(x: int, q: int, r: int)
    requires x == q * TwoTo64 + r && 0 <= r < TwoTo64
    ensures x % TwoTo64 == r
  {
    var q', r' := x / TwoTo64, x % TwoTo64;
    assert (q - q') * TwoTo64 == r' - r;
  }

  /** The wrapped difference is the true one exactly when that fits 64 signed
      bits. */
  lemma DeltaIsExact(size: u64, previous: u64)
    ensures Delta(size, previous) == size - previous <==> -TwoTo63 <= size - previous < TwoTo63
    ensures size - previous >= TwoTo63 ==> Delta(size, previous) < 0
    ensures size - previous < -TwoTo63 ==> Delta(size, previous) > 0
  {
    var a, b := if size < TwoTo63 then 0 else 1, if previous < TwoTo63 then 0 else 1;
    assert Wrap(size) == size - a * TwoTo64 && Wrap(previous) == previous - b * TwoTo64;
    assert Wrap(size) - Wrap(previous) == (size - previous) + (b - a) * TwoTo64;
    WrapPeriod(size - previous, b - a);
    if size - previous >= 0 {
      RemainderIsUnique(size - previous, 0, size - previous);
    } else {
      RemainderIsUnique(size - previous, -1, size - previous + TwoTo64);
    }
  }

  /** The difference is taken modulo 2^64, into the signed range. */
  lemma DeltaIsCongruent(size: u64, previous: u64) returns (k: int)
    ensures Delta(size, previous) == size - previous + k * TwoTo64 && -TwoTo63 <= Delta(size, previous) < TwoTo63
  {
    var a, b := if size < TwoTo63 then 0 else 1, if previous < TwoTo63 then 0 else 1;
    var x := Wrap(size) - Wrap(previous);
    assert Wrap(size) == size - a * TwoTo64 && Wrap(previous) == previous - b * TwoTo64;
    k := b - a - x / TwoTo64 - if x % TwoTo64 < TwoTo63 then 0 else 1;
  }

  /** The counter moves as near to the true sum as its range allows. */
  lemma MovedIsNearest(current: u64, delta: int, other: u64)
    ensures var sum, moved := current + delta, Moved(current, delta);
            (if moved <= sum then sum - moved else moved - sum) <= (if other <= sum then sum - other else other - sum)
  {
  }

  /** A counter that read the truth before a write reads the truth after it
      exactly when the difference fits 64 signed bits and the new total fits the
      counter. */
  lemma MoveIsExact(current: u64, size: u64, previous: u64)
    requires previous <= current
    ensures Moved(current, Delta(size, previous)) == current - previous + size
       <==> -TwoTo63 <= size - previous < TwoTo63 && current - previous + size < TwoTo64
  {
    DeltaIsExact(size, previous);
  }

  // -------------------------------------------------------------- the ledger

  datatype Object = Object(size: u64, blocks: seq<BlockId>)

  type Objects = map<ObjectKey, Object>

  /** The namespace database: object records and the counter rows. */
  datatype Ledger = Ledger(objects: Objects, usage: map<string, u64>)

  function SizeAt(objects: Objects, k: ObjectKey): u64 {
    if k in objects then objects[k].size else 0
  }

  function SizeFor(k: ObjectKey, o: Object, bucket: string): nat { if k.bucket == bucket then o.size else 0 }

  function SizeIn(bucket: string): (ObjectKey, Object) -> nat {
    (k: ObjectKey, o: Object) => SizeFor(k, o, bucket)
  }

  /** Logical bytes the records of a bucket add up to. */
  ghost function Held(objects: Objects, bucket: string): nat {
    SumOver(objects, SizeIn(bucket))
  }

  lemma HeldDrop(objects: Objects, k: ObjectKey, bucket: string)
    ensures Held(objects, bucket) == Held(objects - {k}, bucket) + if k.bucket == bucket then SizeAt(objects, k) else 0
  {
    SumDrop(objects, SizeIn(bucket), k);
  }

  lemma HeldPut(objects: Objects, k: ObjectKey, o: Object, bucket: string)
    ensures Held(objects[k := o], bucket) + (if k.bucket == bucket then SizeAt(objects, k) else 0)
         == Held(objects, bucket) + if k.bucket == bucket then o.size else 0
  {
    HeldDrop(objects[k := o], k, bucket);
    HeldDrop(objects, k, bucket);
    assert objects[k := o] - {k} == objects - {k};
  }

  datatype Write = Replace(key: ObjectKey, record: Object) | Delete(key: ObjectKey)

  function NewSize(w: Write): u64 { if w.Replace? then w.record.size else 0 }

  function RowAfter(l: Ledger, w: Write): u64 {
    Moved(if w.key.bucket in l.usage then l.usage[w.key.bucket] else 0, Delta(NewSize(w), SizeAt(l.objects, w.key)))
  }

  /** One committed transaction: the record and the counter move together. A
      delete of an absent key moves nothing. */
  function Apply(l: Ledger, w: Write): Ledger {
    match w
    case Replace(k, o) => Ledger(l.objects[k := o], l.usage[k.bucket := RowAfter(l, w)])
    case Delete(k) =>
      if k in l.objects then Ledger(l.objects - {k}, l.usage[k.bucket := RowAfter(l, w)]) else l
  }

  /** A bucket whose counter reads the sum of its records' sizes. */
  ghost predicate Accurate(l: Ledger, bucket: string) {
    bucket in l.usage && l.usage[bucket] == Held(l.objects, bucket)
  }

  /** The write's size difference fits a signed 64-bit value and the bucket's new
      total fits the counter. */
  ghost predicate FitsCounter(l: Ledger, w: Write) {
    && -TwoTo63 <= NewSize(w) - SizeAt(l.objects, w.key) < TwoTo63
    && Held(l.objects, w.key.bucket) - SizeAt(l.objects, w.key) + NewSize(w) < TwoTo64
  }

  /** The write moves the bucket's counter. */
  predicate Touches(l: Ledger, w: Write, bucket: string) {
    w.key.bucket == bucket && (w.Replace? || w.key in l.objects)
  }

  /** An accurate counter stays accurate through a write exactly when the write
      fits it; other buckets are not affected at all. */
  lemma ApplyIsAccurate(l: Ledger, w: Write, bucket: string)
    requires Accurate(l, bucket)
    ensures Touches(l, w, bucket) ==> (Accurate(Apply(l, w), bucket) <==> FitsCounter(l, w))
    ensures !Touches(l, w, bucket) ==> Accurate(Apply(l, w), bucket)
  {
    HeldDrop(l.objects, w.key, bucket);
    if w.Replace? { HeldPut(l.objects, w.key, w.record, bucket); }
    if w.key.bucket == bucket {
      MoveIsExact(l.usage[bucket], NewSize(w), SizeAt(l.objects, w.key));
    }
  }

  /** Every write that moves the bucket's counter fits it in its turn. */
  ghost predicate AllFit(l: Ledger, run: seq<Write>, bucket: string)
    decreases |run|
  {
    run == [] || ((Touches(l, run[0], bucket) ==> FitsCounter(l, run[0])) && AllFit(Apply(l, run[0]), run[1..], bucket))
  }

  /** The counter reads the truth after each write of the run. */
  ghost predicate AlwaysAccurate(l: Ledger, run: seq<Write>, bucket: string)
    decreases |run|
  {
    Accurate(l, bucket) && (run == [] || AlwaysAccurate(Apply(l, run[0]), run[1..], bucket))
  }

  function ApplyAll(l: Ledger, run: seq<Write>): Ledger
    decreases |run|
  {
    if run == [] then l else ApplyAll(Apply(l, run[0]), run[1..])
  }

  /** Through any interleaving of replace and delete transactions, in any buckets, the
      counter of a bucket that starts accurate is the sum of its sizes all along, if
      and only if each of its own writes fits in its turn. */
  lemma {:induction false} LedgerIsExact(l: Ledger, run: seq<Write>, bucket: string)
    requires Accurate(l, bucket)
    ensures AlwaysAccurate(l, run, bucket) <==> AllFit(l, run, bucket)
    ensures AllFit(l, run, bucket) ==> Accurate(ApplyAll(l, run), bucket)
    decreases |run|
  {
    if run != [] {
      ApplyIsAccurate(l, run[0], bucket);
      if Accurate(Apply(l, run[0]), bucket) { LedgerIsExact(Apply(l, run[0]), run[1..], bucket); }
    }
  }

  /** The records of all other buckets, and those of this one. */
  function Outside(objects: Objects, bucket: string): Objects {
    map k | k in objects && k.bucket != bucket :: objects[k]
  }

  function Inside(objects: Objects, bucket: string): Objects {
    map k | k in objects && k.bucket == bucket :: objects[k]
  }

  /** The namespace half of the write and delete paths. */
  class Namespace {
    var rows: set<string>
    var objects: Objects
    var usage: map<string, u64>
    ghost var faults: nat

    constructor ()
      ensures rows == {} && objects == map[] && usage == map[] && faults == 0
    {
      rows, objects, usage, faults := {}, map[], map[], 0;
    }

    function Value(): Ledger
      reads this
    {
      Ledger(objects, usage)
    }

    method Attempt() returns (ok: bool)
      modifies this`faults
      ensures faults == old(faults) + if ok then 0 else 1
    {
      ok := *;
      if !ok { faults := faults + 1; }
    }

    /** `replace_object_record`: writes the record, moves the counter by the
        difference, and hands back what it displaced; or does nothing. */
    method ReplaceObjectRecord(k: ObjectKey, o: Object) returns (ok: bool, displaced: Option<Object>)
      modifies this`objects, this`usage, this`faults
      ensures faults == old(faults) + if ok then 0 else 1
      ensures !ok ==> Value() == old(Value()) && displaced.None?
      ensures ok ==> Value() == Apply(old(Value()), Replace(k, o)) && objects == old(objects)[k := o]
      ensures ok ==> displaced == if k in old(objects) then Some(old(objects)[k]) else None
    {
      var tx, row := objects, usage;
      displaced := if k in tx then Some(tx[k]) else None;
      tx := tx[k := o];
      var previous: u64 := if displaced.Some? then displaced.value.size else 0;
      var current: u64 := if k.bucket in row then row[k.bucket] else 0;
      row := row[k.bucket := Moved(current, Delta(o.size, previous))];
      ok := Attempt();
      if ok { objects, usage := tx, row; } else { displaced := None; }
    }

    /** The transaction of `delete_object`: takes the record and gives its bytes
        back to the counter; an absent key moves nothing. */
    method TakeObject(k: ObjectKey) returns (ok: bool, taken: Option<Object>)
      modifies this`objects, this`usage, this`faults
      ensures faults == old(faults) + if ok then 0 else 1
      ensures !ok ==> Value() == old(Value()) && taken.None?
      ensures ok ==> Value() == Apply(old(Value()), Delete(k)) && objects == old(objects) - {k}
      ensures ok ==> taken == if k in old(objects) then Some(old(objects)[k]) else None
    {
      var tx, row := objects, usage;
      taken := if k in tx then Some(tx[k]) else None;
      if taken.Some? {
        tx := tx - {k};
        var current: u64 := if k.bucket in row then row[k.bucket] else 0;
        row := row[k.bucket := Moved(current, Delta(0, taken.value.size))];
      }
      ok := Attempt();
      if ok { objects, usage := tx, row; } else { taken := None; }
    }

    /** `drop_bucket`: the bucket's row, its counter and its tree, one after another.
        Only the last step takes the records. */
    method DropBucket(bucket: string) returns (ok: bool)
      modifies this
      ensures ok <==> faults == old(faults)
      ensures ok ==> rows == old(rows) - {bucket} && usage == old(usage) - {bucket}
      ensures ok ==> objects == Outside(old(objects), bucket)
      ensures !ok ==> objects == old(objects) && (rows == old(rows) || rows == old(rows) - {bucket})
      ensures !ok ==> usage == old(usage) || (usage == old(usage) - {bucket} && rows == old(rows) - {bucket})
    {
      ok := Attempt();
      if !ok { return; }
      rows := rows - {bucket};
      ok := Attempt();
      if !ok { return; }
      usage := usage - {bucket};
      ok := Attempt();
      if !ok { return; }
      objects := Outside(objects, bucket);
    }
  }

  // --------------------------------------------------------------- the quota

  /** Writes of fresh keys against a namespace with a limit: the counter, and the
      sizes of the writes that passed the check and have not committed yet. */
  datatype Quota = Quota(usage: u64, inFlight: seq<nat>)

  datatype QuotaStep =
    | Check(size: nat)       // refuse_over_quota with nothing to replace
    | Commit(i: nat)         // the write's transaction moves the counter
    | Fail(i: nat)           // the write fails after its check
    | Shrink(bytes: nat)     // a delete gives bytes back

  function Without(s: seq<nat>, i: nat): seq<nat>
    requires i < |s|
  {
    s[..i] + s[i + 1..]
  }

  function SaturatingAdd(a: u64, b: nat): u64 {
    if a + b < TwoTo64 then a + b else MaxU64
  }

  function SaturatingSub(a: u64, b: nat): u64 {
    if b <= a then a - b else 0
  }

  /** `refuse_over_quota`: what the counter would read after the write, against
      the limit. */
  predicate WithinQuota(limit: u64, usage: u64, adding: nat, replacing: nat) {
    SaturatingAdd(SaturatingSub(usage, replacing), adding) <= limit
  }

  /** The check is whether the counter would stay within the limit, for overwrites that
      shrink or grow a record as for fresh keys; the largest limit refuses nothing. */
  lemma QuotaMeans(limit: u64, usage: u64, adding: nat, replacing: nat)
    ensures WithinQuota(limit, usage, adding, replacing) <==>
            limit == MaxU64 || (adding <= limit && usage + adding <= limit + replacing)
  {
  }

  /** The source's remark that shrinking a record is never refused holds exactly
      when the namespace is not still over its limit afterwards. */
  lemma ShrinkingIsAccepted(limit: u64, usage: u64, adding: nat, replacing: nat)
    requires adding <= replacing <= usage
    ensures WithinQuota(limit, usage, adding, replacing) <==> usage <= limit + (replacing - adding)
    ensures usage <= limit ==> WithinQuota(limit, usage, adding, replacing)
  {
  }

  /** A namespace over its limit, by a lowered limit or by writes in flight,
      refuses to replace a record by a smaller one. */
  lemma ShrinkingIsRefused()
    ensures !WithinQuota(50, 100, 9, 10)
  {
  }

  /** A step the environment can take with at most `k` writes in flight, each of
      at most `most` bytes. */
  predicate QuotaEnabled(q: Quota, limit: u64, most: nat, k: nat, a: QuotaStep) {
    match a
    case Check(size) => size <= most && |q.inFlight| < k
    case Commit(i) => i < |q.inFlight|
    case Fail(i) => i < |q.inFlight|
    case Shrink(bytes) => bytes <= q.usage
  }

  function QuotaNext(q: Quota, limit: u64, most: nat, k: nat, a: QuotaStep): Quota
    requires QuotaEnabled(q, limit, most, k, a)
  {
    match a
    case Check(size) => if WithinQuota(limit, q.usage, size, 0) then q.(inFlight := q.inFlight + [size]) else q
    case Commit(i) => Quota(SaturatingAdd(q.usage, q.inFlight[i]), Without(q.inFlight, i))
    case Fail(i) => q.(inFlight := Without(q.inFlight, i))
    case Shrink(bytes) => q.(usage := q.usage - bytes)
  }

  ghost predicate QuotaRun(q: Quota, limit: u64, most: nat, k: nat, run: seq<QuotaStep>)
    decreases |run|
  {
    run == [] || (QuotaEnabled(q, limit, most, k, run[0]) &&
                  QuotaRun(QuotaNext(q, limit, most, k, run[0]), limit, most, k, run[1..]))
  }

  ghost function QuotaExec(q: Quota, limit: u64, most: nat, k: nat, run: seq<QuotaStep>): Quota
    requires QuotaRun(q, limit, most, k, run)
    decreases |run|
  {
    if run == [] then q else QuotaExec(QuotaNext(q, limit, most, k, run[0]), limit, most, k, run[1..])
  }

  function Sum(s: seq<nat>): nat {
    if s == [] then 0 else s[0] + Sum(s[1..])
  }

  lemma {:induction false} SumSplit(a: seq<nat>, b: seq<nat>)
    ensures Sum(a + b) == Sum(a) + Sum(b)
    decreases |a|
  {
    if a == [] {
      assert a + b == b;
    } else {
      assert (a + b)[1..] == a[1..] + b;
      SumSplit(a[1..], b);
    }
  }

  lemma SumWithout(s: seq<nat>, i: nat)
    requires i < |s|
    ensures Sum(s) == Sum(Without(s, i)) + s[i]
    ensures forall x :: x in Without(s, i) ==> x in s
  {
    assert s == s[..i] + ([s[i]] + s[i + 1..]);
    SumSplit(s[..i], [s[i]] + s[i + 1..]);
    SumSplit(s[..i], s[i + 1..]);
    assert ([s[i]] + s[i + 1..])[1..] == s[i + 1..];
  }

  lemma {:induction false} SumBound(s: seq<nat>, most: nat)
    requires forall x :: x in s ==> x <= most
    ensures Sum(s) <= |s| * most
    decreases |s|
  {
    if s != [] {
      assert s[0] in s && forall x :: x in s[1..] ==> x in s;
      SumBound(s[1..], most);
      assert |s| * most == most + (|s| - 1) * most;
    }
  }

  /** What is stored and what may still be stored on the strength of checks that
      passed never exceeds the limit by more than all writes in flight but one. */
  ghost predicate QuotaInv(q: Quota, limit: u64, most: nat, k: nat) {
    && |q.inFlight| <= k && (forall x :: x in q.inFlight ==> x <= most)
    && (limit == MaxU64 || q.usage + Sum(q.inFlight) <= limit + (k - 1) * most)
  }

  lemma QuotaStepKeeps(q: Quota, limit: u64, most: nat, k: nat, a: QuotaStep)
    requires k >= 1 && QuotaInv(q, limit, most, k) && QuotaEnabled(q, limit, most, k, a)
    ensures QuotaInv(QuotaNext(q, limit, most, k, a), limit, most, k)
  {
    match a
    case Check(size) =>
      SumSplit(q.inFlight, [size]);
      assert [size][1..] == [];
      SumBound(q.inFlight, most);
      assert |q.inFlight| * most <= (k - 1) * most by { if |q.inFlight| < k { MulMono(|q.inFlight|, k - 1, most); } }
    case Commit(i) => SumWithout(q.inFlight, i);
    case Fail(i) => SumWithout(q.inFlight, i);
    case Shrink(_) =>
  }

  lemma MulMono(a: nat, b: nat, m: nat)
    requires a <= b
    ensures a * m <= b * m
  {
  }

  lemma {:induction false} QuotaRunKeeps(q: Quota, limit: u64, most: nat, k: nat, run: seq<QuotaStep>)
    requires k >= 1 && QuotaInv(q, limit, most, k) && QuotaRun(q, limit, most, k, run)
    ensures QuotaInv(QuotaExec(q, limit, most, k, run), limit, most, k)
    decreases |run|
  {
    if run != [] {
      QuotaStepKeeps(q, limit, most, k, run[0]);
      QuotaRunKeeps(QuotaNext(q, limit, most, k, run[0]), limit, most, k, run[1..]);
    }
  }

  /** With a fixed limit, fresh keys and at most `k` writes of at most `most` bytes
      between their check and their commit, a namespace that starts within its
      limit never holds more than limit + (k - 1) * most. */
  lemma QuotaBound(start: u64, limit: u64, most: nat, k: nat, run: seq<QuotaStep>)
    requires k >= 1 && start <= limit && QuotaRun(Quota(start, []), limit, most, k, run)
    ensures QuotaExec(Quota(start, []), limit, most, k, run).usage <= limit + (k - 1) * most
  {
    MulMono(0, k - 1, most);
    QuotaRunKeeps(Quota(start, []), limit, most, k, run);
  }

  function Repeat<T>(x: T, n: nat): seq<T> { seq(n, _ => x) }

  /** `n` checks that all pass, then the rest of the run. */
  lemma {:induction false} ChecksPass(q: Quota, limit: u64, most: nat, k: nat, n: nat, rest: seq<QuotaStep>)
    requires WithinQuota(limit, q.usage, most, 0) && |q.inFlight| + n <= k
    requires QuotaRun(q.(inFlight := q.inFlight + Repeat(most, n)), limit, most, k, rest)
    ensures QuotaRun(q, limit, most, k, Repeat(Check(most), n) + rest)
    ensures QuotaExec(q, limit, most, k, Repeat(Check(most), n) + rest)
         == QuotaExec(q.(inFlight := q.inFlight + Repeat(most, n)), limit, most, k, rest)
    decreases n
  {
    var run := Repeat(Check(most), n) + rest;
    if n == 0 {
      assert run == rest && q.inFlight + Repeat(most, 0) == q.inFlight;
    } else {
      var q' := q.(inFlight := q.inFlight + [most]);
      assert run[0] == Check(most) && run[1..] == Repeat(Check(most), n - 1) + rest;
      assert q'.inFlight + Repeat(most, n - 1) == q.inFlight + Repeat(most, n);
      ChecksPass(q', limit, most, k, n - 1, rest);
      assert QuotaNext(q, limit, most, k, run[0]) == q';
    }
  }

  lemma {:induction false} CommitsLand(usage: u64, limit: u64, most: nat, k: nat, n: nat)
    requires usage + n * most < TwoTo64
    ensures QuotaRun(Quota(usage, Repeat(most, n)), limit, most, k, Repeat(Commit(0), n))
    ensures QuotaExec(Quota(usage, Repeat(most, n)), limit, most, k, Repeat(Commit(0), n))
              == Quota(usage + n * most, [])
    decreases n
  {
    var q, run := Quota(usage, Repeat(most, n)), Repeat(Commit(0), n);
    if n == 0 {
      assert run == [] && q.inFlight == [];
    } else {
      assert run[0] == Commit(0) && run[1..] == Repeat(Commit(0), n - 1);
      assert n * most == most + (n - 1) * most;
      MulMono(0, n - 1, most);
      assert Without(q.inFlight, 0) == Repeat(most, n - 1);
      CommitsLand(usage + most, limit, most, k, n - 1);
      assert QuotaNext(q, limit, most, k, run[0]) == Quota(usage + most, Repeat(most, n - 1));
    }
  }

  /** The bound is reached: `k` writes that all check before any commits. */
  lemma QuotaBoundIsTight(limit: u64, most: nat, k: nat) returns (run: seq<QuotaStep>)
    requires k >= 1 && most <= limit && limit + (k - 1) * most < TwoTo64
    ensures QuotaRun(Quota(limit - most, []), limit, most, k, run)
    ensures QuotaExec(Quota(limit - most, []), limit, most, k, run).usage == limit + (k - 1) * most
  {
    var q := Quota(limit - most, []);
    run := Repeat(Check(most), k) + Repeat(Commit(0), k);
    assert (limit - most) + k * most == limit + (k - 1) * most;
    CommitsLand(limit - most, limit, most, k, k);
    assert q.inFlight + Repeat(most, k) == Repeat(most, k);
    ChecksPass(q, limit, most, k, k, Repeat(Commit(0), k));
  }
}
