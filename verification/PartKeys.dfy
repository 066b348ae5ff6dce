/** Storage keys of multipart uploads and parts, and the scan that lists one
    upload's parts. */
module PartKeys {
  import opened Ids
  import opened Codec
  import opened Words

  /** What names an upload: bucket, key and upload id, as bytes. */
  datatype Triple = Triple(bucket: Bytes, key: Bytes, uploadId: Bytes)

  /** Lengths that fit the 64-bit fields. */
  predicate TripleOk(t: Triple) {
    |t.bucket| < TwoTo64 && |t.key| < TwoTo64 && |t.uploadId| < TwoTo64
  }

  const TripleShape: seq<Kind> := [Blob, Blob, Blob]

  function TripleFields(t: Triple): seq<Value> { [Raw(t.bucket), Raw(t.key), Raw(t.uploadId)] }

  /** `part_prefix`: the three strings, each behind its length. */
  function PartPrefix(t: Triple): Bytes
    requires TripleOk(t)
  {
    EncodeAll(TripleShape, TripleFields(t), AnyText)
  }

  /** The `k` low bytes of `n`, most significant first. */
  function BE(n: nat, k: nat): Bytes {
    if k == 0 then [] else BE(n / 256, k - 1) + [n % 256]
  }

  /** `part_number as u64`. */
  function Unsigned(number: int): nat
    requires NumberOk(number)
  {
    AsU64(number)
  }

  predicate NumberOk(number: int) { -TwoTo63 <= number < TwoTo63 }

  /** `part_key`: the prefix, then the part number as eight bytes, big-endian. */
  function PartKey(t: Triple, number: int): Bytes
    requires TripleOk(t) && NumberOk(number)
  {
    PartPrefix(t) + BE(Unsigned(number), 8)
  }

  /** `upload_key`: bucket and key behind their lengths, then the id. */
  function UploadKey(t: Triple): Bytes
    requires TripleOk(t)
  {
    EncodeAll([Blob, Blob], [Raw(t.bucket), Raw(t.key)], AnyText) + t.uploadId
  }

  // ----------------------------------------------------------- key order

  /** Byte-wise lexicographic order, the order the store iterates in. */
  predicate Less(a: Bytes, b: Bytes) {
    b != [] && (a == [] || a[0] < b[0] || (a[0] == b[0] && Less(a[1..], b[1..])))
  }

  lemma {:induction false} LessTrans(a: Bytes, b: Bytes, c: Bytes)
    requires Less(a, b) && Less(b, c)
    ensures Less(a, c)
    decreases |a|
  {
    if a != [] && a[0] == b[0] && b[0] == c[0] { LessTrans(a[1..], b[1..], c[1..]); }
  }

  lemma {:induction false} LessIrreflexive(a: Bytes)
    ensures !Less(a, a)
    decreases |a|
  {
    if a != [] { LessIrreflexive(a[1..]); }
  }

  lemma {:induction false} LessCommon(p: Bytes, a: Bytes, b: Bytes)
    ensures Less(p + a, p + b) <==> Less(a, b)
    decreases |p|
  {
    if p == [] {
      assert p + a == a && p + b == b;
    } else {
      assert (p + a)[1..] == p[1..] + a && (p + b)[1..] == p[1..] + b;
      LessCommon(p[1..], a, b);
    }
  }

  lemma {:induction false} LessLast(a: Bytes, b: Bytes, c: byte, d: byte)
    requires |a| == |b|
    ensures Less(a + [c], b + [d]) <==> Less(a, b) || (a == b && c < d)
    decreases |a|
  {
    if a == [] {
      assert a + [c] == [c] && b + [d] == [d];
      assert [c][1..] == [d][1..];
    } else {
      assert (a + [c])[1..] == a[1..] + [c] && (b + [d])[1..] == b[1..] + [d];
      LessLast(a[1..], b[1..], c, d);
      assert a == [a[0]] + a[1..] && b == [b[0]] + b[1..];
    }
  }

  /** A key beyond a prefix that does not carry it is beyond everything that
      does. */
  lemma {:induction false} BeyondPrefix(p: Bytes, b: Bytes, k: Bytes)
    requires Less(p, b) && !(p <= b) && p <= k
    ensures Less(k, b)
    decreases |p|
  {
    if p != [] && p[0] == b[0] {
      assert p[1..] <= k[1..];
      assert p[1..] <= b[1..] ==> p <= b;
      BeyondPrefix(p[1..], b[1..], k[1..]);
    }
  }

  /** A key sorts right behind every proper prefix of it. */
  lemma PrefixIsLess(p: Bytes, k: Bytes)
    requires p <= k && p != k
    ensures Less(p, k)
  {
    LessCommon(p, [], k[|p|..]);
    assert p + [] == p && p + k[|p|..] == k;
  }

  lemma {:induction false} BELength(n: nat, k: nat)
    ensures |BE(n, k)| == k
    decreases k
  {
    if k > 0 { BELength(n / 256, k - 1); }
  }

  /** Big-endian bytes of one width are ordered as the numbers are. */
  lemma {:induction false} BEOrder(a: nat, b: nat, k: nat)
    requires a < Pow256(k) && b < Pow256(k)
    ensures Less(BE(a, k), BE(b, k)) <==> a < b
    ensures BE(a, k) == BE(b, k) <==> a == b
    decreases k
  {
    if k > 0 {
      BEOrder(a / 256, b / 256, k - 1);
      BELength(a / 256, k - 1);
      BELength(b / 256, k - 1);
      var x, y := BE(a / 256, k - 1), BE(b / 256, k - 1);
      LessLast(x, y, a % 256, b % 256);
      if BE(a, k) == BE(b, k) {
        assert x == BE(a, k)[..k - 1] && y == BE(b, k)[..k - 1] && BE(a, k)[k - 1] == a % 256 &&
            BE(b, k)[k - 1] == b % 256;
      }
    }
  }

  // ---------------------------------------------------------- key identity

  /** What the three length-prefixed strings say in any buffer that starts with
      them. */
  lemma PrefixReads(t: Triple, buf: Bytes)
    requires TripleOk(t) && PartPrefix(t) <= buf && |buf| < TwoTo64
    ensures ReadAll(TripleShape, buf, 0, AnyText) == Got(TripleFields(t), |PartPrefix(t)|)
  {
    ReadAllBack(TripleShape, TripleFields(t), AnyText, buf, 0);
  }

  /** One upload's prefix starts another upload's part key only if they are the
      same upload. */
  lemma PrefixNamesOneUpload(t1: Triple, t2: Triple, number: int)
    requires TripleOk(t1) && TripleOk(t2) && NumberOk(number) && |PartKey(t2, number)| < TwoTo64
    ensures PartPrefix(t1) <= PartKey(t2, number) <==> t1 == t2
  {
    var key := PartKey(t2, number);
    PrefixReads(t2, key);
    if PartPrefix(t1) <= key {
      PrefixReads(t1, key);
      assert TripleFields(t1)[0] == TripleFields(t2)[0] && TripleFields(t1)[1] == TripleFields(t2)[1] &&
          TripleFields(t1)[2] == TripleFields(t2)[2];
    }
  }

  /** Different parts have different keys, and the parts of one upload are ordered
      by unsigned part number. */
  lemma PartKeysAreOrdered(t1: Triple, n1: int, t2: Triple, n2: int)
    requires TripleOk(t1) && TripleOk(t2) && NumberOk(n1) && NumberOk(n2)
    requires |PartKey(t1, n1)| < TwoTo64 && |PartKey(t2, n2)| < TwoTo64
    ensures PartKey(t1, n1) == PartKey(t2, n2) <==> t1 == t2 && n1 == n2
    ensures t1 == t2 ==> (Less(PartKey(t1, n1), PartKey(t2, n2)) <==> Unsigned(n1) < Unsigned(n2))
  {
    Pow256Values();
    PrefixNamesOneUpload(t1, t2, n2);
    BEOrder(Unsigned(n1), Unsigned(n2), 8);
    if t1 == t2 {
      LessCommon(PartPrefix(t1), BE(Unsigned(n1), 8), BE(Unsigned(n2), 8));
      if PartKey(t1, n1) == PartKey(t2, n2) {
        assert BE(Unsigned(n1), 8) == PartKey(t1, n1)[|PartPrefix(t1)|..] == PartKey(t2, n2)[|PartPrefix(t1)|..];
      }
    }
  }

  /** Different uploads have different record keys. */
  lemma UploadKeysAreDistinct(t1: Triple, t2: Triple)
    requires TripleOk(t1) && TripleOk(t2) && |UploadKey(t1)| < TwoTo64
    ensures UploadKey(t1) == UploadKey(t2) <==> t1 == t2
  {
    if UploadKey(t1) == UploadKey(t2) {
      var buf, ks := UploadKey(t1), [Blob, Blob];
      var v1, v2 := [Raw(t1.bucket), Raw(t1.key)], [Raw(t2.bucket), Raw(t2.key)];
      ReadAllBack(ks, v1, AnyText, buf, 0);
      ReadAllBack(ks, v2, AnyText, buf, 0);
      assert v1[0] == v2[0] && v1[1] == v2[1];
      var n := |EncodeAll(ks, v1, AnyText)|;
      assert t1.uploadId == UploadKey(t1)[n..] && t2.uploadId == UploadKey(t2)[n..];
    }
  }

  // -------------------------------------------------------------- the scan

  /** A tree in key order. */
  ghost predicate Sorted<V>(tree: seq<(Bytes, V)>) {
    forall i, j :: 0 <= i < j < |tree| ==> Less(tree[i].0, tree[j].0)
  }

  /** `parts_of`: from just behind the prefix to the first foreign key. Keys under
      one prefix are neighbours, so that is all of them. */
  method PartsOf<V>(tree: seq<(Bytes, V)>, prefix: Bytes) returns (found: seq<(Bytes, V)>, from: nat)
    requires Sorted(tree)
    ensures from + |found| <= |tree| && found == tree[from..from + |found|]
    ensures forall i :: 0 <= i < |tree| ==> (from <= i < from + |found| <==> prefix <= tree[i].0 && tree[i].0 != prefix)
  {
    from := 0;
    while from < |tree| && !Less(prefix, tree[from].0)
      invariant from <= |tree| && forall i :: 0 <= i < from ==> !Less(prefix, tree[i].0)
    {
      from := from + 1;
    }
    var to := from;
    found := [];
    while to < |tree| && prefix <= tree[to].0
      invariant from <= to <= |tree| && found == tree[from..to]
      invariant forall i :: from <= i < to ==> prefix <= tree[i].0 && Less(prefix, tree[i].0)
      invariant to < |tree| ==> Less(prefix, tree[to].0)
    {
      found := found + [tree[to]];
      if to + 1 < |tree| { LessTrans(prefix, tree[to].0, tree[to + 1].0); }
      to := to + 1;
    }
    forall i | 0 <= i < |tree| ensures from <= i < to <==> prefix <= tree[i].0 && tree[i].0 != prefix {
      LessIrreflexive(prefix);
      if prefix <= tree[i].0 && tree[i].0 != prefix { PrefixIsLess(prefix, tree[i].0); }
      if i >= to { StoppedRightly(tree, prefix, to, i); }
    }
  }

  lemma StoppedRightly<V>(tree: seq<(Bytes, V)>, prefix: Bytes, to: nat, i: nat)
    requires Sorted(tree) && to <= i < |tree| && Less(prefix, tree[to].0) && !(prefix <= tree[to].0)
    ensures !(prefix <= tree[i].0)
  {
    LessIrreflexive(tree[to].0);
    if to < i && prefix <= tree[i].0 {
      BeyondPrefix(prefix, tree[to].0, tree[i].0);
      LessTrans(tree[to].0, tree[i].0, tree[to].0);
    }
  }

  /** The entry is filed under the key of part `part`. */
  ghost predicate FiledAs<V>(entry: (Bytes, V), part: (Triple, int)) {
    TripleOk(part.0) && NumberOk(part.1) && entry.0 == PartKey(part.0, part.1) && |entry.0| < TwoTo64
  }

  /** Over a tree of part keys the scan lists exactly the upload's parts, in
      ascending part number. */
  lemma ScanIsThePartsInOrder<V>(tree: seq<(Bytes, V)>, parts: seq<(Triple, int)>, t: Triple, i: nat, j: nat)
    requires Sorted(tree) && |parts| == |tree| && TripleOk(t)
    requires forall k :: 0 <= k < |tree| ==> FiledAs(tree[k], parts[k])
    requires i < |tree| && j < |tree|
    ensures PartPrefix(t) <= tree[i].0 && tree[i].0 != PartPrefix(t) <==> parts[i].0 == t
    ensures FiledAs(tree[i], parts[i]) && FiledAs(tree[j], parts[j])
    ensures i < j && parts[i].0 == t && parts[j].0 == t ==> Unsigned(parts[i].1) < Unsigned(parts[j].1)
  {
    PrefixNamesOneUpload(t, parts[i].0, parts[i].1);
    BELength(Unsigned(parts[i].1), 8);
    PartKeysAreOrdered(parts[i].0, parts[i].1, parts[j].0, parts[j].1);
  }
}
