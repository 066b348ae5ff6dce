/** The byte-level record codec: little-endian fields read by a cursor that
    rejects short and long buffers alike. */
module Codec {
  import opened Ids
  import opened Sequences
  import opened Words

  type Bytes = seq<byte>

  datatype FsError =
    | Truncated(needed: int, got: nat)
    | LengthOverflow
    | InvalidUtf8
    | TrailingBytes(extra: nat)
    | InvalidIdWidth(width: nat)
    | UnknownObjectType(tag: nat)

  datatype Result<+T> = Ok(value: T) | Err(error: FsError)

  /** A read at a position: the value and the position after it. */
  datatype Parsed<+T> = Got(value: T, next: nat) | Bad(error: FsError)

  // ------------------------------------------------------------- integers

  function Pow256(k: nat): nat {
    if k == 0 then 1 else 256 * Pow256(k - 1)
  }

  /** The `k` low bytes of `n`, least significant first. */
  function LE(n: nat, k: nat): Bytes
    decreases k, n
  {
    if k == 0 then [] else [n % 256] + LE(n / 256, k - 1)
  }

  function FromLE(s: Bytes): nat {
    if s == [] then 0 else s[0] + 256 * FromLE(s[1..])
  }

  lemma {:induction false} LELength(n: nat, k: nat)
    ensures |LE(n, k)| == k
    decreases k
  {
    if k > 0 { LELength(n / 256, k - 1); }
  }

  lemma {:induction false} FromLEBound(s: Bytes)
    ensures FromLE(s) < Pow256(|s|)
    decreases |s|
  {
    if s != [] { FromLEBound(s[1..]); }
  }

  lemma {:induction false} LERoundTrip(n: nat, k: nat)
    requires n < Pow256(k)
    ensures |LE(n, k)| == k && FromLE(LE(n, k)) == n
    decreases k
  {
    if k > 0 {
      LERoundTrip(n / 256, k - 1);
      assert LE(n, k)[1..] == LE(n / 256, k - 1);
    }
  }

  lemma {:induction false} LECanonical(s: Bytes)
    ensures LE(FromLE(s), |s|) == s
    decreases |s|
  {
    if s != [] {
      var rest := FromLE(s[1..]);
      assert (s[0] + 256 * rest) / 256 == rest && (s[0] + 256 * rest) % 256 == s[0];
      LECanonical(s[1..]);
      assert s == [s[0]] + s[1..];
    }
  }

  lemma Pow256Values()
    ensures Pow256(1) == 256 && Pow256(2) == 65536 && Pow256(8) == TwoTo64
  {
    assert Pow256(2) == 256 * Pow256(1);
    assert Pow256(4) == 65536 * Pow256(2) by { assert Pow256(3) == 256 * Pow256(2); }
    assert Pow256(6) == 65536 * Pow256(4) by { assert Pow256(5) == 256 * Pow256(4); }
    assert Pow256(8) == 65536 * Pow256(6) by { assert Pow256(7) == 256 * Pow256(6); }
  }

  // --------------------------------------------------------------- fields

  /** The kinds of field a record is made of. */
  datatype Kind = U8 | Int(w: nat) | I64 | Fixed(n: nat) | Text | Blob | IdList

  datatype Value = Num(n: int) | Raw(bytes: Bytes) | Listed(ids: seq<BlockId>)

  /** Which byte strings are well-formed text. */
  type Utf8 = Bytes -> bool

  /** For records without text fields, whatever. */
  function AnyText(s: Bytes): bool { true }

  function IdWidth(ids: seq<BlockId>): nat {
    if ids == [] then 0 else |ids[0]|
  }

  predicate OneWidth(ids: seq<BlockId>) {
    forall i :: 0 <= i < |ids| ==> |ids[i]| == IdWidth(ids)
  }

  /** Values the field can carry. */
  predicate Fits(k: Kind, v: Value, utf8: Utf8) {
    match k
    case U8 => v.Num? && 0 <= v.n < 256
    case Int(w) => v.Num? && 0 <= v.n < Pow256(w)
    case I64 => v.Num? && -TwoTo63 <= v.n < TwoTo63
    case Fixed(n) => v.Raw? && |v.bytes| == n
    case Text => v.Raw? && |v.bytes| < TwoTo64 && utf8(v.bytes)
    case Blob => v.Raw? && |v.bytes| < TwoTo64
    case IdList => v.Listed? && OneWidth(v.ids) && |v.ids| * IdWidth(v.ids) < TwoTo64 && |v.ids| < TwoTo64
  }

  /** Two's complement in 64 bits. */
  function AsU64(n: int): nat
    requires -TwoTo63 <= n < TwoTo63
  {
    if n >= 0 then n else n + TwoTo64
  }

  function AsI64(n: nat): int { if n < TwoTo63 then n else n - TwoTo64 }

  /** `put_id_list`: width byte, count, ids. */
  function EncodeIds(ids: seq<BlockId>): Bytes {
    [IdWidth(ids)] + (LE(|ids|, 8) + Flatten(ids))
  }

  function Encode(k: Kind, v: Value, utf8: Utf8): Bytes
    requires Fits(k, v, utf8)
  {
    match k
    case U8 => [v.n]
    case Int(w) => LE(v.n, w)
    case I64 => LE(AsU64(v.n), 8)
    case Fixed(_) => v.bytes
    case Text => LE(|v.bytes|, 8) + v.bytes
    case Blob => LE(|v.bytes|, 8) + v.bytes
    case IdList => EncodeIds(v.ids)
  }

  // --------------------------------------------------------------- reading

  /** `take`: `len` bytes at `pos`, or why they are not there. */
  function Take(buf: Bytes, pos: nat, len: nat): Parsed<Bytes> {
    if pos + len >= TwoTo64 then Bad(LengthOverflow)
    else if pos + len > |buf| then Bad(Truncated(pos + len, |buf|))
    else Got(buf[pos..pos + len], pos + len)
  }

  function ReadInt(buf: Bytes, pos: nat, width: nat): Parsed<nat> {
    match Take(buf, pos, width)
    case Bad(e) => Bad(e)
    case Got(raw, next) => Got(FromLE(raw), next)
  }

  function ReadByte(buf: Bytes, pos: nat): Parsed<byte> {
    match Take(buf, pos, 1)
    case Bad(e) => Bad(e)
    case Got(raw, next) => Got(raw[0], next)
  }

  /** Length-prefixed bytes. */
  function ReadBlob(buf: Bytes, pos: nat): Parsed<Bytes> {
    match ReadInt(buf, pos, 8)
    case Bad(e) => Bad(e)
    case Got(len, at) => Take(buf, at, len)
  }

  /** Cuts `raw` into ids of one width. */
  function Cut(raw: Bytes, width: nat, count: nat): seq<BlockId>
    requires (width == NarrowWidth || width == WideWidth) && |raw| == count * width
    decreases count
  {
    if count == 0 then []
    else
      assert (count - 1) * width == |raw| - width;
      Cut(raw[..|raw| - width], width, count - 1) + [raw[|raw| - width..]]
  }

  /** The ids behind a width byte and a count. A zero width is legal only for no
      ids. */
  function ReadIdBytes(buf: Bytes, pos: nat, width: byte, count: nat): Parsed<seq<BlockId>> {
    if width == 0 && count == 0 then Got([], pos)
    else if width != NarrowWidth && width != WideWidth then Bad(InvalidIdWidth(width))
    else if count * width >= TwoTo64 then Bad(LengthOverflow)
    else
      match Take(buf, pos, count * width)
      case Bad(e) => Bad(e)
      case Got(raw, next) => Got(Cut(raw, width, count), next)
  }

  /** `id_list`: width, count, ids. */
  function ReadIds(buf: Bytes, pos: nat): Parsed<seq<BlockId>> {
    match ReadByte(buf, pos)
    case Bad(e) => Bad(e)
    case Got(width, at) =>
      match ReadInt(buf, at, 8)
      case Bad(e) => Bad(e)
      case Got(count, from) => ReadIdBytes(buf, from, width, count)
  }

  function Read(k: Kind, buf: Bytes, pos: nat, utf8: Utf8): Parsed<Value> {
    match k
    case U8 => (match ReadByte(buf, pos) case Bad(e) => Bad(e) case Got(n, next) => Got(Num(n), next))
    case Int(w) => (match ReadInt(buf, pos, w) case Bad(e) => Bad(e) case Got(n, next) => Got(Num(n), next))
    case I64 => (match ReadInt(buf, pos, 8) case Bad(e) => Bad(e) case Got(n, next) => Got(Num(AsI64(n)), next))
    case Fixed(n) => (match Take(buf, pos, n) case Bad(e) => Bad(e) case Got(raw, next) => Got(Raw(raw), next))
    case Blob => (match ReadBlob(buf, pos) case Bad(e) => Bad(e) case Got(raw, next) => Got(Raw(raw), next))
    case Text =>
      (match ReadBlob(buf, pos)
       case Bad(e) => Bad(e)
       case Got(raw, next) => if utf8(raw) then Got(Raw(raw), next) else Bad(InvalidUtf8))
    case IdList => (match ReadIds(buf, pos) case Bad(e) => Bad(e) case Got(ids, next) => Got(Listed(ids), next))
  }

  // ----------------------------------------------------- what was written

  /** `field` stands in the buffer at `pos`. */
  predicate Has(buf: Bytes, pos: nat, field: Bytes) {
    pos + |field| <= |buf| && buf[pos..pos + |field|] == field
  }

  lemma HasParts(buf: Bytes, pos: nat, a: Bytes, b: Bytes)
    requires Has(buf, pos, a + b)
    ensures Has(buf, pos, a) && Has(buf, pos + |a|, b)
  {
    var both := buf[pos..pos + |a + b|];
    assert both == a + b;
    assert buf[pos..pos + |a|] == both[..|a|] == a;
    assert buf[pos + |a|..pos + |a| + |b|] == both[|a|..] == b;
  }

  lemma IntBack(buf: Bytes, pos: nat, n: nat, w: nat)
    requires n < Pow256(w) && Has(buf, pos, LE(n, w)) && |buf| < TwoTo64
    ensures ReadInt(buf, pos, w) == Got(n, pos + w)
  {
    LERoundTrip(n, w);
  }

  lemma WordBack(buf: Bytes, pos: nat, n: nat, head: Bytes, tail: Bytes)
    requires n < TwoTo64 && head == LE(n, 8) && Has(buf, pos, head + tail) && |buf| < TwoTo64
    ensures ReadInt(buf, pos, 8) == Got(n, pos + 8) && |head| == 8 && Has(buf, pos + 8, tail)
  {
    Pow256Values();
    HasParts(buf, pos, head, tail);
    IntBack(buf, pos, n, 8);
    LELength(n, 8);
  }

  lemma TakeBack(buf: Bytes, pos: nat, raw: Bytes)
    requires Has(buf, pos, raw) && |buf| < TwoTo64
    ensures Take(buf, pos, |raw|) == Got(raw, pos + |raw|)
  {
  }

  lemma BlobBack(buf: Bytes, pos: nat, head: Bytes, raw: Bytes)
    requires head == LE(|raw|, 8) && Has(buf, pos, head + raw) && |buf| < TwoTo64
    ensures ReadBlob(buf, pos) == Got(raw, pos + |head + raw|)
  {
    WordBack(buf, pos, |raw|, head, raw);
    assert ReadBlob(buf, pos) == Take(buf, pos + 8, |raw|);
    TakeBack(buf, pos + 8, raw);
    assert |head + raw| == 8 + |raw|;
  }

  lemma {:induction false} CutJoin(ids: seq<BlockId>, w: nat)
    requires (w == NarrowWidth || w == WideWidth) && forall i :: 0 <= i < |ids| ==> |ids[i]| == w
    ensures |Flatten(ids)| == |ids| * w && Cut(Flatten(ids), w, |ids|) == ids
    decreases |ids|
  {
    if ids != [] {
      var n := |ids| - 1;
      CutJoin(ids[..n], w);
      assert (n + 1) * w == n * w + w;
      var raw := Flatten(ids);
      assert raw[..|raw| - w] == Flatten(ids[..n]) && raw[|raw| - w..] == ids[n];
      assert ids == ids[..n] + [ids[n]];
    }
  }

  /** The last id comes off the end. */
  lemma CutStep(raw: Bytes, w: nat, count: nat) returns (front: Bytes, last: BlockId)
    requires (w == NarrowWidth || w == WideWidth) && |raw| == count * w && count > 0
    ensures raw == front + last && |last| == w && |front| == (count - 1) * w
    ensures Cut(raw, w, count) == Cut(front, w, count - 1) + [last]
  {
    assert (count - 1) * w == |raw| - w;
    front, last := raw[..|raw| - w], raw[|raw| - w..];
  }

  lemma {:induction false} CutWidths(raw: Bytes, w: nat, count: nat)
    requires (w == NarrowWidth || w == WideWidth) && |raw| == count * w
    ensures |Cut(raw, w, count)| == count && forall i :: 0 <= i < count ==> |Cut(raw, w, count)[i]| == w
    decreases count
  {
    if count > 0 {
      var front, last := CutStep(raw, w, count);
      CutWidths(front, w, count - 1);
    }
  }

  lemma {:induction false} JoinCut(raw: Bytes, w: nat, count: nat)
    requires (w == NarrowWidth || w == WideWidth) && |raw| == count * w
    ensures Flatten(Cut(raw, w, count)) == raw
    decreases count
  {
    if count == 0 {
      assert raw == [];
    } else {
      var front, last := CutStep(raw, w, count);
      JoinCut(front, w, count - 1);
      FlattenStep(Cut(front, w, count - 1), last);
    }
  }

  lemma IdsSize(ids: seq<BlockId>)
    requires OneWidth(ids)
    ensures |Flatten(ids)| == |ids| * IdWidth(ids) && |EncodeIds(ids)| == 9 + |Flatten(ids)| && |ids| <= |Flatten(ids)|
  {
    LELength(|ids|, 8);
    if ids == [] { assert Flatten(ids) == []; } else { CutJoin(ids, IdWidth(ids)); }
  }

  lemma IdBytesBack(buf: Bytes, pos: nat, ids: seq<BlockId>)
    requires OneWidth(ids) && Has(buf, pos, Flatten(ids)) && |buf| < TwoTo64
    ensures ReadIdBytes(buf, pos, IdWidth(ids), |ids|) == Got(ids, pos + |Flatten(ids)|)
  {
    if ids == [] { assert Flatten(ids) == []; } else { CutJoin(ids, IdWidth(ids)); }
  }

  lemma IdsBack(buf: Bytes, pos: nat, ids: seq<BlockId>)
    requires OneWidth(ids) && Has(buf, pos, EncodeIds(ids)) && |buf| < TwoTo64
    ensures ReadIds(buf, pos) == Got(ids, pos + |EncodeIds(ids)|)
  {
    IdsSize(ids);
    var head := LE(|ids|, 8);
    HasParts(buf, pos, [IdWidth(ids)], head + Flatten(ids));
    assert buf[pos..pos + 1] == [IdWidth(ids)];
    WordBack(buf, pos + 1, |ids|, head, Flatten(ids));
    IdBytesBack(buf, pos + 9, ids);
  }

  /** A field written anywhere in a buffer is read back, and the cursor ends up
      just behind it. */
  lemma ReadBack(k: Kind, v: Value, utf8: Utf8, buf: Bytes, pos: nat)
    requires Fits(k, v, utf8) && Has(buf, pos, Encode(k, v, utf8)) && |buf| < TwoTo64
    ensures Read(k, buf, pos, utf8) == Got(v, pos + |Encode(k, v, utf8)|)
  {
    match k
    case U8 => assert buf[pos..pos + 1] == [v.n];
    case Int(w) => LELength(v.n, w); IntBack(buf, pos, v.n, w);
    case I64 => Pow256Values(); LELength(AsU64(v.n), 8); IntBack(buf, pos, AsU64(v.n), 8);
    case Fixed(n) =>
    case Text => BlobBack(buf, pos, LE(|v.bytes|, 8), v.bytes);
    case Blob => BlobBack(buf, pos, LE(|v.bytes|, 8), v.bytes);
    case IdList => IdsBack(buf, pos, v.ids);
  }

  // ------------------------------------------------ what more bytes change

  lemma TakeMore(buf: Bytes, more: Bytes, pos: nat, len: nat)
    requires Take(buf, pos, len).Got?
    ensures Take(buf + more, pos, len) == Take(buf, pos, len)
  {
    assert (buf + more)[pos..pos + len] == buf[pos..pos + len];
  }

  lemma IntMore(buf: Bytes, more: Bytes, pos: nat, w: nat)
    requires ReadInt(buf, pos, w).Got?
    ensures ReadInt(buf + more, pos, w) == ReadInt(buf, pos, w)
  {
    TakeMore(buf, more, pos, w);
  }

  lemma BlobMore(buf: Bytes, more: Bytes, pos: nat)
    requires ReadBlob(buf, pos).Got?
    ensures ReadBlob(buf + more, pos) == ReadBlob(buf, pos)
  {
    IntMore(buf, more, pos, 8);
    var len := ReadInt(buf, pos, 8);
    TakeMore(buf, more, len.next, len.value);
  }

  lemma IdsMore(buf: Bytes, more: Bytes, pos: nat)
    requires ReadIds(buf, pos).Got?
    ensures ReadIds(buf + more, pos) == ReadIds(buf, pos)
  {
    TakeMore(buf, more, pos, 1);
    var width := ReadByte(buf, pos);
    IntMore(buf, more, width.next, 8);
    var count := ReadInt(buf, width.next, 8);
    if !(width.value == 0 && count.value == 0) {
      TakeMore(buf, more, count.next, count.value * width.value);
    }
  }

  /** A field that can be read is read the same when bytes follow. */
  lemma ReadMore(k: Kind, buf: Bytes, more: Bytes, pos: nat, utf8: Utf8)
    requires Read(k, buf, pos, utf8).Got?
    ensures Read(k, buf + more, pos, utf8) == Read(k, buf, pos, utf8)
  {
    match k
    case U8 => TakeMore(buf, more, pos, 1);
    case Int(w) => IntMore(buf, more, pos, w);
    case I64 => IntMore(buf, more, pos, 8);
    case Fixed(n) => TakeMore(buf, more, pos, n);
    case Blob => BlobMore(buf, more, pos);
    case Text => BlobMore(buf, more, pos);
    case IdList => IdsMore(buf, more, pos);
  }

  // ------------------------------------------------------- what was accepted

  lemma IntCanonical(buf: Bytes, pos: nat, w: nat)
    requires ReadInt(buf, pos, w).Got?
    ensures var r := ReadInt(buf, pos, w);
            r.next == pos + w <= |buf| && buf[pos..r.next] == LE(r.value, w) && r.value < Pow256(w)
  {
    LECanonical(buf[pos..pos + w]);
    FromLEBound(buf[pos..pos + w]);
  }

  lemma BlobParts(buf: Bytes, pos: nat)
    requires ReadBlob(buf, pos).Got?
    ensures var r := ReadBlob(buf, pos);
            && |r.value| < TwoTo64 && pos + 8 <= r.next <= |buf| && r.next == pos + 8 + |r.value|
            && buf[pos..pos + 8] == LE(|r.value|, 8) && buf[pos + 8..r.next] == r.value
  {
    Pow256Values();
    IntCanonical(buf, pos, 8);
  }

  lemma BlobCanonical(buf: Bytes, pos: nat)
    requires ReadBlob(buf, pos).Got?
    ensures var r := ReadBlob(buf, pos);
            && |r.value| < TwoTo64 && pos <= r.next <= |buf| && r.next - pos == |LE(|r.value|, 8) + r.value|
            && buf[pos..r.next] == LE(|r.value|, 8) + r.value
  {
    BlobParts(buf, pos);
    var r := ReadBlob(buf, pos);
    LELength(|r.value|, 8);
    assert buf[pos..r.next] == buf[pos..pos + 8] + buf[pos + 8..r.next];
  }

  /** The spellings of an id list that are not the written one: no ids, under a
      width that is not zero. */
  predicate IdleWidth(buf: Bytes, pos: nat) {
    pos + 9 <= |buf| && (buf[pos] == NarrowWidth || buf[pos] == WideWidth) && buf[pos + 1..pos + 9] == LE(0, 8)
  }

  lemma IdBytesParts(buf: Bytes, pos: nat, w: byte, count: nat)
    requires ReadIdBytes(buf, pos, w, count).Got? && pos <= |buf|
    ensures var r := ReadIdBytes(buf, pos, w, count);
            && |r.value| == count && OneWidth(r.value) && Has(buf, pos, Flatten(r.value)) &&
                 r.next == pos + |Flatten(r.value)|
            && (count > 0 ==> IdWidth(r.value) == w) && (w == 0 || w == NarrowWidth || w == WideWidth)
            && |Flatten(r.value)| < TwoTo64
  {
    var r := ReadIdBytes(buf, pos, w, count);
    if w == 0 && count == 0 {
      assert Flatten(r.value) == [];
    } else {
      JoinCut(buf[pos..r.next], w, count);
      CutWidths(buf[pos..r.next], w, count);
    }
  }

  /** The width byte and the count in front of the ids. */
  lemma IdsHead(buf: Bytes, pos: nat) returns (count: nat)
    requires ReadIds(buf, pos).Got?
    ensures pos + 9 <= |buf| && count < TwoTo64 && Has(buf, pos + 1, LE(count, 8))
    ensures ReadIds(buf, pos) == ReadIdBytes(buf, pos + 9, buf[pos], count)
  {
    Pow256Values();
    IntCanonical(buf, pos + 1, 8);
    count := ReadInt(buf, pos + 1, 8).value;
    LELength(count, 8);
  }

  /** What an accepted id list is made of: a width byte, a count, the ids. */
  lemma IdsParts(buf: Bytes, pos: nat)
    requires ReadIds(buf, pos).Got?
    ensures var r := ReadIds(buf, pos);
            && pos + 9 <= r.next <= |buf| && Has(buf, pos + 1, LE(|r.value|, 8)) && Has(buf, pos + 9, Flatten(r.value))
            && r.next == pos + 9 + |Flatten(r.value)| && OneWidth(r.value) && |r.value| < TwoTo64 &&
                 |Flatten(r.value)| < TwoTo64
            && (r.value != [] ==> IdWidth(r.value) == buf[pos])
            && (buf[pos] == 0 || buf[pos] == NarrowWidth || buf[pos] == WideWidth)
  {
    var count := IdsHead(buf, pos);
    IdBytesParts(buf, pos + 9, buf[pos], count);
  }

  lemma Assembled(buf: Bytes, pos: nat, w: byte, head: Bytes, body: Bytes)
    requires |head| == 8 && pos < |buf| && Has(buf, pos + 1, head) && Has(buf, pos + 9, body)
    ensures Has(buf, pos, [w] + (head + body)) <==> buf[pos] == w
  {
    var all, end := [w] + (head + body), pos + 9 + |body|;
    assert buf[pos..end] == [buf[pos]] + (buf[pos + 1..pos + 9] + buf[pos + 9..end]);
    if buf[pos] != w { assert buf[pos..end][0] != all[0]; }
  }

  lemma CountsDiffer(count: nat)
    requires 0 < count < TwoTo64
    ensures LE(count, 8) != LE(0, 8)
  {
    Pow256Values();
    LERoundTrip(0, 8);
    LERoundTrip(count, 8);
  }

  lemma IdsCanonical(buf: Bytes, pos: nat)
    requires ReadIds(buf, pos).Got?
    ensures var r := ReadIds(buf, pos);
            && OneWidth(r.value) && |r.value| < TwoTo64 && |r.value| * IdWidth(r.value) < TwoTo64
            && pos <= r.next <= |buf| && r.next - pos == |EncodeIds(r.value)|
            && (buf[pos..r.next] == EncodeIds(r.value) <==> !IdleWidth(buf, pos))
  {
    IdsParts(buf, pos);
    var ids := ReadIds(buf, pos).value;
    IdsSize(ids);
    LELength(|ids|, 8);
    if ids != [] { CountsDiffer(|ids|); }
    Assembled(buf, pos, IdWidth(ids), LE(|ids|, 8), Flatten(ids));
  }

  /** A field that is read is a value the field can carry, and the bytes read are
      the ones it is written as; the one exception is an empty id list that names
      a width. */
  lemma ReadCanonical(k: Kind, buf: Bytes, pos: nat, utf8: Utf8)
    requires Read(k, buf, pos, utf8).Got?
    ensures var r := Read(k, buf, pos, utf8);
            && Fits(k, r.value, utf8) && pos <= r.next <= |buf| && r.next - pos == |Encode(k, r.value, utf8)|
            && (buf[pos..r.next] == Encode(k, r.value, utf8) <==> !(k.IdList? && IdleWidth(buf, pos)))
  {
    match k
    case U8 => assert buf[pos..pos + 1] == [buf[pos]];
    case Int(w) => IntCanonical(buf, pos, w); LELength(ReadInt(buf, pos, w).value, w);
    case I64 => Pow256Values(); IntCanonical(buf, pos, 8); LELength(ReadInt(buf, pos, 8).value, 8);
    case Fixed(n) =>
    case Blob => BlobCanonical(buf, pos);
    case Text => BlobCanonical(buf, pos);
    case IdList => IdsCanonical(buf, pos);
  }

  // --------------------------------------------------------------- records

  predicate AllFit(ks: seq<Kind>, vs: seq<Value>, utf8: Utf8) {
    |ks| == |vs| && forall i :: 0 <= i < |ks| ==> Fits(ks[i], vs[i], utf8)
  }

  function EncodeAll(ks: seq<Kind>, vs: seq<Value>, utf8: Utf8): Bytes
    requires AllFit(ks, vs, utf8)
  {
    if ks == [] then [] else Encode(ks[0], vs[0], utf8) + EncodeAll(ks[1..], vs[1..], utf8)
  }

  function ReadAll(ks: seq<Kind>, buf: Bytes, pos: nat, utf8: Utf8): Parsed<seq<Value>> {
    if ks == [] then Got([], pos)
    else
      match Read(ks[0], buf, pos, utf8)
      case Bad(e) => Bad(e)
      case Got(v, next) =>
        match ReadAll(ks[1..], buf, next, utf8)
        case Bad(e) => Bad(e)
        case Got(vs, end) => Got([v] + vs, end)
  }

  lemma ReadAllStep(ks: seq<Kind>, vs: seq<Value>, utf8: Utf8, buf: Bytes, pos: nat, next: nat, end: nat)
    requires ks != [] && |ks| == |vs| && Read(ks[0], buf, pos, utf8) == Got(vs[0], next)
    requires ReadAll(ks[1..], buf, next, utf8) == Got(vs[1..], end)
    ensures ReadAll(ks, buf, pos, utf8) == Got(vs, end)
  {
    assert vs == [vs[0]] + vs[1..];
  }

  lemma AllFitParts(ks: seq<Kind>, vs: seq<Value>, utf8: Utf8)
    requires AllFit(ks, vs, utf8) && ks != []
    ensures Fits(ks[0], vs[0], utf8) && AllFit(ks[1..], vs[1..], utf8)
    ensures EncodeAll(ks, vs, utf8) == Encode(ks[0], vs[0], utf8) + EncodeAll(ks[1..], vs[1..], utf8)
  {
  }

  lemma ReadAllHead(ks: seq<Kind>, vs: seq<Value>, utf8: Utf8, buf: Bytes, pos: nat, end: nat)
    requires ks != [] && ReadAll(ks, buf, pos, utf8) == Got(vs, end)
    ensures vs != [] && Read(ks[0], buf, pos, utf8).Got? && Read(ks[0], buf, pos, utf8).value == vs[0]
    ensures ReadAll(ks[1..], buf, Read(ks[0], buf, pos, utf8).next, utf8) == Got(vs[1..], end)
  {
    var f := Read(ks[0], buf, pos, utf8);
    var g := ReadAll(ks[1..], buf, f.next, utf8);
    assert vs == [f.value] + g.value;
    assert vs[1..] == g.value;
  }

  lemma {:induction false} ReadAllSplit(ks: seq<Kind>, vs: seq<Value>, n: nat, utf8: Utf8, buf: Bytes, pos: nat,
                                        mid: nat, end: nat)
    requires n <= |ks| == |vs|
    requires ReadAll(ks[..n], buf, pos, utf8) == Got(vs[..n], mid)
    requires ReadAll(ks[n..], buf, mid, utf8) == Got(vs[n..], end)
    ensures ReadAll(ks, buf, pos, utf8) == Got(vs, end)
    decreases n
  {
    if n == 0 {
      assert ks[n..] == ks && vs[n..] == vs;
    } else {
      ReadAllHead(ks[..n], vs[..n], utf8, buf, pos, mid);
      var next := Read(ks[0], buf, pos, utf8).next;
      assert ks[..n][1..] == ks[1..][..n - 1] && vs[..n][1..] == vs[1..][..n - 1];
      assert ks[n..] == ks[1..][n - 1..] && vs[n..] == vs[1..][n - 1..];
      ReadAllSplit(ks[1..], vs[1..], n - 1, utf8, buf, next, mid, end);
      ReadAllStep(ks, vs, utf8, buf, pos, next, end);
    }
  }

  lemma FieldBack(ks: seq<Kind>, vs: seq<Value>, utf8: Utf8, buf: Bytes, pos: nat)
    requires ks != [] && AllFit(ks, vs, utf8) && Has(buf, pos, EncodeAll(ks, vs, utf8)) && |buf| < TwoTo64
    ensures AllFit(ks[1..], vs[1..], utf8)
    ensures var r := Read(ks[0], buf, pos, utf8);
            && r.Got? && r.value == vs[0] && Has(buf, r.next, EncodeAll(ks[1..], vs[1..], utf8))
            && r.next + |EncodeAll(ks[1..], vs[1..], utf8)| == pos + |EncodeAll(ks, vs, utf8)|
  {
    AllFitParts(ks, vs, utf8);
    var first, rest := Encode(ks[0], vs[0], utf8), EncodeAll(ks[1..], vs[1..], utf8);
    HasParts(buf, pos, first, rest);
    ReadBack(ks[0], vs[0], utf8, buf, pos);
    assert |first + rest| == |first| + |rest|;
  }

  lemma {:induction false} ReadAllBack(ks: seq<Kind>, vs: seq<Value>, utf8: Utf8, buf: Bytes, pos: nat)
    requires AllFit(ks, vs, utf8) && Has(buf, pos, EncodeAll(ks, vs, utf8)) && |buf| < TwoTo64
    ensures ReadAll(ks, buf, pos, utf8) == Got(vs, pos + |EncodeAll(ks, vs, utf8)|)
    decreases |ks|
  {
    if ks != [] {
      FieldBack(ks, vs, utf8, buf, pos);
      var next := Read(ks[0], buf, pos, utf8).next;
      ReadAllBack(ks[1..], vs[1..], utf8, buf, next);
      ReadAllStep(ks, vs, utf8, buf, pos, next, pos + |EncodeAll(ks, vs, utf8)|);
    }
  }

  lemma {:induction false} ReadAllMore(ks: seq<Kind>, buf: Bytes, more: Bytes, pos: nat, utf8: Utf8)
    requires ReadAll(ks, buf, pos, utf8).Got?
    ensures ReadAll(ks, buf + more, pos, utf8) == ReadAll(ks, buf, pos, utf8)
    decreases |ks|
  {
    if ks != [] {
      ReadMore(ks[0], buf, more, pos, utf8);
      ReadAllMore(ks[1..], buf, more, Read(ks[0], buf, pos, utf8).next, utf8);
    }
  }

  /** Some id list of the record is empty but names a width. */
  predicate HasIdleWidth(ks: seq<Kind>, buf: Bytes, pos: nat, utf8: Utf8)
    decreases |ks|
  {
    ks != [] && Read(ks[0], buf, pos, utf8).Got? &&
    ((ks[0].IdList? && IdleWidth(buf, pos)) || HasIdleWidth(ks[1..], buf, Read(ks[0], buf, pos, utf8).next, utf8))
  }

  lemma CanonicalStep(buf: Bytes, pos: nat, mid: nat, end: nat, first: Bytes, rest: Bytes)
    requires pos <= mid <= end <= |buf| && |first| == mid - pos && |rest| == end - mid
    ensures buf[pos..end] == first + rest <==> buf[pos..mid] == first && buf[mid..end] == rest
  {
    Halves(buf[pos..mid], buf[mid..end], first, rest);
    assert buf[pos..end] == buf[pos..mid] + buf[mid..end];
  }

  lemma EncodeAllStep(ks: seq<Kind>, v: Value, vs: seq<Value>, utf8: Utf8)
    requires ks != [] && Fits(ks[0], v, utf8) && AllFit(ks[1..], vs, utf8)
    ensures AllFit(ks, [v] + vs, utf8)
    ensures EncodeAll(ks, [v] + vs, utf8) == Encode(ks[0], v, utf8) + EncodeAll(ks[1..], vs, utf8)
  {
    var all := [v] + vs;
    assert all[1..] == vs;
    forall i | 0 <= i < |ks| ensures Fits(ks[i], all[i], utf8) {
      if i > 0 { assert ks[i] == ks[1..][i - 1] && all[i] == vs[i - 1]; }
    }
  }

  lemma {:induction false} ReadAllCanonical(ks: seq<Kind>, buf: Bytes, pos: nat, utf8: Utf8)
    requires ReadAll(ks, buf, pos, utf8).Got? && pos <= |buf|
    ensures var r := ReadAll(ks, buf, pos, utf8);
            && AllFit(ks, r.value, utf8) && pos <= r.next <= |buf| && r.next - pos == |EncodeAll(ks, r.value, utf8)|
            && (buf[pos..r.next] == EncodeAll(ks, r.value, utf8) <==> !HasIdleWidth(ks, buf, pos, utf8))
    decreases |ks|
  {
    if ks != [] {
      var f := Read(ks[0], buf, pos, utf8);
      ReadCanonical(ks[0], buf, pos, utf8);
      ReadAllCanonical(ks[1..], buf, f.next, utf8);
      var g := ReadAll(ks[1..], buf, f.next, utf8);
      EncodeAllStep(ks, f.value, g.value, utf8);
      CanonicalStep(buf, pos, f.next, g.next, Encode(ks[0], f.value, utf8), EncodeAll(ks[1..], g.value, utf8));
    }
  }

  lemma Halves(a: Bytes, b: Bytes, c: Bytes, d: Bytes)
    requires |a| == |c|
    ensures a + b == c + d <==> a == c && b == d
  {
    if a + b == c + d {
      assert a == (a + b)[..|a|] == (c + d)[..|c|] == c;
      assert b == (a + b)[|a|..] == (c + d)[|c|..] == d;
    }
  }

  /** A record: its fields in order, then `finish`. */
  function Decode(ks: seq<Kind>, buf: Bytes, utf8: Utf8): (r: Result<seq<Value>>)
    ensures r.Ok? ==> AllFit(ks, r.value, utf8)
  {
    match ReadAll(ks, buf, 0, utf8)
    case Bad(e) => Err(e)
    case Got(vs, end) =>
      ReadAllCanonical(ks, buf, 0, utf8);
      if end < |buf| then Err(TrailingBytes(|buf| - end)) else Ok(vs)
  }

  /** Bytes of a field whose length its kind fixes. */
  function FixedSize(k: Kind): nat {
    match k
    case U8 => 1
    case Int(w) => w
    case I64 => 8
    case Fixed(n) => n
    case _ => 0
  }

  predicate IsFixed(k: Kind) { !k.Text? && !k.Blob? && !k.IdList? }

  function FixedSizes(ks: seq<Kind>): nat {
    if ks == [] then 0 else FixedSize(ks[0]) + FixedSizes(ks[1..])
  }

  lemma {:induction false} FixedLength(ks: seq<Kind>, vs: seq<Value>, utf8: Utf8)
    requires AllFit(ks, vs, utf8) && forall i :: 0 <= i < |ks| ==> IsFixed(ks[i])
    ensures |EncodeAll(ks, vs, utf8)| == FixedSizes(ks)
    decreases |ks|
  {
    if ks != [] {
      AllFitParts(ks, vs, utf8);
      FixedLength(ks[1..], vs[1..], utf8);
      match ks[0]
      case Int(w) => LELength(vs[0].n, w);
      case I64 => LELength(AsU64(vs[0].n), 8);
      case _ =>
    }
  }

  /** Without id lists there is only one way to write a record. */
  lemma {:induction false} NoIdsNoIdle(ks: seq<Kind>, buf: Bytes, pos: nat, utf8: Utf8)
    requires forall i :: 0 <= i < |ks| ==> !ks[i].IdList?
    ensures !HasIdleWidth(ks, buf, pos, utf8)
    decreases |ks|
  {
    if ks != [] && Read(ks[0], buf, pos, utf8).Got? {
      NoIdsNoIdle(ks[1..], buf, Read(ks[0], buf, pos, utf8).next, utf8);
    }
  }

  // ------------------------------------------------ what holds of every record

  /** What was encoded decodes back. */
  lemma RoundTrip(ks: seq<Kind>, vs: seq<Value>, utf8: Utf8)
    requires AllFit(ks, vs, utf8) && |EncodeAll(ks, vs, utf8)| < TwoTo64
    ensures Decode(ks, EncodeAll(ks, vs, utf8), utf8) == Ok(vs)
  {
    ReadAllBack(ks, vs, utf8, EncodeAll(ks, vs, utf8), 0);
  }

  /** A record with anything after it is refused, and the error says how much. */
  lemma NoExtension(ks: seq<Kind>, vs: seq<Value>, utf8: Utf8, more: Bytes)
    requires AllFit(ks, vs, utf8) && |EncodeAll(ks, vs, utf8)| < TwoTo64 && more != []
    ensures Decode(ks, EncodeAll(ks, vs, utf8) + more, utf8) == Err(TrailingBytes(|more|))
  {
    var enc := EncodeAll(ks, vs, utf8);
    ReadAllBack(ks, vs, utf8, enc, 0);
    ReadAllMore(ks, enc, more, 0, utf8);
  }

  /** A record cut short is refused, wherever it is cut. */
  lemma NoPrefix(ks: seq<Kind>, vs: seq<Value>, utf8: Utf8, n: nat)
    requires AllFit(ks, vs, utf8) && n < |EncodeAll(ks, vs, utf8)| < TwoTo64
    ensures Decode(ks, EncodeAll(ks, vs, utf8)[..n], utf8).Err?
  {
    var enc := EncodeAll(ks, vs, utf8);
    ReadAllBack(ks, vs, utf8, enc, 0);
    assert enc[..n] + enc[n..] == enc;
    if ReadAll(ks, enc[..n], 0, utf8).Got? {
      ReadAllMore(ks, enc[..n], enc[n..], 0, utf8);
      ReadAllCanonical(ks, enc[..n], 0, utf8);
    }
  }

  /** A record that is accepted carries values the format can carry, and encodes
      back to the same bytes exactly when no empty id list in it names a width. */
  lemma Canonical(ks: seq<Kind>, buf: Bytes, utf8: Utf8)
    requires Decode(ks, buf, utf8).Ok?
    ensures AllFit(ks, Decode(ks, buf, utf8).value, utf8)
    ensures EncodeAll(ks, Decode(ks, buf, utf8).value, utf8) == buf <==> !HasIdleWidth(ks, buf, 0, utf8)
    ensures |EncodeAll(ks, Decode(ks, buf, utf8).value, utf8)| == |buf|
  {
    ReadAllCanonical(ks, buf, 0, utf8);
    assert buf[0..|buf|] == buf;
  }

  /** Reading the fields and then finishing accepts exactly the whole encodings, and
      beside them only records in which an empty id list names a width. */
  lemma AcceptedExactly(ks: seq<Kind>, buf: Bytes, utf8: Utf8)
    requires |buf| < TwoTo64
    ensures Decode(ks, buf, utf8).Ok? && !HasIdleWidth(ks, buf, 0, utf8) <==>
            exists vs :: AllFit(ks, vs, utf8) && EncodeAll(ks, vs, utf8) == buf
  {
    if Decode(ks, buf, utf8).Ok? { Canonical(ks, buf, utf8); }
    if vs :| AllFit(ks, vs, utf8) && EncodeAll(ks, vs, utf8) == buf { RoundTrip(ks, vs, utf8); }
  }

  // ---------------------------------------------------------- the cursor itself

  /** `put_id_list`: appends the list to a buffer. */
  method PutIdList(out: Bytes, ids: seq<BlockId>) returns (out': Bytes)
    requires OneWidth(ids)
    ensures out' == out + EncodeIds(ids)
  {
    var list: Bytes := [];
    for i := 0 to |ids|
      invariant list == Flatten(ids[..i])
    {
      assert ids[..i + 1][..i] == ids[..i];
      list := list + ids[i];
    }
    assert ids[..|ids|] == ids;
    out' := out + ([IdWidth(ids)] + (LE(|ids|, 8) + list));
  }

  /** The cursor over one record's bytes. Every read either advances it past the
      field or fails and leaves it where it was. */
  class Reader {
    const buf: Bytes
    var pos: nat

    constructor (buf: Bytes)
      ensures this.buf == buf && pos == 0
    {
      this.buf, pos := buf, 0;
    }

    method TakeBytes(len: nat) returns (r: Result<Bytes>)
      modifies this
      ensures match Take(buf, old(pos), len)
              case Got(raw, next) => r == Ok(raw) && pos == next
              case Bad(e) => r == Err(e) && pos == old(pos)
    {
      var end := pos + len;
      if end >= TwoTo64 { return Err(LengthOverflow); }
      if end > |buf| { return Err(Truncated(end, |buf|)); }
      r := Ok(buf[pos..end]);
      pos := end;
    }

    method TakeInt(w: nat) returns (r: Result<nat>)
      modifies this
      ensures match ReadInt(buf, old(pos), w)
              case Got(n, next) => r == Ok(n) && pos == next
              case Bad(e) => r == Err(e) && pos == old(pos)
    {
      var raw := TakeBytes(w);
      r := if raw.Ok? then Ok(FromLE(raw.value)) else Err(raw.error);
    }

    /** `id_list`: the chunks of the id bytes, one id each. On a failure the cursor
        may stand behind the width or the count. */
    method TakeIds() returns (r: Result<seq<BlockId>>)
      modifies this
      ensures match ReadIds(buf, old(pos))
              case Got(ids, next) => r == Ok(ids) && pos == next
              case Bad(e) => r == Err(e)
    {
      var first := TakeBytes(1);
      if first.Err? { return Err(first.error); }
      var width := first.value[0];
      var n := TakeInt(8);
      if n.Err? { return Err(n.error); }
      var count := n.value;
      if width == 0 && count == 0 { return Ok([]); }
      if width != NarrowWidth && width != WideWidth { return Err(InvalidIdWidth(width)); }
      if count * width >= TwoTo64 { return Err(LengthOverflow); }
      var raw := TakeBytes(count * width);
      if raw.Err? { return Err(raw.error); }
      var ids := Chunks(raw.value, width, count);
      r := Ok(ids);
    }

    /** `finish`: accepts when the cursor has reached the end of the bytes. */
    method Finish() returns (r: Result<()>)
      requires pos <= |buf|
      ensures r.Ok? <==> buf[pos..] == []
      ensures r.Err? ==> r.error == TrailingBytes(|buf[pos..]|)
    {
      r := if pos != |buf| then Err(TrailingBytes(|buf| - pos)) else Ok(());
    }
  }

  /** `chunks_exact`, front to back. */
  method Chunks(raw: Bytes, width: nat, count: nat) returns (ids: seq<BlockId>)
    requires (width == NarrowWidth || width == WideWidth) && |raw| == count * width
    ensures ids == Cut(raw, width, count)
  {
    ids := [];
    var at := 0;
    for i := 0 to count
      invariant at == i * width && at <= |raw| && ids == Cut(raw[..at], width, i)
    {
      assert (i + 1) * width == at + width && (i + 1) * width <= count * width;
      assert raw[..at + width][..at] == raw[..at] && raw[..at + width][at..] == raw[at..at + width];
      ids := ids + [raw[at..at + width]];
      at := at + width;
    }
    assert raw[..at] == raw;
  }
}
