/** The on-disk records: blocks, objects, parts, uploads and the store header. */
module RecordFormats {
  import opened Ids
  import opened Codec
  import opened Words

  /** A proper prefix or a proper extension of `enc`. */
  ghost predicate Damaged(enc: Bytes, buf: Bytes) {
    (|buf| < |enc| && buf == enc[..|buf|]) || (|buf| > |enc| && enc == buf[..|enc|])
  }

  /** Cutting a record short or adding to it makes it undecodable. */
  lemma DamageIsRefused(ks: seq<Kind>, vs: seq<Value>, utf8: Utf8, buf: Bytes)
    requires AllFit(ks, vs, utf8) && |EncodeAll(ks, vs, utf8)| < TwoTo64 && Damaged(EncodeAll(ks, vs, utf8), buf)
    ensures Decode(ks, buf, utf8).Err?
  {
    var enc := EncodeAll(ks, vs, utf8);
    if |buf| < |enc| {
      NoPrefix(ks, vs, utf8, |buf|);
    } else {
      assert buf == enc + buf[|enc|..];
      NoExtension(ks, vs, utf8, buf[|enc|..]);
    }
  }

  // ---------------------------------------------------------------- blocks

  datatype Block = Block(size: nat, depth: nat, rc: nat, flags: nat)

  predicate BlockOk(b: Block) {
    b.size < TwoTo64 && b.depth < 256 && b.rc < TwoTo64 && b.flags < 256
  }

  const BlockShape: seq<Kind> := [Int(8), U8, Int(8), U8]

  function BlockFields(b: Block): (vs: seq<Value>)
    ensures BlockOk(b) ==> AllFit(BlockShape, vs, AnyText)
  {
    Pow256Values();
    [Num(b.size), Num(b.depth), Num(b.rc), Num(b.flags)]
  }

  function EncodeBlock(b: Block): Bytes
    requires BlockOk(b)
  {
    EncodeAll(BlockShape, BlockFields(b), AnyText)
  }

  function DecodeBlock(buf: Bytes): (r: Result<Block>)
    ensures r.Ok? ==> BlockOk(r.value)
  {
    match Decode(BlockShape, buf, AnyText)
    case Err(e) => Err(e)
    case Ok(vs) =>
      Pow256Values();
      assert Fits(BlockShape[0], vs[0], AnyText) && Fits(BlockShape[1], vs[1], AnyText);
      assert Fits(BlockShape[2], vs[2], AnyText) && Fits(BlockShape[3], vs[3], AnyText);
      Ok(Block(vs[0].n, vs[1].n, vs[2].n, vs[3].n))
  }

  /** A block record is 18 bytes, decodes back, and is refused when damaged. */
  lemma BlockCodec(b: Block, buf: Bytes)
    requires BlockOk(b)
    ensures |EncodeBlock(b)| == 18 && DecodeBlock(EncodeBlock(b)) == Ok(b)
    ensures Damaged(EncodeBlock(b), buf) ==> DecodeBlock(buf).Err?
  {
    FixedLength(BlockShape, BlockFields(b), AnyText);
    RoundTrip(BlockShape, BlockFields(b), AnyText);
    if Damaged(EncodeBlock(b), buf) { DamageIsRefused(BlockShape, BlockFields(b), AnyText, buf); }
  }

  /** An accepted block record encodes back to the same bytes. */
  lemma BlockCanonical(buf: Bytes)
    requires DecodeBlock(buf).Ok?
    ensures EncodeBlock(DecodeBlock(buf).value) == buf
  {
    Canonical(BlockShape, buf, AnyText);
    NoIdsNoIdle(BlockShape, buf, 0, AnyText);
    var vs := Decode(BlockShape, buf, AnyText).value;
    assert Fits(BlockShape[0], vs[0], AnyText) && Fits(BlockShape[1], vs[1], AnyText);
    assert Fits(BlockShape[2], vs[2], AnyText) && Fits(BlockShape[3], vs[3], AnyText);
    assert vs == BlockFields(DecodeBlock(buf).value);
  }

  // --------------------------------------------------------------- uploads

  datatype UploadRecord = UploadRecord(created: int, bucket: Bytes, key: Bytes, uploadId: Bytes)

  predicate TextOk(s: Bytes, utf8: Utf8) { |s| < TwoTo64 && utf8(s) }

  predicate UploadOk(u: UploadRecord, utf8: Utf8) {
    -TwoTo63 <= u.created < TwoTo63 && TextOk(u.bucket, utf8) && TextOk(u.key, utf8) && TextOk(u.uploadId, utf8)
  }

  const UploadShape: seq<Kind> := [I64, Text, Text, Text]

  function UploadFields(u: UploadRecord): seq<Value> { [Num(u.created), Raw(u.bucket), Raw(u.key), Raw(u.uploadId)] }

  function EncodeUpload(u: UploadRecord, utf8: Utf8): Bytes
    requires UploadOk(u, utf8)
  {
    EncodeAll(UploadShape, UploadFields(u), utf8)
  }

  function DecodeUpload(buf: Bytes, utf8: Utf8): (r: Result<UploadRecord>)
    ensures r.Ok? ==> UploadOk(r.value, utf8)
  {
    match Decode(UploadShape, buf, utf8)
    case Err(e) => Err(e)
    case Ok(vs) =>
      assert Fits(UploadShape[0], vs[0], utf8) && Fits(UploadShape[1], vs[1], utf8);
      assert Fits(UploadShape[2], vs[2], utf8) && Fits(UploadShape[3], vs[3], utf8);
      Ok(UploadRecord(vs[0].n, vs[1].bytes, vs[2].bytes, vs[3].bytes))
  }

  /** Whatever counts as text: an upload record decodes back, and is refused when
      damaged. */
  lemma UploadCodec(u: UploadRecord, utf8: Utf8, buf: Bytes)
    requires UploadOk(u, utf8) && |EncodeUpload(u, utf8)| < TwoTo64
    ensures DecodeUpload(EncodeUpload(u, utf8), utf8) == Ok(u)
    ensures Damaged(EncodeUpload(u, utf8), buf) ==> DecodeUpload(buf, utf8).Err?
  {
    RoundTrip(UploadShape, UploadFields(u), utf8);
    if Damaged(EncodeUpload(u, utf8), buf) { DamageIsRefused(UploadShape, UploadFields(u), utf8, buf); }
  }

  /** An accepted upload record encodes back to the same bytes. */
  lemma UploadCanonical(buf: Bytes, utf8: Utf8)
    requires DecodeUpload(buf, utf8).Ok?
    ensures EncodeUpload(DecodeUpload(buf, utf8).value, utf8) == buf
  {
    Canonical(UploadShape, buf, utf8);
    NoIdsNoIdle(UploadShape, buf, 0, utf8);
    var vs := Decode(UploadShape, buf, utf8).value;
    assert Fits(UploadShape[0], vs[0], utf8) && Fits(UploadShape[1], vs[1], utf8);
    assert Fits(UploadShape[2], vs[2], utf8) && Fits(UploadShape[3], vs[3], utf8);
    assert vs == UploadFields(DecodeUpload(buf, utf8).value);
  }

  // ----------------------------------------------------------------- parts

  const ContentHashSize: nat := 16

  datatype MultiPart = MultiPart(size: nat, number: int, bucket: Bytes, key: Bytes, uploadId: Bytes, hash: Bytes,
                                 blocks: seq<BlockId>)

  predicate IdsOk(ids: seq<BlockId>) {
    OneWidth(ids) && |ids| < TwoTo64 && |ids| * IdWidth(ids) < TwoTo64
  }

  predicate PartOk(p: MultiPart, utf8: Utf8) {
    && p.size < TwoTo64 && -TwoTo63 <= p.number < TwoTo63 && |p.hash| == ContentHashSize && IdsOk(p.blocks)
    && TextOk(p.bucket, utf8) && TextOk(p.key, utf8) && TextOk(p.uploadId, utf8)
  }

  const PartShape: seq<Kind> := [Int(8), I64, Text, Text, Text, Fixed(16), IdList]

  function PartFields(p: MultiPart): seq<Value> {
    [Num(p.size), Num(p.number), Raw(p.bucket), Raw(p.key), Raw(p.uploadId), Raw(p.hash), Listed(p.blocks)]
  }

  lemma PartFits(p: MultiPart, utf8: Utf8)
    requires PartOk(p, utf8)
    ensures AllFit(PartShape, PartFields(p), utf8)
  {
    Pow256Values();
  }

  function EncodePart(p: MultiPart, utf8: Utf8): Bytes
    requires PartOk(p, utf8)
  {
    PartFits(p, utf8);
    EncodeAll(PartShape, PartFields(p), utf8)
  }

  lemma PartValues(vs: seq<Value>, utf8: Utf8)
    requires AllFit(PartShape, vs, utf8)
    ensures |vs| == 7 && vs[0].Num? && vs[1].Num? && vs[2].Raw? && vs[3].Raw? && vs[4].Raw? && vs[5].Raw?
    ensures vs[6].Listed?
    ensures vs[0].n >= 0
    ensures PartOk(MultiPart(vs[0].n, vs[1].n, vs[2].bytes, vs[3].bytes, vs[4].bytes, vs[5].bytes, vs[6].ids), utf8)
  {
    Pow256Values();
    assert Fits(PartShape[0], vs[0], utf8) && Fits(PartShape[1], vs[1], utf8) && Fits(PartShape[2], vs[2], utf8);
    assert Fits(PartShape[3], vs[3], utf8) && Fits(PartShape[4], vs[4], utf8) && Fits(PartShape[5], vs[5], utf8);
    assert Fits(PartShape[6], vs[6], utf8);
  }

  function DecodePart(buf: Bytes, utf8: Utf8): (r: Result<MultiPart>)
    ensures r.Ok? ==> PartOk(r.value, utf8)
  {
    match Decode(PartShape, buf, utf8)
    case Err(e) => Err(e)
    case Ok(vs) =>
      PartValues(vs, utf8);
      Ok(MultiPart(vs[0].n, vs[1].n, vs[2].bytes, vs[3].bytes, vs[4].bytes, vs[5].bytes, vs[6].ids))
  }

  /** A part record decodes back, and is refused when damaged. */
  lemma PartCodec(p: MultiPart, utf8: Utf8, buf: Bytes)
    requires PartOk(p, utf8) && |EncodePart(p, utf8)| < TwoTo64
    ensures DecodePart(EncodePart(p, utf8), utf8) == Ok(p)
    ensures Damaged(EncodePart(p, utf8), buf) ==> DecodePart(buf, utf8).Err?
  {
    PartFits(p, utf8);
    RoundTrip(PartShape, PartFields(p), utf8);
    if Damaged(EncodePart(p, utf8), buf) { DamageIsRefused(PartShape, PartFields(p), utf8, buf); }
  }

  /** An accepted part record encodes back to the same bytes exactly when its
      block list is not an empty one that names a width. */
  lemma PartCanonical(buf: Bytes, utf8: Utf8)
    requires DecodePart(buf, utf8).Ok?
    ensures EncodePart(DecodePart(buf, utf8).value, utf8) == buf <==> !HasIdleWidth(PartShape, buf, 0, utf8)
  {
    Canonical(PartShape, buf, utf8);
    var vs := Decode(PartShape, buf, utf8).value;
    PartValues(vs, utf8);
    PartFits(DecodePart(buf, utf8).value, utf8);
    assert vs == PartFields(DecodePart(buf, utf8).value);
  }

  // --------------------------------------------------------------- objects

  datatype ObjectData =
    | SinglePart(blocks: seq<BlockId>)
    | MultiPartData(blocks: seq<BlockId>, parts: nat)
    | Inline(data: Bytes)

  datatype Object = Object(size: nat, ctime: int, hash: Bytes, data: ObjectData)

  predicate ObjectOk(o: Object) {
    && o.size < TwoTo64 && -TwoTo63 <= o.ctime < TwoTo63 && |o.hash| == ContentHashSize
    && match o.data
       case SinglePart(blocks) => IdsOk(blocks)
       case MultiPartData(blocks, parts) => IdsOk(blocks) && parts < TwoTo64
       case Inline(data) => |data| < TwoTo64
  }

  const HeaderShape: seq<Kind> := [U8, Int(8), I64, Fixed(16)]
  const SingleShape: seq<Kind> := [U8, Int(8), I64, Fixed(16), IdList]
  const MultiShape: seq<Kind> := [U8, Int(8), I64, Fixed(16), Int(8), IdList]
  const InlineShape: seq<Kind> := [U8, Int(8), I64, Fixed(16), Blob]

  /** The layout each type byte stands for. */
  function ObjectShape(tag: nat): seq<Kind> {
    if tag == 0 then SingleShape else if tag == 1 then MultiShape else InlineShape
  }

  function Tag(o: Object): nat {
    match o.data
    case SinglePart(_) => 0
    case MultiPartData(_, _) => 1
    case Inline(_) => 2
  }

  function ObjectFields(o: Object): seq<Value> {
    var header := [Num(Tag(o)), Num(o.size), Num(o.ctime), Raw(o.hash)];
    match o.data
    case SinglePart(blocks) => header + [Listed(blocks)]
    case MultiPartData(blocks, parts) => header + [Num(parts), Listed(blocks)]
    case Inline(data) => header + [Raw(data)]
  }

  lemma ObjectFits(o: Object)
    requires ObjectOk(o)
    ensures AllFit(ObjectShape(Tag(o)), ObjectFields(o), AnyText)
  {
    Pow256Values();
  }

  function EncodeObject(o: Object): Bytes
    requires ObjectOk(o)
  {
    ObjectFits(o);
    EncodeAll(ObjectShape(Tag(o)), ObjectFields(o), AnyText)
  }

  predicate ObjectValues(tag: nat, vs: seq<Value>) {
    && tag <= 2 && |vs| == |ObjectShape(tag)| && vs[0].Num? && vs[1].Num? && vs[2].Num? && vs[3].Raw? && vs[1].n >= 0
    && (tag == 0 ==> vs[4].Listed?) && (tag == 1 ==> vs[4].Num? && vs[4].n >= 0 && vs[5].Listed?) &&
         (tag == 2 ==> vs[4].Raw?)
  }

  function ObjectOf(tag: nat, vs: seq<Value>): Object
    requires ObjectValues(tag, vs)
  {
    Object(vs[1].n, vs[2].n, vs[3].bytes,
           if tag == 0 then SinglePart(vs[4].ids)
           else if tag == 1 then MultiPartData(vs[5].ids, vs[4].n)
           else Inline(vs[4].bytes))
  }

  lemma ObjectValuesOk(tag: nat, vs: seq<Value>)
    requires tag <= 2 && AllFit(ObjectShape(tag), vs, AnyText)
    ensures ObjectValues(tag, vs) && ObjectOk(ObjectOf(tag, vs))
    ensures vs[0] == Num(tag) ==> vs == ObjectFields(ObjectOf(tag, vs)) && Tag(ObjectOf(tag, vs)) == tag
  {
    Pow256Values();
    var ks := ObjectShape(tag);
    assert Fits(ks[0], vs[0], AnyText) && Fits(ks[1], vs[1], AnyText) && Fits(ks[2], vs[2], AnyText) &&
        Fits(ks[3], vs[3], AnyText);
    assert Fits(ks[4], vs[4], AnyText);
    if tag == 1 { assert Fits(ks[5], vs[5], AnyText); }
  }

  const MinObjectSize: nat := 41

  /** The shortest record first, then the type byte, then the layout it names. */
  function DecodeObject(buf: Bytes): (r: Result<Object>)
    ensures r.Ok? ==> ObjectOk(r.value)
  {
    if |buf| < MinObjectSize then Err(Truncated(MinObjectSize, |buf|))
    else if buf[0] > 2 then Err(UnknownObjectType(buf[0]))
    else
      match Decode(ObjectShape(buf[0]), buf, AnyText)
      case Err(e) => Err(e)
      case Ok(vs) =>
        ObjectValuesOk(buf[0], vs);
        Ok(ObjectOf(buf[0], vs))
  }

  /** No layout is shorter than an inline record without data. */
  lemma ObjectIsLongEnough(o: Object)
    requires ObjectOk(o)
    ensures |EncodeObject(o)| >= MinObjectSize && EncodeObject(o)[0] == Tag(o)
  {
    ObjectFits(o);
    var ks, vs := ObjectShape(Tag(o)), ObjectFields(o);
    AllFitParts(ks, vs, AnyText);
    AllFitParts(ks[1..], vs[1..], AnyText);
    AllFitParts(ks[2..], vs[2..], AnyText);
    AllFitParts(ks[3..], vs[3..], AnyText);
    LELength(o.size, 8);
    LELength(AsU64(o.ctime), 8);
    TailLength(o);
  }

  lemma TailLength(o: Object)
    requires ObjectOk(o) && AllFit(ObjectShape(Tag(o))[4..], ObjectFields(o)[4..], AnyText)
    ensures |EncodeAll(ObjectShape(Tag(o))[4..], ObjectFields(o)[4..], AnyText)| >= 8
  {
    var ks, vs := ObjectShape(Tag(o))[4..], ObjectFields(o)[4..];
    AllFitParts(ks, vs, AnyText);
    match o.data
    case SinglePart(blocks) => LELength(|blocks|, 8);
    case MultiPartData(_, parts) => LELength(parts, 8);
    case Inline(data) => LELength(|data|, 8);
  }

  /** An object record of any of the three layouts decodes back, and is refused
      when damaged. */
  lemma ObjectCodec(o: Object, buf: Bytes)
    requires ObjectOk(o) && |EncodeObject(o)| < TwoTo64
    ensures DecodeObject(EncodeObject(o)) == Ok(o)
    ensures Damaged(EncodeObject(o), buf) ==> DecodeObject(buf).Err?
  {
    ObjectFits(o);
    ObjectIsLongEnough(o);
    var ks, vs := ObjectShape(Tag(o)), ObjectFields(o);
    RoundTrip(ks, vs, AnyText);
    ObjectValuesOk(Tag(o), vs);
    if Damaged(EncodeObject(o), buf) && |buf| >= MinObjectSize {
      assert buf[0] == Tag(o);
      DamageIsRefused(ks, vs, AnyText, buf);
    }
  }

  /** An accepted object record encodes back to the same bytes exactly when its
      block list is not an empty one that names a width. */
  lemma ObjectCanonical(buf: Bytes)
    requires DecodeObject(buf).Ok?
    ensures EncodeObject(DecodeObject(buf).value) == buf <==> !HasIdleWidth(ObjectShape(buf[0]), buf, 0, AnyText)
  {
    var ks := ObjectShape(buf[0]);
    Canonical(ks, buf, AnyText);
    var vs := Decode(ks, buf, AnyText).value;
    FirstByte(ks, buf);
    ObjectValuesOk(buf[0], vs);
  }

  lemma FirstByte(ks: seq<Kind>, buf: Bytes)
    requires ks != [] && ks[0].U8? && Decode(ks, buf, AnyText).Ok? && buf != []
    ensures |Decode(ks, buf, AnyText).value| > 0 && Decode(ks, buf, AnyText).value[0] == Num(buf[0])
  {
  }

  /** The exception is real: an empty block list under width 16 or 32 is accepted
      as an object without blocks, which is written with width 0. */
  lemma IdleWidthIsAccepted(o: Object, w: byte) returns (buf: Bytes)
    requires (w == NarrowWidth || w == WideWidth) && ObjectOk(o) && o.data == SinglePart([])
    ensures DecodeObject(buf) == Ok(o) && EncodeObject(o) != buf
  {
    HeaderIsFixed(o);
    LELength(0, 8);
    buf := EncodeAll(HeaderShape, ObjectFields(o)[..4], AnyText) + ([w] + LE(0, 8));
    assert buf[34..42] == LE(0, 8);
    IdleFields(o, buf, w);
    ObjectFits(o);
    IdleIsObject(o, buf);
    EmptyIsWidthZero(o);
  }

  lemma IdleFields(o: Object, buf: Bytes, w: byte)
    requires (w == NarrowWidth || w == WideWidth) && ObjectOk(o) && o.data == SinglePart([])
    requires AllFit(HeaderShape, ObjectFields(o)[..4], AnyText)
    requires |EncodeAll(HeaderShape, ObjectFields(o)[..4], AnyText)| == 33
    requires |buf| == 42 && buf[33] == w && buf[34..42] == LE(0, 8)
    requires buf[..33] == EncodeAll(HeaderShape, ObjectFields(o)[..4], AnyText)
    ensures ReadAll(SingleShape, buf, 0, AnyText) == Got(ObjectFields(o), 42)
  {
    IdleTail(o, buf, w);
    assert SingleShape[..4] == HeaderShape;
    ReadAllBack(HeaderShape, ObjectFields(o)[..4], AnyText, buf, 0);
    ReadAllSplit(SingleShape, ObjectFields(o), 4, AnyText, buf, 0, 33, 42);
  }

  lemma IdleIsObject(o: Object, buf: Bytes)
    requires ObjectOk(o) && o.data == SinglePart([]) && |buf| == 42 && buf[0] == 0
    requires ReadAll(SingleShape, buf, 0, AnyText) == Got(ObjectFields(o), 42)
    ensures DecodeObject(buf) == Ok(o)
  {
    ObjectFits(o);
    ObjectValuesOk(0, ObjectFields(o));
  }

  lemma HeaderIsFixed(o: Object)
    requires ObjectOk(o)
    ensures AllFit(HeaderShape, ObjectFields(o)[..4], AnyText)
    ensures var head := EncodeAll(HeaderShape, ObjectFields(o)[..4], AnyText); |head| == 33 && head[0] == Tag(o)
  {
    var header := ObjectFields(o)[..4];
    ObjectFits(o);
    assert header == [Num(Tag(o)), Num(o.size), Num(o.ctime), Raw(o.hash)];
    HeaderFitsToo(header, o);
    FixedLength(HeaderShape, header, AnyText);
    AllFitParts(HeaderShape, header, AnyText);
  }

  lemma HeaderFitsToo(header: seq<Value>, o: Object)
    requires ObjectOk(o) && header == [Num(Tag(o)), Num(o.size), Num(o.ctime), Raw(o.hash)]
    ensures AllFit(HeaderShape, header, AnyText)
  {
    Pow256Values();
  }

  lemma IdleTail(o: Object, buf: Bytes, w: byte)
    requires (w == NarrowWidth || w == WideWidth) && o.data == SinglePart([])
    requires |buf| == 42 && buf[33] == w && buf[34..42] == LE(0, 8)
    ensures ReadAll(SingleShape[4..], buf, 33, AnyText) == Got(ObjectFields(o)[4..], 42)
  {
    IdleRead(buf, 33, w);
    var ks, vs := SingleShape[4..], ObjectFields(o)[4..];
    assert ks == [IdList] && vs == [Listed([])] && ks[1..] == [] && vs[1..] == [];
    ReadAllStep(ks, vs, AnyText, buf, 33, 42, 42);
  }

  lemma IdleRead(buf: Bytes, pos: nat, w: byte)
    requires (w == NarrowWidth || w == WideWidth) && pos + 9 == |buf| < TwoTo64 && buf[pos] == w
    requires buf[pos + 1..pos + 9] == LE(0, 8)
    ensures Read(IdList, buf, pos, AnyText) == Got(Listed([]), pos + 9)
  {
    Pow256Values();
    LERoundTrip(0, 8);
  }

  /** An object without blocks is written with width 0 behind its header. */
  lemma EmptyIsWidthZero(o: Object)
    requires ObjectOk(o) && o.data == SinglePart([])
    ensures |EncodeObject(o)| == 42 && EncodeObject(o)[33] == 0
  {
    ObjectFits(o);
    var ks, vs := SingleShape, ObjectFields(o);
    AllFitParts(ks, vs, AnyText);
    AllFitParts(ks[1..], vs[1..], AnyText);
    AllFitParts(ks[2..], vs[2..], AnyText);
    AllFitParts(ks[3..], vs[3..], AnyText);
    AllFitParts(ks[4..], vs[4..], AnyText);
    LELength(o.size, 8);
    LELength(AsU64(o.ctime), 8);
    LELength(0, 8);
  }

  // ---------------------------------------------------------- store header

  datatype Hasher = Blake3W16 | Blake3W32

  datatype StoreHeader = StoreHeader(version: nat, hasher: Hasher, createdAt: nat, storeId: Bytes)

  datatype HeaderError = BadMagic | UnsupportedVersion(version: nat) | Malformed(error: FsError) | UnknownHash

  datatype HeaderResult = HeaderOk(header: StoreHeader) | HeaderErr(error: HeaderError)

  const Magic: Bytes := [0x51, 0x53, 0x53, 0x54]
  const AlgoBlake3: nat := 1

  predicate Supported(version: nat) { version == 3 || version == 4 }

  function HashWidth(h: Hasher): nat { if h.Blake3W16? then NarrowWidth else WideWidth }

  predicate HeaderValid(h: StoreHeader) {
    Supported(h.version) && h.createdAt < TwoTo64 && |h.storeId| == 16
  }

  const StoreShape: seq<Kind> := [Fixed(4), Int(2), U8, U8, Int(8), Fixed(16)]

  function HeaderFields(h: StoreHeader): seq<Value> {
    [Raw(Magic), Num(h.version), Num(AlgoBlake3), Num(HashWidth(h.hasher)), Num(h.createdAt), Raw(h.storeId)]
  }

  lemma HeaderFits(h: StoreHeader)
    requires HeaderValid(h)
    ensures AllFit(StoreShape, HeaderFields(h), AnyText)
  {
    Pow256Values();
  }

  function ToBytes(h: StoreHeader): Bytes
    requires HeaderValid(h)
  {
    HeaderFits(h);
    EncodeAll(StoreShape, HeaderFields(h), AnyText)
  }

  /** `from_bytes`: magic, version, the remaining fields and the exact length, then
      the hash, in this order, and the first check that fails is the answer. */
  function FromBytes(buf: Bytes): (r: HeaderResult)
    ensures r.HeaderOk? ==> HeaderValid(r.header)
  {
    match Read(Fixed(4), buf, 0, AnyText)
    case Bad(e) => HeaderErr(Malformed(e))
    case Got(magic, at) =>
      if magic != Raw(Magic) then HeaderErr(BadMagic)
      else
        match ReadInt(buf, at, 2)
        case Bad(e) => HeaderErr(Malformed(e))
        case Got(version, _) =>
          if !Supported(version) then HeaderErr(UnsupportedVersion(version))
          else
            match Decode(StoreShape, buf, AnyText)
            case Err(e) => HeaderErr(Malformed(e))
            case Ok(vs) => HeaderOf(version, vs)
  }

  function HeaderOf(version: nat, vs: seq<Value>): (r: HeaderResult)
    requires Supported(version) && AllFit(StoreShape, vs, AnyText)
    ensures r.HeaderOk? ==> HeaderValid(r.header)
  {
    Pow256Values();
    assert Fits(StoreShape[2], vs[2], AnyText) && Fits(StoreShape[3], vs[3], AnyText);
    assert Fits(StoreShape[4], vs[4], AnyText) && Fits(StoreShape[5], vs[5], AnyText);
    if vs[2].n == AlgoBlake3 && vs[3].n == NarrowWidth then
      HeaderOk(StoreHeader(version, Blake3W16, vs[4].n, vs[5].bytes))
    else if vs[2].n == AlgoBlake3 && vs[3].n == WideWidth then
      HeaderOk(StoreHeader(version, Blake3W32, vs[4].n, vs[5].bytes))
    else HeaderErr(UnknownHash)
  }

  /** What the first two reads see is what the record's first two fields are. */
  lemma HeaderStart(buf: Bytes)
    requires Decode(StoreShape, buf, AnyText).Ok?
    ensures var vs := Decode(StoreShape, buf, AnyText).value;
            |vs| == 6 && Read(Fixed(4), buf, 0, AnyText) == Got(vs[0], 4) && vs[1].Num? && vs[1].n >= 0 &&
            ReadInt(buf, 4, 2) == Got(vs[1].n, 6)
  {
    var all := ReadAll(StoreShape, buf, 0, AnyText);
    var one := ReadAll(StoreShape[1..], buf, 4, AnyText);
    assert all.value[1..] == one.value;
    assert StoreShape[1..][0] == Int(2);
  }

  lemma FieldsOf(version: nat, vs: seq<Value>)
    requires Supported(version) && AllFit(StoreShape, vs, AnyText) && HeaderOf(version, vs).HeaderOk?
    requires vs[0] == Raw(Magic) && vs[1] == Num(version)
    ensures vs == HeaderFields(HeaderOf(version, vs).header)
  {
    assert Fits(StoreShape[2], vs[2], AnyText) && Fits(StoreShape[3], vs[3], AnyText);
    assert Fits(StoreShape[4], vs[4], AnyText) && Fits(StoreShape[5], vs[5], AnyText);
  }

  /** An accepted header carries the fields that were read. */
  lemma HeaderValues(buf: Bytes)
    requires FromBytes(buf).HeaderOk?
    ensures Decode(StoreShape, buf, AnyText) == Ok(HeaderFields(FromBytes(buf).header))
  {
    HeaderStart(buf);
    var vs := Decode(StoreShape, buf, AnyText).value;
    FieldsOf(vs[1].n, vs);
  }

  /** A header is 32 bytes, decodes back, and is refused when damaged. */
  lemma HeaderCodec(h: StoreHeader, buf: Bytes)
    requires HeaderValid(h)
    ensures |ToBytes(h)| == 32 && FromBytes(ToBytes(h)) == HeaderOk(h)
    ensures Damaged(ToBytes(h), buf) ==> FromBytes(buf).HeaderErr?
  {
    HeaderFits(h);
    FixedLength(StoreShape, HeaderFields(h), AnyText);
    RoundTrip(StoreShape, HeaderFields(h), AnyText);
    HeaderStart(ToBytes(h));
    if Damaged(ToBytes(h), buf) { DamageIsRefused(StoreShape, HeaderFields(h), AnyText, buf); }
  }

  /** An accepted header encodes to the bytes it came from, also when it has no
      store id. */
  lemma HeaderCanonical(buf: Bytes)
    requires FromBytes(buf).HeaderOk?
    ensures ToBytes(FromBytes(buf).header) == buf
  {
    Canonical(StoreShape, buf, AnyText);
    NoIdsNoIdle(StoreShape, buf, 0, AnyText);
    HeaderValues(buf);
  }
}
