/** The path scheme of block files, and the walk that reads it back from the
    disk. */
module DiskWalk {
  import opened Ids

  // ------------------------------------------------------------------- hex

  function Digit(n: nat): char
    requires n < 16
  {
    if n < 10 then ('0' as int + n) as char else ('a' as int + n - 10) as char
  }

  /** What a character stands for as a hex digit; capitals do not count. */
  function LowerHexDigit(c: char): Option<nat> {
    if '0' <= c <= '9' then Some(c as int - '0' as int)
    else if 'a' <= c <= 'f' then Some(c as int - 'a' as int + 10)
    else None
  }

  function HexByte(b: byte): string { [Digit(b / 16), Digit(b % 16)] }

  function HexString(bytes: seq<byte>): string {
    if bytes == [] then "" else HexByte(bytes[0]) + HexString(bytes[1..])
  }

  /** The bytes a name of `2 * len` lowercase hex digits spells; no other name spells any. */
  function ParseLowerHex(name: string, len: nat): (r: Option<seq<byte>>)
    ensures r.Some? ==> |r.value| == len
  {
    if |name| != len * 2 then None
    else if len == 0 then Some([])
    else
      match (LowerHexDigit(name[0]), LowerHexDigit(name[1]), ParseLowerHex(name[2..], len - 1))
      case (Some(hi), Some(lo), Some(rest)) => Some([hi * 16 + lo] + rest)
      case _ => None
  }

  function ParseHexByte(name: string): Option<byte> {
    match ParseLowerHex(name, 1)
    case Some(bytes) => Some(bytes[0])
    case None => None
  }

  lemma DigitsInvert(n: nat, c: char)
    requires n < 16
    ensures LowerHexDigit(Digit(n)) == Some(n)
    ensures LowerHexDigit(c).Some? ==> LowerHexDigit(c).value < 16 && Digit(LowerHexDigit(c).value) == c
  {
  }

  lemma {:induction false} HexLength(bytes: seq<byte>)
    ensures |HexString(bytes)| == |bytes| * 2
    decreases |bytes|
  {
    if bytes != [] { HexLength(bytes[1..]); }
  }

  /** Hex parses back, and only hex does. */
  lemma {:induction false} HexParsesBack(bytes: seq<byte>)
    ensures ParseLowerHex(HexString(bytes), |bytes|) == Some(bytes)
    decreases |bytes|
  {
    HexLength(bytes);
    if bytes != [] {
      HexParsesBack(bytes[1..]);
      HexStep(bytes[0], bytes[1..]);
      var s := HexString(bytes);
      assert s[0] == Digit(bytes[0] / 16) && s[1] == Digit(bytes[0] % 16) && s[2..] == HexString(bytes[1..]);
      DigitsInvert(bytes[0] / 16, s[0]);
      DigitsInvert(bytes[0] % 16, s[1]);
      assert bytes == [bytes[0]] + bytes[1..];
    }
  }

  /** Two digits are the hex of the byte they spell. */
  lemma DigitsSpell(a: char, b: char) returns (x: byte)
    requires LowerHexDigit(a).Some? && LowerHexDigit(b).Some?
    ensures x == LowerHexDigit(a).value * 16 + LowerHexDigit(b).value && HexByte(x) == [a, b]
  {
    DigitsInvert(0, a);
    DigitsInvert(0, b);
    var hi, lo := LowerHexDigit(a).value, LowerHexDigit(b).value;
    x := hi * 16 + lo;
    assert x / 16 == hi && x % 16 == lo;
  }

  lemma HexStep(b: byte, rest: seq<byte>)
    ensures HexString([b] + rest) == HexByte(b) + HexString(rest)
  {
    assert ([b] + rest)[1..] == rest;
  }

  /** What one step of the parse read. */
  lemma ParsedStep(name: string, len: nat) returns (b: byte, rest: seq<byte>)
    requires len > 0 && ParseLowerHex(name, len).Some?
    ensures |name| == len * 2 && ParseLowerHex(name[2..], len - 1) == Some(rest)
    ensures ParseLowerHex(name, len) == Some([b] + rest) && HexByte(b) == [name[0], name[1]]
  {
    rest := ParseLowerHex(name[2..], len - 1).value;
    b := DigitsSpell(name[0], name[1]);
  }

  lemma {:induction false} ParsedIsHex(name: string, len: nat)
    requires ParseLowerHex(name, len).Some?
    ensures HexString(ParseLowerHex(name, len).value) == name
    decreases len
  {
    if len > 0 {
      var b, rest := ParsedStep(name, len);
      ParsedIsHex(name[2..], len - 1);
      HexStep(b, rest);
      assert name == [name[0], name[1]] + name[2..];
    }
  }

  lemma HexByteInverts(b: byte, name: string)
    ensures ParseHexByte(HexByte(b)) == Some(b)
    ensures ParseHexByte(name).Some? ==> HexByte(ParseHexByte(name).value) == name
  {
    HexParsesBack([b]);
    OneByte(b);
    if ParseHexByte(name).Some? {
      ParsedIsHex(name, 1);
      OneByte(ParseHexByte(name).value);
      assert ParseLowerHex(name, 1).value == [ParseHexByte(name).value];
    }
  }

  lemma OneByte(b: byte)
    ensures HexString([b]) == HexByte(b)
  {
    var one: seq<byte> := [b];
    assert one[1..] == [] && HexString(one) == HexByte(b) + HexString(one[1..]);
  }

  // ----------------------------------------------------------- path scheme

  function Clamp(depth: nat, id: BlockId): nat {
    if depth < 1 then 1 else if depth > |id| then |id| else depth
  }

  /** One directory name per byte. */
  function Fanout(bytes: seq<byte>): seq<string> {
    if bytes == [] then [] else [HexByte(bytes[0])] + Fanout(bytes[1..])
  }

  /** `block_disk_path`, below the root: the leading bytes as directories, the full
      id as the file name. */
  function BlockDiskPath(id: BlockId, depth: nat): seq<string> {
    Fanout(id[..Clamp(depth, id)]) + [HexString(id)]
  }

  lemma {:induction false} FanoutLength(bytes: seq<byte>)
    ensures |Fanout(bytes)| == |bytes|
    decreases |bytes|
  {
    if bytes != [] { FanoutLength(bytes[1..]); }
  }

  /** Two (id, depth) pairs share a path only if they are the same block at the
      same clamped depth. */
  lemma PathsAreDistinct(a: BlockId, d: nat, b: BlockId, e: nat)
    ensures BlockDiskPath(a, d) == BlockDiskPath(b, e) <==> a == b && Clamp(d, a) == Clamp(e, b)
  {
    if BlockDiskPath(a, d) == BlockDiskPath(b, e) {
      var p, q := BlockDiskPath(a, d), BlockDiskPath(b, e);
      FanoutLength(a[..Clamp(d, a)]);
      FanoutLength(b[..Clamp(e, b)]);
      assert p[|p| - 1] == HexString(a) && q[|q| - 1] == HexString(b);
      HexLength(a);
      HexLength(b);
      HexParsesBack(a);
      HexParsesBack(b);
    }
  }

  /** What a file name under a directory chain is. */
  datatype Verdict = Accepted(id: BlockId) | NotAnAddress | UnderTheRoot | OffChain

  /** `classify_file`: a full-width lowercase address, below at least one
      directory, all of them its own leading bytes. */
  function ClassifyFile(name: string, chain: seq<byte>, width: nat): Verdict {
    match ParseLowerHex(name, width)
    case None => NotAnAddress
    case Some(bytes) =>
      if chain == [] then UnderTheRoot
      else if !(chain <= bytes) then OffChain
      else if |bytes| != NarrowWidth && |bytes| != WideWidth then NotAnAddress
      else Accepted(bytes)
  }

  /** A name under a chain is accepted exactly when chain and name are the path of
      a block of the store's width at the depth of the chain. */
  lemma AcceptedIsAPath(name: string, chain: seq<byte>, width: nat, id: BlockId)
    requires width == NarrowWidth || width == WideWidth
    ensures ClassifyFile(name, chain, width) == Accepted(id) <==>
            |id| == width && 1 <= |chain| <= width && BlockDiskPath(id, |chain|) == Fanout(chain) + [name]
  {
    if ClassifyFile(name, chain, width) == Accepted(id) {
      ParsedIsHex(name, width);
      assert id[..|chain|] == chain;
    }
    if |id| == width && 1 <= |chain| <= width && BlockDiskPath(id, |chain|) == Fanout(chain) + [name] {
      var p := BlockDiskPath(id, |chain|);
      FanoutLength(chain);
      FanoutLength(id[..|chain|]);
      assert p[|p| - 1] == name == HexString(id);
      HexParsesBack(id);
      assert Fanout(chain) == p[..|p| - 1] == Fanout(id[..|chain|]);
      FanoutInjective(chain, id[..|chain|]);
    }
  }

  lemma {:induction false} FanoutInjective(a: seq<byte>, b: seq<byte>)
    requires Fanout(a) == Fanout(b)
    ensures a == b
    decreases |a|
  {
    if a != [] && b != [] {
      assert Fanout(a)[0] == HexByte(a[0]) && Fanout(b)[0] == HexByte(b[0]);
      HexByteInverts(a[0], "");
      HexByteInverts(b[0], "");
      assert Fanout(a)[1..] == Fanout(a[1..]) && Fanout(b)[1..] == Fanout(b[1..]);
      FanoutInjective(a[1..], b[1..]);
      assert a == [a[0]] + a[1..] && b == [b[0]] + b[1..];
    }
  }

  // ---------------------------------------------------------------- the walk

  /** A directory entry's name; not every name is text. */
  datatype Name = Utf8(text: string) | NotUtf8(raw: seq<byte>)

  datatype Node = Dir(entries: Entries) | File(size: nat) | Special

  /** The entries of a directory, in name order. */
  datatype Entries = Nil | Cons(name: Name, node: Node, rest: Entries)

  type Path = seq<Name>

  datatype BlockFile = BlockFile(id: BlockId, depth: nat, size: nat, path: Path)

  datatype Found = Found(files: seq<BlockFile>, foreign: seq<Path>, skipped: nat, entered: nat)

  /** Top-level names the store keeps for itself. */
  predicate IsTheStoresOwn(name: string) {
    name == ".tmp" || name == ".quarantine" || name == ".db" || name == ".store-id"
  }

  function Join(a: Found, b: Found): Found {
    Found(a.files + b.files, a.foreign + b.foreign, a.skipped + b.skipped, a.entered + b.entered)
  }

  const Empty: Found := Found([], [], 0, 0)

  /** One entry under `dir`, whose directories so far spell `chain`. */
  function WalkEntry(name: Name, node: Node, dir: Path, chain: seq<byte>, width: nat, own: set<Path>): Found
    decreases node, 0
  {
    var path := dir + [name];
    if path in own then Empty.(skipped := 1)
    else if name.NotUtf8? then Empty.(foreign := [path])
    else if dir == [] && IsTheStoresOwn(name.text) then Empty.(skipped := 1)
    else
      match node
      case Dir(entries) =>
        (match ParseHexByte(name.text)
         case Some(b) => Join(Empty.(entered := 1), Walk(entries, path, chain + [b], width, own))
         case None => Empty.(foreign := [path]))
      case Special => Empty.(foreign := [path])
      case File(size) =>
        (match ClassifyFile(name.text, chain, width)
         case Accepted(id) => Empty.(files := [BlockFile(id, |chain|, size, path)])
         case _ => Empty.(foreign := [path]))
  }

  function Walk(entries: Entries, dir: Path, chain: seq<byte>, width: nat, own: set<Path>): Found
    decreases entries, 1
  {
    match entries
    case Nil => Empty
    case Cons(name, node, rest) => Join(WalkEntry(name, node, dir, chain, width, own),
                                        Walk(rest, dir, chain, width, own))
  }

  function Texts(path: seq<string>): Path { seq(|path|, i requires 0 <= i < |path| => Utf8(path[i])) }

  /** The file sits where its id and depth say. */
  ghost predicate AtItsPath(f: BlockFile, width: nat) {
    |f.id| == width && 1 <= f.depth <= width && f.path == Texts(BlockDiskPath(f.id, f.depth))
  }

  lemma TextsSnoc(path: seq<string>, s: string)
    ensures Texts(path + [s]) == Texts(path) + [Utf8(s)]
  {
  }

  lemma {:induction false} FanoutSnoc(bytes: seq<byte>, b: byte)
    ensures Fanout(bytes + [b]) == Fanout(bytes) + [HexByte(b)]
    decreases |bytes|
  {
    if bytes == [] {
      var one: seq<byte> := [b];
      assert bytes + [b] == one && one[1..] == [] && Fanout(one) == [HexByte(b)] + Fanout(one[1..]);
    } else {
      assert (bytes + [b])[1..] == bytes[1..] + [b];
      FanoutSnoc(bytes[1..], b);
    }
  }

  /** An accepted file lies where its block and depth say. */
  lemma {:induction false} WalkRebuildsPaths(entries: Entries, dir: Path, chain: seq<byte>, width: nat, own: set<Path>)
    requires (width == NarrowWidth || width == WideWidth) && dir == Texts(Fanout(chain))
    ensures forall f :: f in Walk(entries, dir, chain, width, own).files ==> AtItsPath(f, width)
    decreases entries, 1
  {
    match entries
    case Nil =>
    case Cons(name, node, rest) =>
      WalkRebuildsPaths(rest, dir, chain, width, own);
      EntryRebuildsPath(name, node, dir, chain, width, own);
  }

  lemma {:induction false} EntryRebuildsPath(name: Name, node: Node, dir: Path, chain: seq<byte>, width: nat,
                                             own: set<Path>)
    requires (width == NarrowWidth || width == WideWidth) && dir == Texts(Fanout(chain))
    ensures forall f :: f in WalkEntry(name, node, dir, chain, width, own).files ==> AtItsPath(f, width)
    decreases node, 0
  {
    if name.Utf8? {
      TextsSnoc(Fanout(chain), name.text);
      match node
      case Dir(entries) =>
        if ParseHexByte(name.text).Some? {
          var b := ParseHexByte(name.text).value;
          HexByteInverts(b, name.text);
          FanoutSnoc(chain, b);
          WalkRebuildsPaths(entries, dir + [name], chain + [b], width, own);
        }
      case File(_) =>
        var verdict := ClassifyFile(name.text, chain, width);
        if verdict.Accepted? { AcceptedIsAPath(name.text, chain, width, verdict.id); }
      case Special =>
    }
  }

  /** Entries the walk looks at: those of every directory it enters. */
  function Visited(entries: Entries, dir: Path, own: set<Path>): nat
    decreases entries, 1
  {
    match entries
    case Nil => 0
    case Cons(name, node, rest) => 1 + VisitedBelow(name, node, dir, own) + Visited(rest, dir, own)
  }

  function VisitedBelow(name: Name, node: Node, dir: Path, own: set<Path>): nat
    decreases node, 0
  {
    if node.Dir? && dir + [name] !in own && name.Utf8? && !(dir == [] && IsTheStoresOwn(name.text)) &&
        ParseHexByte(name.text).Some?
    then Visited(node.entries, dir + [name], own)
    else 0
  }

  /** Every entry looked at is accepted, foreign, skipped or entered, and only one
      of those. */
  lemma {:induction false} EveryEntryOnce(entries: Entries, dir: Path, chain: seq<byte>, width: nat, own: set<Path>)
    ensures var w := Walk(entries, dir, chain, width, own);
            |w.files| + |w.foreign| + w.skipped + w.entered == Visited(entries, dir, own)
    decreases entries, 1
  {
    match entries
    case Nil =>
    case Cons(name, node, rest) =>
      EveryEntryOnce(rest, dir, chain, width, own);
      EntryOnce(name, node, dir, chain, width, own);
  }

  lemma {:induction false} EntryOnce(name: Name, node: Node, dir: Path, chain: seq<byte>, width: nat, own: set<Path>)
    ensures var w := WalkEntry(name, node, dir, chain, width, own);
            |w.files| + |w.foreign| + w.skipped + w.entered == 1 + VisitedBelow(name, node, dir, own)
    decreases node, 0
  {
    if node.Dir? && name.Utf8? && ParseHexByte(name.text).Some? {
      EveryEntryOnce(node.entries, dir + [name], chain + [ParseHexByte(name.text).value], width, own);
    }
  }

  /** There is a file of this size at this path below these entries. */
  predicate HasFile(entries: Entries, path: seq<string>, size: nat)
    decreases entries
  {
    match entries
    case Nil => false
    case Cons(name, node, rest) =>
      HasFile(rest, path, size) ||
      (path != [] && name == Utf8(path[0]) &&
       if |path| == 1 then node == File(size) else node.Dir? && HasFile(node.entries, path[1..], size))
  }

  /** A fanout directory or block file is never one of the store's own names. */
  lemma HexIsNotOwn(bytes: seq<byte>)
    requires bytes != []
    ensures !IsTheStoresOwn(HexString(bytes))
  {
    var s := HexString(bytes);
    assert s[0] == Digit(bytes[0] / 16);
    DigitsInvert(bytes[0] / 16, s[0]);
  }

  /** Every block file at its derived path is found, as the block and depth it
      is. */
  lemma {:induction false} WalkFindsBlocks(entries: Entries, chain: seq<byte>, width: nat, own: set<Path>,
                                           id: BlockId, depth: nat, size: nat)
    requires |id| == width && 1 <= depth <= width && |chain| <= depth && chain == id[..|chain|]
    requires HasFile(entries, Fanout(id[|chain|..depth]) + [HexString(id)], size)
    requires NotOwn(own, id, depth)
    ensures BlockFile(id, depth, size, Texts(BlockDiskPath(id, depth)))
         in Walk(entries, Texts(Fanout(chain)), chain, width, own).files
    decreases entries
  {
    var path := Fanout(id[|chain|..depth]) + [HexString(id)];
    var Cons(name, node, rest) := entries;
    if HasFile(rest, path, size) {
      WalkFindsBlocks(rest, chain, width, own, id, depth, size);
    } else {
      EntryFindsBlock(name, node, chain, width, own, id, depth, size);
    }
  }

  /** None of the store's own paths is on the way to the block. */
  ghost predicate NotOwn(own: set<Path>, id: BlockId, depth: nat) {
    forall p :: p in own ==> !(p <= Texts(BlockDiskPath(id, depth)))
  }

  /** The next directory on the way to the block. */
  lemma DirOnPath(id: BlockId, depth: nat, n: nat)
    requires 1 <= depth <= |id| && n < depth
    ensures Texts(Fanout(id[..n])) + [Utf8(HexByte(id[n]))] == Texts(Fanout(id[..n + 1]))
    ensures Texts(Fanout(id[..n + 1])) <= Texts(BlockDiskPath(id, depth))
  {
    TextsSnoc(Fanout(id[..n]), HexByte(id[n]));
    FanoutSnoc(id[..n], id[n]);
    assert id[..n] + [id[n]] == id[..n + 1];
    PathBelow(id, depth, n + 1);
    TextsAppend(Fanout(id[..n + 1]), Fanout(id[n + 1..depth]) + [HexString(id)]);
  }

  lemma TextsAppend(a: seq<string>, b: seq<string>)
    ensures Texts(a + b) == Texts(a) + Texts(b)
  {
  }

  lemma FileFindsBlock(name: Name, node: Node, width: nat, own: set<Path>, id: BlockId, depth: nat, size: nat)
    requires |id| == width && 1 <= depth <= width && NotOwn(own, id, depth)
    requires name == Utf8(HexString(id)) && node == File(size)
    ensures BlockFile(id, depth, size, Texts(BlockDiskPath(id, depth)))
         in WalkEntry(name, node, Texts(Fanout(id[..depth])), id[..depth], width, own).files
  {
    TextsSnoc(Fanout(id[..depth]), HexString(id));
    HexParsesBack(id);
    HexIsNotOwn(id);
  }

  lemma {:induction false} EntryFindsBlock(name: Name, node: Node, chain: seq<byte>, width: nat, own: set<Path>,
                                           id: BlockId, depth: nat, size: nat)
    requires |id| == width && 1 <= depth <= width && |chain| <= depth && chain == id[..|chain|]
    requires NotOwn(own, id, depth)
    requires var path := Fanout(id[|chain|..depth]) + [HexString(id)];
             name == Utf8(path[0]) &&
             if |path| == 1 then node == File(size) else node.Dir? && HasFile(node.entries, path[1..], size)
    ensures BlockFile(id, depth, size, Texts(BlockDiskPath(id, depth)))
         in WalkEntry(name, node, Texts(Fanout(chain)), chain, width, own).files
    decreases node
  {
    var n := |chain|;
    FanoutLength(id[n..depth]);
    if n == depth {
      FileFindsBlock(name, node, width, own, id, depth, size);
    } else {
      var b := id[n];
      assert id[n..depth] == [b] + id[n + 1..depth] && id[n..depth][1..] == id[n + 1..depth];
      assert chain + [b] == id[..n + 1];
      assert name == Utf8(HexByte(b));
      DirOnPath(id, depth, n);
      assert (Fanout(id[n..depth]) + [HexString(id)])[1..] == Fanout(id[n + 1..depth]) + [HexString(id)];
      WalkFindsBlocks(node.entries, chain + [b], width, own, id, depth, size);
      HexByteInverts(b, "");
      OneByte(b);
      HexIsNotOwn([b]);
    }
  }

  /** The path splits at every directory on the way. */
  lemma PathBelow(id: BlockId, depth: nat, n: nat)
    requires 1 <= depth <= |id| && n <= depth
    ensures BlockDiskPath(id, depth) == Fanout(id[..n]) + (Fanout(id[n..depth]) + [HexString(id)])
  {
    FanoutAppend(id[..n], id[n..depth]);
    assert id[..depth] == id[..n] + id[n..depth];
    Regroup(Fanout(id[..n]), Fanout(id[n..depth]), [HexString(id)]);
  }

  lemma Regroup(a: seq<string>, b: seq<string>, c: seq<string>)
    ensures (a + b) + c == a + (b + c)
  {
  }

  lemma {:induction false} FanoutAppend(a: seq<byte>, b: seq<byte>)
    ensures Fanout(a + b) == Fanout(a) + Fanout(b)
    decreases |a|
  {
    if a == [] {
      assert a + b == b;
    } else {
      assert (a + b)[1..] == a[1..] + b;
      FanoutAppend(a[1..], b);
    }
  }

  /** `DiskWalk`: the walk as it is run, pushing into its two lists. */
  class Walker {
    var files: seq<BlockFile>
    var foreign: seq<Path>

    constructor ()
      ensures files == [] && foreign == []
    {
      files, foreign := [], [];
    }

    /** What the two lists gained. */
    ghost predicate Gained(files0: seq<BlockFile>, foreign0: seq<Path>, found: Found)
      reads this
    {
      files == files0 + found.files && foreign == foreign0 + found.foreign
    }

    /** One entry of `walk_dir`. */
    method Visit(name: Name, node: Node, dir: Path, chain: seq<byte>, width: nat, own: set<Path>)
      modifies this
      ensures Gained(old(files), old(foreign), WalkEntry(name, node, dir, chain, width, own))
      decreases node, 0
    {
      var path := dir + [name];
      if path in own { return; }
      if name.NotUtf8? {
        foreign := foreign + [path];
        return;
      }
      if dir == [] && IsTheStoresOwn(name.text) { return; }
      match node
      case Dir(entries) =>
        var b := ParseHexByte(name.text);
        if b.Some? {
          WalkDir(entries, path, chain + [b.value], width, own);
        } else {
          foreign := foreign + [path];
        }
      case Special => foreign := foreign + [path];
      case File(size) =>
        var verdict := ClassifyFile(name.text, chain, width);
        if verdict.Accepted? {
          files := files + [BlockFile(verdict.id, |chain|, size, path)];
        } else {
          foreign := foreign + [path];
        }
    }

    /** `walk_dir`: every entry in turn. */
    method WalkDir(entries: Entries, dir: Path, chain: seq<byte>, width: nat, own: set<Path>)
      modifies this
      ensures Gained(old(files), old(foreign), Walk(entries, dir, chain, width, own))
      decreases entries, 1
    {
      var left := entries;
      while left.Cons?
        invariant files + Walk(left, dir, chain, width, own).files
                    == old(files) + Walk(entries, dir, chain, width, own).files
        invariant foreign + Walk(left, dir, chain, width, own).foreign
                    == old(foreign) + Walk(entries, dir, chain, width, own).foreign
        invariant left == entries || left < entries
        decreases left
      {
        ghost var f, g := files, foreign;
        ghost var one := WalkEntry(left.name, left.node, dir, chain, width, own);
        ghost var rest := Walk(left.rest, dir, chain, width, own);
        Visit(left.name, left.node, dir, chain, width, own);
        assert f + (one.files + rest.files) == files + rest.files;
        assert g + (one.foreign + rest.foreign) == foreign + rest.foreign;
        left := left.rest;
      }
    }
  }
}
