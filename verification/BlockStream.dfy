/** One byte stream over many block files: ranges, short reads, and the verifying
    mode. */
module BlockStream {
  import opened Ids
  import opened Sequences
  import opened Words

  const ReadChunk: nat := 4096
  const VerifyReadChunk: nat := 65536

  /** Requested bytes; both ends of a range are inclusive. */
  datatype RangeRequest = All | Range(start: u64, end: u64) | ToBytes(end: u64) | FromBytes(start: u64)

  datatype Poll = Pending | Yield(bytes: seq<byte>) | Fail | End

  datatype Verification = Verification(hash: seq<byte> -> BlockId, ids: seq<BlockId>)

  function SaturatingSucc(x: u64): u64 { if x == MaxU64 then x else x + 1 }

  /** The window as start and exclusive end. */
  function Bounds(range: RangeRequest, size: u64): (u64, u64) {
    match range
    case All => (0, size)
    case Range(start, end) => (start, SaturatingSucc(end))
    case ToBytes(end) => (0, SaturatingSucc(end))
    case FromBytes(start) => (start, MaxU64)
  }

  function Min(a: nat, b: nat): nat { if a <= b then a else b }

  /** `content[start..end]`, clipped to what there is. */
  function Window(content: seq<byte>, start: nat, end: nat): seq<byte> {
    if start < Min(end, |content|) then content[start..Min(end, |content|)] else []
  }

  /** The byte at `i` is asked for by the range. */
  predicate Requested(range: RangeRequest, i: nat) {
    match range
    case All => true
    case Range(start, end) => start <= i <= end
    case ToBytes(end) => i <= end
    case FromBytes(start) => start <= i
  }

  /** The exclusive window is the inclusive range, clipped to the object: the
      saturated end loses nothing that an object can hold. */
  lemma BoundsMeanTheRange(range: RangeRequest, content: seq<byte>)
    requires |content| <= MaxU64
    ensures var (start, end) := Bounds(range, |content|);
            var w := Window(content, start, end);
            && (forall i :: 0 <= i < |content| && Requested(range, i) ==> start <= i < start + |w|)
            && (forall k :: 0 <= k < |w| ==> Requested(range, start + k) && w[k] == content[start + k])
  {
  }

  /** The window grows by the bytes read at its end. */
  lemma WindowStep(content: seq<byte>, start: nat, at: nat, n: nat)
    requires start <= at && at + n <= |content|
    ensures Window(content, start, at + n) == Window(content, start, at) + content[at..at + n]
  {
  }

  /** Where file `i` begins in the object. */
  function Offset(files: seq<seq<byte>>, i: nat): nat
    requires i <= |files|
  {
    |Flatten(files[..i])|
  }

  lemma OffsetStep(files: seq<seq<byte>>, i: nat)
    requires i < |files|
    ensures Offset(files, i + 1) == Offset(files, i) + |files[i]|
  {
    assert files[..i + 1][..i] == files[..i];
  }

  lemma {:induction false} OffsetInside(files: seq<seq<byte>>, i: nat)
    requires i <= |files|
    ensures Offset(files, i) <= |Flatten(files)|
    ensures Flatten(files)[..Offset(files, i)] == Flatten(files[..i])
    decreases |files| - i
  {
    if i == |files| {
      assert files[..i] == files;
    } else {
      OffsetInside(files, i + 1);
      assert files[..i + 1][..i] == files[..i];
      assert Flatten(files[..i + 1])[..Offset(files, i)] == Flatten(files[..i]);
    }
  }

  lemma OffsetBounds(files: seq<seq<byte>>, i: nat)
    requires i < |files|
    ensures Offset(files, i + 1) == Offset(files, i) + |files[i]| <= |Flatten(files)|
  {
    OffsetStep(files, i);
    OffsetInside(files, i + 1);
  }

  lemma OffsetEnd(files: seq<seq<byte>>)
    ensures Offset(files, |files|) == |Flatten(files)|
  {
    assert files[..|files|] == files;
  }

  /** Bytes of file `i` are bytes of the object at its offset. */
  lemma FileInside(files: seq<seq<byte>>, i: nat, from: nat, to: nat)
    requires i < |files| && from <= to <= |files[i]|
    ensures Offset(files, i) + to <= |Flatten(files)|
    ensures Flatten(files)[Offset(files, i) + from..Offset(files, i) + to] == files[i][from..to]
  {
    OffsetStep(files, i);
    OffsetInside(files, i + 1);
    var off, whole := Offset(files, i), Flatten(files);
    assert files[..i + 1][..i] == files[..i];
    assert whole[..off + |files[i]|] == Flatten(files[..i]) + files[i];
    forall k | from <= k < to ensures whole[off + k] == files[i][k] {
      assert whole[off + k] == whole[..off + |files[i]|][off + k];
    }
  }

  /** Bytes read from a file extend the window that ends where they begin. */
  lemma ReadExtends(files: seq<seq<byte>>, i: nat, from: nat, to: nat, start: nat)
    requires i < |files| && from <= to <= |files[i]| && start <= Offset(files, i) + from
    ensures Offset(files, i) + to <= |Flatten(files)|
    ensures Window(Flatten(files), start, Offset(files, i) + to)
         == Window(Flatten(files), start, Offset(files, i) + from) + files[i][from..to]
  {
    FileInside(files, i, from, to);
    WindowStep(Flatten(files), start, Offset(files, i) + from, to - from);
  }

  /** The file being read: its index and the position in it. */
  datatype OpenFile = OpenFile(index: nat, pos: nat)

  /** The stream. `disk` is what the files hold, `sizes` what the records say they
      hold; `out` collects what was yielded, `failed` that an error was, `pendings`
      how often the answer was to wait, `refusals` the system calls that failed. */
  class Stream {
    const disk: seq<seq<byte>>
    const sizes: seq<nat>
    const size: u64
    const range: RangeRequest
    const verify: Option<Verification>
    var fp: nat
    var processed: nat
    var hasSeeked: bool
    var file: Option<OpenFile>
    var opening: Option<nat>
    var reading: nat
    var buf: seq<byte>
    ghost var out: seq<byte>
    ghost var served: seq<seq<byte>>
    ghost var failed: bool
    ghost var pendings: nat
    ghost var refusals: nat

    /** `new`, then `verified`: only a whole-object read with one address per file
        is verified. */
    constructor (disk: seq<seq<byte>>, sizes: seq<nat>, size: u64, range: RangeRequest, check: Option<Verification>)
      requires |disk| == |sizes|
      ensures this.disk == disk && this.sizes == sizes && this.size == size && this.range == range
      ensures verify == if check.Some? && range.All? && |check.value.ids| == |sizes| then check else None
      ensures out == [] && served == [] && !failed && pendings == 0 && refusals == 0
      ensures verify.Some? || Faithful() ==> Valid()
    {
      this.disk, this.sizes, this.size, this.range := disk, sizes, size, range;
      verify := if check.Some? && range.All? && |check.value.ids| == |sizes| then check else None;
      fp, processed, hasSeeked, file, opening, reading, buf := 0, 0, true, None, None, 0, [];
      out, served, failed, pendings, refusals := [], [], false, 0, 0;
    }

    /** Whether the answer of a system call is there yet. */
    method Ready() returns (ready: bool)
      modifies this`pendings
      ensures pendings == old(pendings) + if ready then 0 else 1
    {
      ready := *;
      if !ready { pendings := pendings + 1; }
    }

    /** Whether a system call works. */
    method Attempt() returns (works: bool)
      modifies this`refusals
      ensures refusals == old(refusals) + if works then 0 else 1
    {
      works := *;
      if !works { refusals := refusals + 1; }
    }

    function Start(): nat { Bounds(range, size).0 }

    function Stop(): nat { Bounds(range, size).1 }

    /** `size_hint`. */
    function SizeHint(): nat {
      if Start() < Min(Stop(), size) then Min(Stop(), size) - Start() else 0
    }

    /** The files hold what the records say, and the range starts within the
        object. */
    ghost predicate Faithful() {
      && |disk| == |sizes| && (forall i :: 0 <= i < |sizes| ==> |disk[i]| == sizes[i])
      && size == |Flatten(disk)| && Start() <= size
    }

    /** The window starts so deep in a file that no seek can express it. */
    ghost predicate TooFar() {
      exists i :: 0 <= i < |disk| && Offset(disk, i) + TwoTo63 <= Start() < Offset(disk, i + 1)
    }

    /** The file of block `i` is not what its address says. */
    ghost predicate Bad(i: nat) {
      verify.Some? && i < |disk| && i < |verify.value.ids| && verify.value.hash(disk[i]) != verify.value.ids[i]
    }

    /** The unverified stream stands at `processed` in the object, and has yielded
        the requested bytes before that. */
    ghost predicate Plain()
      reads this`fp, this`processed, this`hasSeeked, this`file, this`opening, this`out
    {
      && Faithful() && verify.None? && fp <= |disk|
      && processed <= size && (processed <= Start() || processed <= Stop())
      && out == Window(Flatten(disk), Start(), processed)
      && (opening.Some? ==>
            file.None? && opening.value + 1 == fp && processed == Offset(disk, fp - 1) &&
            (processed < Start() ==> Start() < Offset(disk, fp)))
      && (file.Some? ==>
            opening.None? && file.value.index + 1 == fp && file.value.pos <= |disk[fp - 1]| &&
            processed == Offset(disk, fp - 1) + file.value.pos &&
            (processed < Start() ==> !hasSeeked && Start() < Offset(disk, fp)))
      && (opening.None? && file.None? ==> processed == Offset(disk, fp))
    }

    /** The verifying stream has yielded the blocks of `served`, each of which
        hashes to its address, and buffers the block it reads now. What the disk
        holds is not assumed to be anything in particular. */
    ghost predicate Checked()
      reads this`fp, this`processed, this`file, this`opening, this`reading, this`buf, this`out, this`served
    {
      && verify.Some? && range.All? && |disk| == |sizes| == |verify.value.ids| && fp <= |disk|
      && out == Flatten(served) && processed == |out|
      && |served| == (if opening.Some? || file.Some? then fp - 1 else fp)
      && (forall i :: 0 <= i < |served| ==> served[i] == disk[i] && verify.value.hash(served[i]) == verify.value.ids[i])
      && (opening.Some? ==> file.None? && opening.value + 1 == fp && reading == opening.value)
      && (file.Some? ==>
            opening.None? && file.value.index + 1 == fp && reading == file.value.index &&
            file.value.pos <= |disk[fp - 1]| && buf == disk[fp - 1][..file.value.pos])
      && (file.None? ==> buf == [])
    }

    ghost predicate Valid()
      reads this`fp, this`processed, this`hasSeeked, this`file, this`opening, this`reading
      reads this`buf, this`out, this`served
    {
      if verify.None? then Plain() else Checked()
    }

    /** Nothing is left to yield: the window is out, or every block is. */
    ghost predicate Finished()
      reads this`out, this`served
    {
      if verify.None? then out == Window(Flatten(disk), Start(), Stop()) && |out| == SizeHint()
      else |out| >= size || |served| == |disk|
    }

    lemma WindowComplete()
      requires Plain() && (processed >= Stop() || processed == size)
      ensures out == Window(Flatten(disk), Start(), Stop()) && |out| == SizeHint()
    {
    }

    /** Work left before the end, in files and in bytes of the open one. */
    ghost function Left(): nat
      reads this`fp, this`file, this`opening
      requires fp <= |disk|
    {
      3 * (|disk| - fp) + (if opening.Some? then 2 else 0) + (if file.Some? then 1 else 0)
    }

    ghost function Unread(): int
      reads this`fp, this`file
      requires fp <= |disk| && (file.Some? ==> file.value.index < |disk|)
    {
      if file.Some? then |disk[file.value.index]| - file.value.pos else 0
    }

    /** Passes over the files that lie wholly in front of the window. */
    method SkipFiles() returns (ended: bool)
      requires Valid() && file.None? && opening.None? && processed < Stop()
      modifies this`fp, this`processed
      ensures Valid() && fp >= old(fp)
      ensures ended ==> Finished()
      ensures !ended ==> processed < Stop() && (processed < Start() ==> fp < |disk| && Start() < Offset(disk, fp + 1))
    {
      ended := false;
      OffsetEnd(disk);
      while processed < Start()
        invariant Valid() && file.None? && opening.None? && fp >= old(fp) && processed < Stop()
        decreases |disk| - fp
      {
        OffsetBounds(disk, fp);
        if processed + sizes[fp] > Start() { return; }
        processed := processed + sizes[fp];
        fp := fp + 1;
        if fp >= |sizes| || processed >= Stop() {
          WindowComplete();
          return true;
        }
      }
    }

    /** Starts opening the next file and moves on to the one behind it. */
    method BeginOpen()
      requires Valid() && file.None? && opening.None? && fp < |disk|
      requires processed < Start() ==> Start() < Offset(disk, fp + 1)
      modifies this`opening, this`reading, this`fp
      ensures Valid() && opening.Some? && file.None? && Left() < old(Left())
    {
      opening, reading, fp := Some(fp), fp, fp + 1;
    }

    /** The file whose turn it is has been opened. */
    method Opened()
      requires Valid() && opening.Some?
      modifies this`opening, this`file, this`hasSeeked
      ensures Valid() && opening.None? && file.Some? && Left() < old(Left())
    {
      file, opening, hasSeeked := Some(OpenFile(opening.value, 0)), None, false;
    }

    /** Seeks to the start of the window. */
    method Sought()
      requires Plain() && file.Some? && processed < Start() && Start() - processed < TwoTo63
      modifies this`processed, this`hasSeeked, this`file
      ensures Plain() && file.Some? && processed == Start() && Left() == old(Left()) && Unread() <= old(Unread())
    {
      var skip := Start() - processed;
      OffsetStep(disk, fp - 1);
      file := Some(OpenFile(file.value.index, file.value.pos + skip));
      processed, hasSeeked := processed + skip, true;
    }

    /** One read of the open file into a buffer of `cap` bytes: as many bytes as
        the system likes, none only at the end of the file. */
    method ReadSome(cap: nat) returns (bytes: seq<byte>)
      requires file.Some? && file.value.index < |disk| && file.value.pos <= |disk[file.value.index]| && cap > 0
      ensures |bytes| <= cap && file.value.pos + |bytes| <= |disk[file.value.index]|
      ensures bytes == disk[file.value.index][file.value.pos..file.value.pos + |bytes|]
      ensures bytes == [] <==> file.value.pos == |disk[file.value.index]|
    {
      var contents, pos := disk[file.value.index], file.value.pos;
      if pos == |contents| { return []; }
      var n: nat :| 1 <= n <= cap && pos + n <= |contents|;
      bytes := contents[pos..pos + n];
    }

    /** The plain read: a short read is yielded as it comes. */
    method ReadPlain() returns (bytes: seq<byte>)
      requires Plain() && file.Some? && Start() <= processed < Stop()
      modifies this`file, this`processed, this`out
      ensures Plain()
      ensures out == old(out) + bytes
      ensures bytes == [] ==> Left() < old(Left())
      ensures bytes != [] ==> Left() == old(Left()) && Unread() < old(Unread())
    {
      var index, pos := file.value.index, file.value.pos;
      bytes := ReadSome(Min(Stop() - processed, ReadChunk));
      if bytes == [] {
        OffsetStep(disk, index);
        file := None;
      } else {
        Advance(bytes);
      }
    }

    /** The read bytes move the stream on. */
    method Advance(bytes: seq<byte>)
      requires Plain() && file.Some? && Start() <= processed && bytes != [] && processed + |bytes| <= Stop()
      requires file.value.pos + |bytes| <= |disk[fp - 1]|
      requires bytes == disk[fp - 1][file.value.pos..file.value.pos + |bytes|]
      modifies this`file, this`processed, this`out
      ensures Plain() && out == old(out) + bytes && Left() == old(Left()) && Unread() < old(Unread())
    {
      var index, pos := file.value.index, file.value.pos;
      ReadExtends(disk, index, pos, pos + |bytes|, Start());
      file := Some(OpenFile(index, pos + |bytes|));
      processed, out := processed + |bytes|, out + bytes;
    }

    /** The verifying read: collects a block, and yields it whole only once its hash
        is the address. */
    method ReadChecked() returns (done: bool, good: bool, bytes: seq<byte>)
      requires Checked() && file.Some?
      modifies this`file, this`processed, this`buf, this`out, this`served
      ensures !done ==>
                Checked() && file.Some? && out == old(out) && served == old(served) &&
                Left() == old(Left()) && Unread() < old(Unread())
      ensures done && good ==>
                Checked() && Left() < old(Left()) && out == old(out) + bytes && served == old(served) + [bytes] &&
                verify.value.hash(bytes) == verify.value.ids[|old(served)|]
      ensures done && !good ==> out == old(out) && Bad(|old(served)|)
    {
      var index := file.value.index;
      bytes := ReadSome(VerifyReadChunk);
      if bytes != [] {
        buf := buf + bytes;
        file := Some(OpenFile(index, file.value.pos + |bytes|));
        return false, false, bytes;
      }
      done := true;
      good, bytes := Judge();
    }

    /** A whole block has been read: it is yielded if its hash is the address. */
    method Judge() returns (good: bool, bytes: seq<byte>)
      requires Checked() && file.Some? && file.value.pos == |disk[fp - 1]|
      modifies this`file, this`processed, this`buf, this`out, this`served
      ensures good ==>
                Checked() && Left() < old(Left()) && out == old(out) + bytes && served == old(served) + [bytes] &&
                verify.value.hash(bytes) == verify.value.ids[|old(served)|]
      ensures !good ==> out == old(out) && Bad(|old(served)|)
    {
      bytes := buf;
      assert bytes == disk[reading];
      buf, file := [], None;
      good := verify.value.hash(bytes) == verify.value.ids[reading];
      if good {
        processed := processed + |bytes|;
        out, served := out + bytes, served + [bytes];
        assert served[..|served| - 1] == old(served);
      }
    }

    /** What one pass through the poll may do: answer, or come back for another
        pass with less work left. */
    ghost predicate Passed(o: Option<Poll>, left: nat, unread: int, early: bool, out0: seq<byte>,
                           served0: seq<seq<byte>>, refusals0: nat)
      reads this`fp, this`processed, this`hasSeeked, this`file, this`opening, this`reading
      reads this`buf, this`out, this`served, this`failed, this`refusals
    {
      && (failed <==> o == Some(Fail)) && (!failed ==> refusals == refusals0)
      && (failed ==> refusals > refusals0 || TooFar() || Bad(|served0|))
      && (!failed ==> Valid() && (Left() < left || (Left() == left && Unread() <= unread)))
      && (o == Some(End) ==> Finished())
      && (if o.Some? && o.value.Yield? then
            out == out0 + o.value.bytes && (Left() < left || Unread() < unread) &&
            (verify.Some? && !failed ==>
               served == served0 + [o.value.bytes] && |served0| < |verify.value.ids| &&
               verify.value.hash(o.value.bytes) == verify.value.ids[|served0|])
          else out == out0)
      && (o.None? ==> served == served0 && (Left() < left || Unread() < unread || (early && processed >= Start())))
    }

    /** The pass that reads, once there is nothing to skip. */
    method ReadPass() returns (o: Option<Poll>)
      requires Valid() && !failed && file.Some? && processed < Stop() && (hasSeeked || Start() <= processed)
      modifies this
      ensures Passed(o, old(Left()), old(Unread()), old(processed < Start()), old(out), old(served),
                     old(refusals))
      ensures pendings == old(pendings) && (o.Some? ==> !o.value.Pending?)
    {
      if verify.Some? {
        o := CheckedPass();
      } else {
        o := PlainPass();
      }
    }

    method CheckedPass() returns (o: Option<Poll>)
      requires Checked() && !failed && file.Some?
      modifies this`file, this`processed, this`buf, this`out, this`served, this`failed
      ensures Passed(o, old(Left()), old(Unread()), old(processed < Start()), old(out), old(served), old(refusals))
      ensures o.Some? ==> !o.value.Pending?
    {
      var done, good, bytes := ReadChecked();
      failed := done && !good;
      o := if !done then None else if good then Some(Yield(bytes)) else Some(Fail);
    }

    method PlainPass() returns (o: Option<Poll>)
      requires Plain() && !failed && file.Some? && Start() <= processed < Stop()
      modifies this`file, this`processed, this`out
      ensures Passed(o, old(Left()), old(Unread()), old(processed < Start()), old(out), old(served), old(refusals))
      ensures o.Some? ==> !o.value.Pending?
    {
      var bytes := ReadPlain();
      o := if bytes == [] then None else Some(Yield(bytes));
    }

    /** The pass with a file open. */
    method FilePass() returns (o: Option<Poll>)
      requires Valid() && !failed && file.Some? && processed < Stop()
      modifies this
      ensures old(!hasSeeked && processed + TwoTo63 <= Start()) ==> o == Some(Fail)
      ensures Passed(o, old(Left()), old(Unread()), old(processed < Start()), old(out), old(served),
                     old(refusals))
      ensures pendings == old(pendings) && (o.Some? ==> !o.value.Pending?)
    {
      if !hasSeeked && Start() > processed {
        if Start() - processed >= TwoTo63 {
          failed := true;
          OffsetStep(disk, fp - 1);
          assert Offset(disk, fp - 1) + TwoTo63 <= Start() < Offset(disk, fp - 1 + 1);
          return Some(Fail);
        }
        Sought();
        return None;
      }
      o := ReadPass();
    }

    /** The pass without a file open. */
    method OpenPass() returns (o: Option<Poll>)
      requires Valid() && !failed && file.None? && processed < Stop()
      modifies this`fp, this`processed, this`opening, this`reading, this`file, this`hasSeeked
      ensures Passed(o, old(Left()), old(Unread()), old(processed < Start()), old(out), old(served), old(refusals))
      ensures o == Some(End) || o == None
    {
      var ended := OpenNext();
      o := if ended then Some(End) else None;
    }

    /** The work of a pass: the open file if there is one, the next file otherwise. */
    method WorkPass() returns (o: Option<Poll>)
      requires Valid() && !failed && processed < Stop()
      modifies this
      ensures Passed(o, old(Left()), old(Unread()), old(processed < Start()), old(out), old(served), old(refusals))
      ensures pendings == old(pendings) && (o.Some? ==> !o.value.Pending?)
    {
      if file.Some? {
        o := FilePass();
      } else {
        o := OpenPass();
      }
    }

    /** One pass, once the system has answered. */
    method Pass() returns (o: Option<Poll>)
      requires Valid() && !failed && processed < Stop()
      modifies this
      ensures Passed(o, old(Left()), old(Unread()), old(processed < Start()), old(out), old(served), old(refusals))
      ensures pendings == old(pendings) + if o == Some(Pending) then 1 else 0
    {
      var ready := Ready();
      if !ready { return Some(Pending); }
      var works := Attempt();
      if !works {
        failed := true;
        return Some(Fail);
      }
      o := WorkPass();
    }

    /** One poll. Pending may come at any wait, an error at any system call; short
        of an error the stream has yielded exactly the next bytes, and it ends only
        when nothing is left to yield. It fails only for a system call that failed, a
        block that is not what its address says, or a seek that cannot be expressed. */
    method PollNext() returns (r: Poll)
      requires Valid() && !failed
      modifies this
      ensures failed <==> r.Fail?
      ensures !failed ==> refusals == old(refusals)
      ensures r.Fail? ==> refusals > old(refusals) || TooFar() || Bad(|old(served)|)
      ensures !failed ==> Valid()
      ensures out == if r.Yield? then old(out) + r.bytes else old(out)
      ensures r.End? ==> Finished()
      ensures pendings == old(pendings) + if r.Pending? then 1 else 0
      ensures !failed ==> Left() < old(Left()) || (Left() == old(Left()) && Unread() <= old(Unread()))
      ensures r.Yield? ==> Left() < old(Left()) || Unread() < old(Unread())
      ensures r.Yield? && verify.Some? ==>
                served == old(served) + [r.bytes] && verify.value.hash(r.bytes) == verify.value.ids[|old(served)|]
    {
      while true
        invariant Valid() && !failed && out == old(out) && served == old(served)
        invariant pendings == old(pendings) && refusals == old(refusals)
        invariant Left() < old(Left()) || (Left() == old(Left()) && Unread() <= old(Unread()))
        decreases Left(), Unread(), processed < Start()
      {
        if processed >= Stop() {
          if verify.None? { WindowComplete(); }
          return End;
        }
        var o := Pass();
        if o.Some? { return o.value; }
      }
    }

    /** Chooses the next file, if the window reaches one. */
    method ChooseNext() returns (ended: bool)
      requires Valid() && file.None? && opening.None? && processed < Stop()
      modifies this`fp, this`processed, this`opening, this`reading
      ensures Valid() && file.None? && (ended ==> Finished() && Left() <= old(Left()))
      ensures !ended ==> opening.Some? && Left() < old(Left())
    {
      ended := SkipFiles();
      if ended { return; }
      if fp >= |sizes| {
        OffsetEnd(disk);
        if verify.None? { WindowComplete(); }
        return true;
      }
      BeginOpen();
    }

    /** Chooses the next file, unless one is being opened already, and opens it. */
    method OpenNext() returns (ended: bool)
      requires Valid() && file.None? && processed < Stop()
      modifies this`fp, this`processed, this`opening, this`reading, this`file, this`hasSeeked
      ensures Valid() && (ended ==> Finished() && Left() <= old(Left())) && (!ended ==> Left() < old(Left()))
      ensures Unread() >= 0 && (ended ==> Unread() == old(Unread()))
    {
      if opening.None? {
        ended := ChooseNext();
        if ended { return; }
      }
      Opened();
      ended := false;
    }

    /** The reader that polls until the end: it gets all of the window, unless the stream
        answers "pending" more than `patience` times, a system call fails, a block is not
        what its address says, or the seek cannot be expressed. */
    method ReadAll(patience: nat) returns (complete: bool)
      requires Valid() && !failed
      modifies this
      ensures complete ==> Finished() && Valid() && !failed
      ensures !complete && !failed ==> Valid() && pendings > old(pendings) + patience
      ensures !failed ==> refusals == old(refusals)
      ensures failed ==> !complete && (refusals > old(refusals) || TooFar() || exists i :: Bad(i))
      ensures old(out) <= out
    {
      var waits := patience;
      while true
        invariant Valid() && !failed && old(out) <= out
        invariant pendings + waits == old(pendings) + patience && refusals == old(refusals)
        decreases waits, Left(), Unread()
      {
        var r := PollNext();
        match r {
          case End => return true;
          case Fail => return false;
          case Pending =>
            if waits == 0 { return false; }
            waits := waits - 1;
          case Yield(_) =>
        }
      }
    }
  }

  /** `hash` tells any two byte strings apart. */
  ghost predicate Injective(hash: seq<byte> -> BlockId) {
    forall a, b :: hash(a) == hash(b) ==> a == b
  }

  /** Over whatever the disk holds, a verified read that ends has yielded the
      blocks the addresses were computed from, whole and in order. */
  lemma VerifiedIsOriginal(s: Stream, blocks: seq<seq<byte>>)
    requires s.verify.Some? && s.Checked() && Injective(s.verify.value.hash)
    requires |blocks| == |s.disk|
    requires forall i :: 0 <= i < |blocks| ==> s.verify.value.ids[i] == s.verify.value.hash(blocks[i])
    ensures s.served == blocks[..|s.served|] && s.out == Flatten(blocks[..|s.served|])
    ensures s.size == |Flatten(blocks)| && s.Finished() ==> s.out == Flatten(blocks)
  {
    assert s.served == blocks[..|s.served|];
    OffsetInside(blocks, |s.served|);
    if s.size == |Flatten(blocks)| && s.Finished() {
      if |s.served| == |s.disk| { assert blocks[..|s.served|] == blocks; }
      assert Flatten(blocks)[..|s.out|] == s.out;
    }
  }
}
