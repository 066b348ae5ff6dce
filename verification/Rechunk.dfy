/** Re-chunking a byte stream of arbitrary frames into blocks of one size. */
module Rechunk {
  import opened Ids
  import opened Sequences

  const BlockSize: nat := 1048576

  datatype Frame = Data(bytes: seq<byte>) | Broken

  datatype Item = Blocks(blocks: seq<seq<byte>>) | ReadError | Done

  /** The blocks of `data`: full ones as long as there is more than a block left,
      then what remains. */
  function Chunks(data: seq<byte>, n: nat): seq<seq<byte>>
    requires n > 0
    decreases |data|
  {
    if data == [] then []
    else if |data| <= n then [data]
    else [data[..n]] + Chunks(data[n..], n)
  }

  lemma FlattenOne(p: seq<byte>)
    ensures Flatten([p]) == p
  {
    FlattenStep([], p);
    assert [] + [p] == [p];
  }

  lemma {:induction false} FlattenAppend(a: seq<seq<byte>>, b: seq<seq<byte>>)
    ensures Flatten(a + b) == Flatten(a) + Flatten(b)
    decreases |b|
  {
    if b == [] {
      assert a + b == a;
    } else {
      var n := |b| - 1;
      assert a + b == (a + b[..n]) + [b[n]];
      FlattenStep(a + b[..n], b[n]);
      FlattenAppend(a, b[..n]);
      assert Flatten(a + b) == Flatten(a + b[..n]) + b[n];
    }
  }

  /** The blocks put together are the data; none is empty, none but the last is
      short, and none is longer than a block. */
  lemma {:induction false} ChunksAreBlocks(data: seq<byte>, n: nat)
    requires n > 0
    ensures Flatten(Chunks(data, n)) == data
    ensures forall i :: 0 <= i < |Chunks(data, n)| ==> 0 < |Chunks(data, n)[i]| <= n
    ensures forall i :: 0 <= i < |Chunks(data, n)| - 1 ==> |Chunks(data, n)[i]| == n
    decreases |data|
  {
    if data == [] {
    } else if |data| <= n {
      FlattenOne(data);
    } else {
      ChunksAreBlocks(data[n..], n);
      FlattenAppend([data[..n]], Chunks(data[n..], n));
      FlattenOne(data[..n]);
      assert data == data[..n] + data[n..];
    }
  }

  /** The only way to cut data into non-empty blocks that are full except for the
      last: the block list depends on the content alone. */
  lemma {:induction false} ChunksAreUnique(parts: seq<seq<byte>>, n: nat)
    requires n > 0
    requires forall i :: 0 <= i < |parts| ==> 0 < |parts[i]| <= n
    requires forall i :: 0 <= i < |parts| - 1 ==> |parts[i]| == n
    ensures parts == Chunks(Flatten(parts), n)
    decreases |parts|
  {
    if parts != [] {
      var rest := parts[1..];
      assert parts == [parts[0]] + rest;
      FlattenAppend([parts[0]], rest);
      FlattenOne(parts[0]);
      ChunksAreUnique(rest, n);
      if rest != [] {
        FlattenAppend([rest[0]], rest[1..]);
        assert rest == [rest[0]] + rest[1..];
        FlattenOne(rest[0]);
        assert Flatten(parts)[..n] == parts[0] && Flatten(parts)[n..] == Flatten(rest);
      }
    }
  }

  /** Full blocks, then at most one more: those are the blocks of the data. */
  lemma FullThenRest(out: seq<seq<byte>>, buffer: seq<byte>)
    requires AllFull(out) && |buffer| <= BlockSize
    ensures Chunks(Flatten(out) + buffer, BlockSize) == if buffer == [] then out else out + [buffer]
  {
    if buffer == [] {
      ChunksAreUnique(out, BlockSize);
      assert Flatten(out) + buffer == Flatten(out);
    } else {
      ChunksAreUnique(out + [buffer], BlockSize);
      FlattenStep(out, buffer);
    }
  }

  lemma OneMoreFull(blocks: seq<seq<byte>>, block: seq<byte>, rest: seq<byte>)
    ensures Flatten(blocks + [block]) + rest == Flatten(blocks) + (block + rest)
  {
    FlattenStep(blocks, block);
  }

  /** The blocks of what was received, once nothing more comes. */
  lemma LastBlock(out: seq<seq<byte>>, buffer: seq<byte>, received: seq<byte>)
    requires AllFull(out) && |buffer| <= BlockSize && Flatten(out) + buffer == received
    ensures var all := if buffer == [] then out else out + [buffer];
            all == Chunks(received, BlockSize) && Flatten(all) + [] == received
  {
    FullThenRest(out, buffer);
    ChunksAreBlocks(received, BlockSize);
    assert received + [] == received;
  }

  /** The data frames among the first `k`, end to end. */
  function Received(frames: seq<Frame>, k: nat): seq<byte>
    requires k <= |frames|
  {
    if k == 0 then [] else Received(frames, k - 1) + if frames[k - 1].Data? then frames[k - 1].bytes else []
  }

  /** Frames from `i` up to `k` that carry data. */
  predicate Clean(frames: seq<Frame>, i: nat, k: nat)
    requires k <= |frames|
  {
    forall j :: i <= j < k ==> frames[j].Data?
  }

  /** Over frames that all carry data, that is every frame's bytes in order. */
  lemma {:induction false} ReceivedIsEverything(frames: seq<Frame>, k: nat)
    requires k <= |frames| && Clean(frames, 0, k)
    ensures Received(frames, k) == Flatten(seq(k, i requires 0 <= i < k => frames[i].bytes))
    decreases k
  {
    if k > 0 {
      ReceivedIsEverything(frames, k - 1);
      var all := seq(k, i requires 0 <= i < k => frames[i].bytes);
      assert all[..k - 1] == seq(k - 1, i requires 0 <= i < k - 1 => frames[i].bytes);
    }
  }

  ghost predicate AllFull(parts: seq<seq<byte>>) {
    forall i :: 0 <= i < |parts| ==> |parts[i]| == BlockSize
  }

  /** `BufferedByteStream` over the frames of a request. `out` collects every
      block handed out. */
  class BufferedByteStream {
    const frames: seq<Frame>
    var next: nat
    var buffer: seq<byte>
    var finished: bool
    ghost var out: seq<seq<byte>>

    constructor (frames: seq<Frame>)
      ensures this.frames == frames && next == 0 && Valid() && out == [] && !finished
    {
      this.frames := frames;
      next, buffer, finished, out := 0, [], false, [];
    }

    /** Full blocks are out, at most one block is buffered, and together they are
        what has been received. Once finished, all of it is out. */
    ghost predicate Valid()
      reads this
    {
      && next <= |frames| && |buffer| <= BlockSize
      && Flatten(out) + buffer == Received(frames, next)
      && (!finished ==> AllFull(out))
      && (finished ==> next == |frames| && buffer == [] && out == Chunks(Received(frames, next), BlockSize))
    }

    /** Hands out full blocks in one go. */
    ghost method Emit(blocks: seq<seq<byte>>)
      requires AllFull(out) && AllFull(blocks)
      modifies this`out
      ensures out == old(out) + blocks && AllFull(out) && Flatten(out) == Flatten(old(out)) + Flatten(blocks)
    {
      FlattenAppend(out, blocks);
      out := out + blocks;
    }

    /** A frame longer than the room left: the buffer is filled and goes, then
        blocks straight out of the frame while more than one is left in it. */
    method Overflow(bytes: seq<byte>) returns (blocks: seq<seq<byte>>)
      requires |buffer| <= BlockSize && |bytes| > BlockSize - |buffer|
      modifies this`buffer
      ensures AllFull(blocks) && blocks != [] && 0 < |buffer| <= BlockSize
      ensures Flatten(blocks) + buffer == old(buffer) + bytes
    {
      var at := BlockSize - |buffer|;
      blocks := [buffer + bytes[..at]];
      FlattenOne(blocks[0]);
      assert old(buffer) + bytes[..at] + bytes[at..] == old(buffer) + bytes;
      while |bytes| - at > BlockSize
        invariant 0 <= at < |bytes| && AllFull(blocks) && blocks != []
        invariant Flatten(blocks) + bytes[at..] == old(buffer) + bytes
      {
        OneMoreFull(blocks, bytes[at..at + BlockSize], bytes[at + BlockSize..]);
        assert bytes[at..] == bytes[at..at + BlockSize] + bytes[at + BlockSize..];
        blocks := blocks + [bytes[at..at + BlockSize]];
        at := at + BlockSize;
      }
      buffer := bytes[at..];
    }

    /** The end of the input: the buffer, unless it is empty, is the last block. */
    method Finish() returns (item: Item)
      requires Valid() && !finished && next == |frames|
      modifies this`buffer, this`finished, this`out
      ensures Valid() && finished
      ensures item == if old(buffer) == [] then Done else Blocks([old(buffer)])
      ensures out == old(out) + if item.Done? then [] else item.blocks
    {
      LastBlock(out, buffer, Received(frames, next));
      finished := true;
      if buffer == [] { return Done; }
      item, out := Blocks([buffer]), out + [buffer];
      buffer := [];
    }

    /** One frame: appended, or completing the block, or overflowing it. */
    method TakeFrame(bytes: seq<byte>) returns (blocks: seq<seq<byte>>)
      requires |buffer| <= BlockSize && AllFull(out)
      modifies this`buffer, this`out
      ensures |buffer| <= BlockSize && AllFull(out) && out == old(out) + blocks
      ensures Flatten(out) + buffer == Flatten(old(out)) + old(buffer) + bytes
    {
      var room := BlockSize - |buffer|;
      ghost var had := buffer;
      if |bytes| < room {
        buffer, blocks := buffer + bytes, [];
        assert Flatten(out) + buffer == Flatten(out) + had + bytes;
      } else {
        if |bytes| == room {
          blocks, buffer := [buffer + bytes], [];
          FlattenOne(blocks[0]);
        } else {
          blocks := Overflow(bytes);
        }
        assert Flatten(blocks) + buffer == had + bytes;
        Emit(blocks);
        assert Flatten(out) + buffer == Flatten(old(out)) + (Flatten(blocks) + buffer);
      }
    }

    /** One poll. */
    method PollNext() returns (item: Item)
      requires Valid()
      modifies this
      ensures Valid() && next >= old(next) && (old(finished) ==> finished && item.Done?)
      ensures item.Blocks? ==> item.blocks != [] && out == old(out) + item.blocks
      ensures !item.Blocks? ==> out == old(out)
      ensures item.Done? ==> finished
      ensures item.Blocks? ==> next > old(next) || (finished && !old(finished))
      ensures !item.ReadError? ==> Clean(frames, old(next), next)
      ensures item.ReadError? ==> next > old(next) && frames[next - 1].Broken? && Clean(frames, old(next), next - 1)
    {
      if finished { return Done; }
      while next < |frames|
        invariant Valid() && !finished && out == old(out) && next >= old(next) && Clean(frames, old(next), next)
        decreases |frames| - next
      {
        var frame := frames[next];
        if frame.Broken? {
          next := next + 1;
          return ReadError;
        }
        var blocks := TakeFrame(frame.bytes);
        next := next + 1;
        if blocks != [] { return Blocks(blocks); }
      }
      item := Finish();
    }

    /** Reads to the end, or to the first broken frame. Over error-free frames, however
        the bytes were framed, the blocks are those of the content: equal content, equal
        blocks. */
    method ReadAll() returns (ok: bool)
      requires Valid() && next == 0 && !finished && out == []
      modifies this
      ensures Valid()
      ensures ok <==> Clean(frames, 0, |frames|)
      ensures ok ==> finished && out == Chunks(Received(frames, |frames|), BlockSize)
      ensures !ok ==> next > 0 && frames[next - 1].Broken? && Clean(frames, 0, next - 1)
    {
      while true
        invariant Valid() && Clean(frames, 0, next)
        decreases |frames| - next, !finished
      {
        var item := PollNext();
        match item {
          case Done => return true;
          case ReadError => return false;
          case Blocks(_) =>
        }
      }
    }
  }
}
