/** muduo/net/Buffer.h and Buffer.cc: a growable byte buffer with a cheap
    prepend area, as a refinement of the byte sequence `Contents()`. */
module NetBuffer {
  import opened Bytes

  const CHEAP_PREPEND: nat := 8
  const INITIAL_SIZE: nat := 1024
  const SPILL_SIZE: nat := 65536

  /** How many bytes one readv may deliver when `writable` bytes are free: the spill
      area is offered only when the buffer itself has less room than the spill area. */
  function ReadLimit(writable: nat): nat {
    writable + (if writable < SPILL_SIZE then SPILL_SIZE else 0)
  }

  class Buffer {
    var data: bytes
    var readerIndex: nat
    var writerIndex: nat

    ghost predicate Valid()
      reads this
    {
      CHEAP_PREPEND <= |data| && readerIndex <= writerIndex <= |data|
    }

    function Contents(): bytes
      reads this
      requires Valid()
    {
      data[readerIndex..writerIndex]
    }

    function ReadableBytes(): nat
      reads this
      requires Valid()
    {
      writerIndex - readerIndex
    }

    function WritableBytes(): nat
      reads this
      requires Valid()
    {
      |data| - writerIndex
    }

    function PrependableBytes(): nat
      reads this
    {
      readerIndex
    }

    constructor (initialSize: nat)
      ensures Valid() && Contents() == []
      ensures WritableBytes() == initialSize && PrependableBytes() == CHEAP_PREPEND
    {
      data := seq(CHEAP_PREPEND + initialSize, _ => 0);
      readerIndex, writerIndex := CHEAP_PREPEND, CHEAP_PREPEND;
    }

    /** std::copy of `src` over the bytes starting at `at`. */
    method Overwrite(at: nat, src: bytes)
      requires at + |src| <= |data|
      modifies this`data
      ensures data == old(data)[..at] + src + old(data)[at + |src|..]
      ensures |data| == |old(data)|
    {
      data := data[..at] + src + data[at + |src|..];
    }

    method RetrieveAll()
      requires Valid()
      modifies this
      ensures Valid() && Contents() == [] && data == old(data)
      ensures PrependableBytes() == CHEAP_PREPEND
    {
      readerIndex, writerIndex := CHEAP_PREPEND, CHEAP_PREPEND;
    }

    /** Drops a prefix. */
    method Retrieve(len: nat)
      requires Valid() && len <= |Contents()|
      modifies this
      ensures Valid() && Contents() == old(Contents())[len..] && data == old(data)
    {
      if len < ReadableBytes() {
        readerIndex := readerIndex + len;
      } else {
        RetrieveAll();
      }
    }

    method RetrieveAsString(len: nat) returns (result: bytes)
      requires Valid() && len <= |Contents()|
      modifies this
      ensures Valid() && result + Contents() == old(Contents()) && |result| == len
    {
      result := data[readerIndex..readerIndex + len];
      Retrieve(len);
    }

    /** Grows the vector or moves the readable bytes to the front; the content stays.
        The assertion in the second branch is the one the code carries. */
    method MakeSpace(len: nat)
      requires Valid() && WritableBytes() < len
      modifies this
      ensures Valid() && Contents() == old(Contents()) && WritableBytes() >= len
      ensures PrependableBytes() == old(PrependableBytes()) || PrependableBytes() == CHEAP_PREPEND
    {
      if WritableBytes() + PrependableBytes() < len + CHEAP_PREPEND {
        data := data + seq(writerIndex + len - |data|, _ => 0);
      } else {
        assert CHEAP_PREPEND < readerIndex;
        var readable := ReadableBytes();
        Overwrite(CHEAP_PREPEND, data[readerIndex..writerIndex]);
        readerIndex := CHEAP_PREPEND;
        writerIndex := readerIndex + readable;
      }
    }

    method EnsureWritableBytes(len: nat)
      requires Valid()
      modifies this
      ensures Valid() && Contents() == old(Contents()) && WritableBytes() >= len
      ensures PrependableBytes() == old(PrependableBytes()) || PrependableBytes() == CHEAP_PREPEND
    {
      if WritableBytes() < len {
        MakeSpace(len);
      }
    }

    method HasWritten(len: nat)
      requires Valid() && len <= WritableBytes()
      modifies this`writerIndex
      ensures Valid() && Contents() == old(Contents()) + old(data)[old(writerIndex)..old(writerIndex) + len]
      ensures writerIndex == old(writerIndex) + len
    {
      writerIndex := writerIndex + len;
    }

    method Unwrite(len: nat)
      requires Valid() && len <= |Contents()|
      modifies this`writerIndex
      ensures Valid() && Contents() == old(Contents())[..|old(Contents())| - len]
    {
      writerIndex := writerIndex - len;
    }

    method Append(src: bytes)
      requires Valid()
      modifies this
      ensures Valid() && Contents() == old(Contents()) + src
      ensures PrependableBytes() == old(PrependableBytes()) || PrependableBytes() == CHEAP_PREPEND
    {
      EnsureWritableBytes(|src|);
      Overwrite(writerIndex, src);
      assert Contents() == old(Contents());
      HasWritten(|src|);
    }

    method Prepend(src: bytes)
      requires Valid() && |src| <= PrependableBytes()
      modifies this
      ensures Valid() && Contents() == src + old(Contents())
      ensures PrependableBytes() == old(PrependableBytes()) - |src|
    {
      readerIndex := readerIndex - |src|;
      Overwrite(readerIndex, src);
    }

    /** Moves the content into a fresh vector with `reserve` bytes to spare. */
    method Shrink(reserve: nat)
      requires Valid()
      modifies this
      ensures Valid() && Contents() == old(Contents()) && WritableBytes() >= reserve
    {
      var other := new Buffer(INITIAL_SIZE);
      other.EnsureWritableBytes(ReadableBytes() + reserve);
      ghost var room := other.WritableBytes();
      other.AppendInPlace(Contents());
      assert other.WritableBytes() == room - |Contents()|;
      data, readerIndex, writerIndex := other.data, other.readerIndex, other.writerIndex;
    }

    /** `Append` when the room is already there: nothing moves. */
    method AppendInPlace(src: bytes)
      requires Valid() && |src| <= WritableBytes()
      modifies this
      ensures Valid() && Contents() == old(Contents()) + src
      ensures WritableBytes() == old(WritableBytes()) - |src|
    {
      Overwrite(writerIndex, src);
      HasWritten(|src|);
    }

    /** One readv into the free space and then the spill area. `arrived` is what the kernel
        delivered, or None for an error. */
    method ReadFd(arrived: Option<bytes>) returns (n: int)
      requires Valid()
      requires arrived.Some? ==> |arrived.value| <= ReadLimit(WritableBytes())
      modifies this
      ensures Valid()
      ensures arrived.None? ==> n < 0 && Contents() == old(Contents())
      ensures arrived.Some? ==> n == |arrived.value| && Contents() == old(Contents()) + arrived.value
    {
      if arrived.None? {
        return -1;
      }
      var got := arrived.value;
      n := |got|;
      var writable := WritableBytes();
      if n <= writable {
        Overwrite(writerIndex, got);
        writerIndex := writerIndex + n;
      } else {
        Overwrite(writerIndex, got[..writable]);
        writerIndex := |data|;
        assert Contents() == old(Contents()) + got[..writable];
        Append(got[writable..]);
        assert got == got[..writable] + got[writable..];
      }
    }

    /** Signed integers of n = 1, 2, 4 or 8 bytes in network order. */
    method AppendInt(x: int, n: nat)
      requires Valid() && FitsSigned(x, n)
      modifies this
      ensures Valid() && Contents() == old(Contents()) + EncodeSigned(x, n)
      ensures PrependableBytes() == old(PrependableBytes()) || PrependableBytes() == CHEAP_PREPEND
    {
      Append(EncodeSigned(x, n));
    }

    method PrependInt(x: int, n: nat)
      requires Valid() && FitsSigned(x, n) && n <= PrependableBytes()
      modifies this
      ensures Valid() && Contents() == EncodeSigned(x, n) + old(Contents())
    {
      Prepend(EncodeSigned(x, n));
    }

    /** The integer whose network order is at the front of the content. */
    method PeekInt(n: nat) returns (x: int)
      requires Valid() && n <= |Contents()|
      ensures FitsSigned(x, n) && EncodeSigned(x, n) == Contents()[..n]
    {
      var front := data[readerIndex..readerIndex + n];
      SignedRoundTripBytes(front);
      x := DecodeSigned(front);
      assert front == Contents()[..n];
    }

    method ReadInt(n: nat) returns (x: int)
      requires Valid() && n <= |Contents()|
      modifies this
      ensures Valid() && FitsSigned(x, n)
      ensures EncodeSigned(x, n) + Contents() == old(Contents())
    {
      x := PeekInt(n);
      Retrieve(n);
    }

    /** std::search for CRLF in the readable bytes, as an offset from peek(). */
    method SearchCRLF() returns (r: Option<nat>)
      requires Valid()
      ensures r == FindCRLF(Contents())
    {
      var i := readerIndex;
      ghost var s := Contents();
      while i + 1 < writerIndex
        invariant readerIndex <= i <= writerIndex
        invariant CRLFFrom(s, i - readerIndex) == FindCRLF(s)
      {
        if data[i] == CR && data[i + 1] == LF {
          assert CRLFAt(s, i - readerIndex);
          return Some(i - readerIndex);
        }
        assert !CRLFAt(s, i - readerIndex);
        i := i + 1;
      }
      r := None;
    }
  }

  /** The operations a user may issue, with what they mean on the content. */
  datatype BufferOp =
    | OpAppend(src: bytes)
    | OpPrepend(src: bytes)
    | OpRetrieve(len: nat)
    | OpUnwrite(len: nat)
    | OpReadFd(arrived: Option<bytes>)
    | OpWriteInPlace(src: bytes)    // the caller fills the free space itself, then hasWritten
    | OpReserve(len: nat)
    | OpShrink(len: nat)

  /** The content after an operation; None when the code's own assertion on the content fails. */
  function Meaning(c: bytes, op: BufferOp): Option<bytes> {
    match op
    case OpAppend(src) => Some(c + src)
    case OpPrepend(src) => Some(src + c)
    case OpRetrieve(len) => if len <= |c| then Some(c[len..]) else None
    case OpUnwrite(len) => if len <= |c| then Some(c[..|c| - len]) else None
    case OpReadFd(arrived) => Some(if arrived.Some? then c + arrived.value else c)
    case OpWriteInPlace(src) => Some(c + src)
    case OpReserve(_) => Some(c)
    case OpShrink(_) => Some(c)
  }

  function MeaningOfRun(c: bytes, ops: seq<BufferOp>): Option<bytes> {
    if ops == [] then Some(c)
    else
      var front := MeaningOfRun(c, ops[..|ops| - 1]);
      if front.None? then None else Meaning(front.value, ops[|ops| - 1])
  }

  /** The demands that concern the layout: room in front for a prepend, room behind for a write in place,
      and what one readv can deliver. */
  predicate LayoutAllows(b: Buffer, op: BufferOp)
    reads b
    requires b.Valid()
  {
    match op
    case OpPrepend(src) => |src| <= b.PrependableBytes()
    case OpReadFd(arrived) => arrived.Some? ==> |arrived.value| <= ReadLimit(b.WritableBytes())
    case OpWriteInPlace(src) => |src| <= b.WritableBytes()
    case _ => true
  }

  method Perform(b: Buffer, op: BufferOp)
    requires b.Valid() && LayoutAllows(b, op) && Meaning(b.Contents(), op).Some?
    modifies b
    ensures b.Valid() && Some(b.Contents()) == Meaning(old(b.Contents()), op)
  {
    match op
    case OpAppend(src) => b.Append(src);
    case OpPrepend(src) => b.Prepend(src);
    case OpRetrieve(len) => b.Retrieve(len);
    case OpUnwrite(len) => b.Unwrite(len);
    case OpReadFd(arrived) => var _ := b.ReadFd(arrived);
    case OpWriteInPlace(src) => b.AppendInPlace(src);
    case OpReserve(len) => b.EnsureWritableBytes(len);
    case OpShrink(len) => b.Shrink(len);
  }

  /** Refinement over a whole run: after any list of operations, performed up to the first one
      whose demand is not met, the buffer holds exactly what the list means on byte sequences. */
  method Replay(b: Buffer, ops: seq<BufferOp>) returns (done: nat)
    requires b.Valid()
    modifies b
    ensures b.Valid() && done <= |ops|
    ensures Some(b.Contents()) == MeaningOfRun(old(b.Contents()), ops[..done])
    ensures done < |ops| ==>
              !LayoutAllows(b, ops[done]) || MeaningOfRun(old(b.Contents()), ops[..done + 1]).None?
  {
    done := 0;
    while done < |ops|
      invariant b.Valid() && done <= |ops|
      invariant Some(b.Contents()) == MeaningOfRun(old(b.Contents()), ops[..done])
    {
      assert ops[..done + 1][..done] == ops[..done];
      if !LayoutAllows(b, ops[done]) || Meaning(b.Contents(), ops[done]).None? {
        return;
      }
      Perform(b, ops[done]);
      done := done + 1;
    }
  }
}
