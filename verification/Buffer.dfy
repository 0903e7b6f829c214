/**
 * Buffer.h and Buffer.cpp: a byte array with a cheap prepend area, a readable
 * region between two indices, and a writable tail that is made larger by
 * compacting or by growing.
 */
module NetBuffer {
  import opened Basics
  import opened Codec

  const CHEAP_PREPEND: nat := 8
  const INITIAL_SIZE: nat := 1024
  const EXTRA_BUFFER: nat := 65536

  /** `buffer_.size()`, `readerIndex_` and `writerIndex_`: all of a Buffer but its bytes. */
  datatype Shape = Shape(size: nat, reader: nat, writer: nat) {

    /** The index invariant. An empty buffer always has both indices back at the prepend boundary. */
    ghost predicate Ok() {
      && reader <= writer <= size
      && CHEAP_PREPEND + INITIAL_SIZE <= size
      && (reader == writer ==> reader == CHEAP_PREPEND)
    }

    function Readable(): nat
      requires reader <= writer
    {
      writer - reader
    }

    function Writable(): nat
      requires writer <= size
    {
      size - writer
    }

    function Retrieve(len: nat): Shape
      requires reader <= writer && len <= Readable()
    {
      if len < Readable() then this.(reader := reader + len) else RetrieveAll()
    }

    function RetrieveAll(): Shape {
      this.(reader := CHEAP_PREPEND, writer := CHEAP_PREPEND)
    }

    /** Grow when the prepend slack and the tail together are too small, else slide the content down. */
    function MakeSpace(len: nat): Shape
      requires reader <= writer <= size
    {
      if Writable() + reader < len + CHEAP_PREPEND then this.(size := writer + len)
      else this.(reader := CHEAP_PREPEND, writer := CHEAP_PREPEND + Readable())
    }

    function EnsureWritable(len: nat): Shape
      requires reader <= writer <= size
    {
      if Writable() < len then MakeSpace(len) else this
    }

    function Append(len: nat): Shape
      requires Ok()
    {
      var s := EnsureWritable(len);
      s.(writer := s.writer + len)
    }

    function Prepend(len: nat): Shape
      requires len <= reader
    {
      this.(reader := reader - len)
    }

    /** What readFd leaves after the kernel delivered `n` bytes. */
    function Read(n: nat): Shape
      requires Ok()
    {
      if n <= Writable() then this.(writer := writer + n)
      else this.(writer := size).Append(n - Writable())
    }
  }

  const EMPTY: Shape := Shape(CHEAP_PREPEND + INITIAL_SIZE, CHEAP_PREPEND, CHEAP_PREPEND)

  /** After ensureWritableBytes the tail is large enough, in both branches, and nothing readable was cut off. */
  lemma EnsureWritableIsEnough(s: Shape, len: nat)
    requires s.Ok()
    ensures var t := s.EnsureWritable(len);
            t.Ok() && len <= t.Writable() && t.Readable() == s.Readable() && s.size <= t.size
    ensures s.EnsureWritable(len).size != s.size ==> s.reader < len + CHEAP_PREPEND - s.Writable()
  {
  }

  /** readv(2): an error, or the bytes it delivered. */
  datatype ReadResult = Failed(errno: int) | Delivered(bytes: seq<byte>)

  const CR: byte := 13
  const LF: byte := 10

  /** The two-byte line end "\r\n" starts at offset `i`. */
  predicate CrlfAt(s: seq<byte>, i: nat) {
    i + 1 < |s| && s[i] == 13 && s[i + 1] == 10
  }

  class Buffer {
    var data: array<byte>
    var readerIndex: nat
    var writerIndex: nat

    ghost predicate Valid()
      reads this
    {
      GetShape().Ok()
    }

    ghost function GetShape(): (s: Shape)
      reads this
    {
      Shape(data.Length, readerIndex, writerIndex)
    }

    /** The readable region: what a Buffer is to its users. */
    ghost function Contents(): (s: seq<byte>)
      requires Valid()
      reads this, data
    {
      data[readerIndex..writerIndex]
    }

    constructor ()
      ensures Valid() && fresh(data)
      ensures Contents() == [] && GetShape() == EMPTY
    {
      data := new byte[CHEAP_PREPEND + INITIAL_SIZE](_ => 0);
      readerIndex := CHEAP_PREPEND;
      writerIndex := CHEAP_PREPEND;
    }

    method Swap(rhs: Buffer)
      requires Valid() && rhs.Valid()
      modifies this, rhs
      ensures Valid() && rhs.Valid()
      ensures data == old(rhs.data) && rhs.data == old(data)
      ensures Contents() == old(rhs.Contents()) && rhs.Contents() == old(Contents())
      ensures GetShape() == old(rhs.GetShape()) && rhs.GetShape() == old(GetShape())
    {
      data, rhs.data := rhs.data, data;
      readerIndex, rhs.readerIndex := rhs.readerIndex, readerIndex;
      writerIndex, rhs.writerIndex := rhs.writerIndex, writerIndex;
    }

    function ReadableBytes(): (n: nat)
      requires Valid()
      reads this, data
      ensures n == |Contents()|
    {
      writerIndex - readerIndex
    }

    function WritableBytes(): nat
      requires Valid()
      reads this
    {
      data.Length - writerIndex
    }

    function PrependableBytes(): nat
      reads this
    {
      readerIndex
    }

    /** The bytes from `peek()` on. */
    function Peek(): (s: seq<byte>)
      requires Valid()
      reads this, data
      ensures s == Contents()
    {
      data[readerIndex..writerIndex]
    }

    /** std::search for the line end from `start` bytes past `peek()`: the first match, or nothing. */
    method FindCRLF(start: nat) returns (at: Option<nat>)
      requires Valid()
      requires start <= |Contents()|
      ensures at.Some? ==> start <= at.value && CrlfAt(Contents(), at.value)
      ensures at.Some? ==> forall i | start <= i < at.value :: !CrlfAt(Contents(), i)
      ensures at.None? ==> forall i | start <= i :: !CrlfAt(Contents(), i)
    {
      var i := readerIndex + start;
      while i + 1 < writerIndex
        invariant readerIndex + start <= i <= writerIndex
        invariant forall j | start <= j < i - readerIndex :: !CrlfAt(Contents(), j)
      {
        if data[i] == CR && data[i + 1] == LF {
          assert CrlfAt(Contents(), i - readerIndex);
          return Some(i - readerIndex);
        }
        assert !CrlfAt(Contents(), i - readerIndex);
        i := i + 1;
      }
      at := None;
    }

    method Retrieve(len: nat)
      requires Valid()
      requires len <= |Contents()|
      modifies this
      ensures Valid() && data == old(data)
      ensures Contents() == old(Contents())[len..]
      ensures GetShape() == old(GetShape()).Retrieve(len)
    {
      if len < ReadableBytes() {
        readerIndex := readerIndex + len;
      } else {
        RetrieveAll();
      }
    }

    method RetrieveUntil(end: nat)
      requires Valid()
      requires end <= |Contents()|
      modifies this
      ensures Valid() && data == old(data)
      ensures Contents() == old(Contents())[end..]
      ensures GetShape() == old(GetShape()).Retrieve(end)
    {
      Retrieve(end);
    }

    method RetrieveAll()
      requires Valid()
      modifies this
      ensures Valid() && data == old(data)
      ensures Contents() == []
      ensures GetShape() == old(GetShape()).RetrieveAll()
    {
      readerIndex := CHEAP_PREPEND;
      writerIndex := CHEAP_PREPEND;
    }

    method RetrieveAsString(len: nat) returns (s: seq<byte>)
      requires Valid()
      requires len <= |Contents()|
      modifies this
      ensures Valid() && data == old(data)
      ensures s + Contents() == old(Contents()) && |s| == len
      ensures GetShape() == old(GetShape()).Retrieve(len)
    {
      s := data[readerIndex..readerIndex + len];
      Retrieve(len);
    }

    method RetrieveAllAsString() returns (s: seq<byte>)
      requires Valid()
      modifies this
      ensures Valid() && data == old(data)
      ensures s == old(Contents()) && Contents() == []
      ensures GetShape() == old(GetShape()).RetrieveAll()
    {
      s := RetrieveAsString(ReadableBytes());
    }

    method Append(bytes: seq<byte>)
      requires Valid()
      modifies this, data
      ensures Valid() && (data == old(data) || fresh(data))
      ensures Contents() == old(Contents()) + bytes
      ensures GetShape() == old(GetShape()).Append(|bytes|)
    {
      EnsureWritableBytes(|bytes|);
      CopyIn(data, writerIndex, bytes);
      HasWritten(|bytes|);
    }

    method EnsureWritableBytes(len: nat)
      requires Valid()
      modifies this, data
      ensures Valid() && (data == old(data) || fresh(data))
      ensures Contents() == old(Contents())
      ensures len <= data.Length - writerIndex
      ensures GetShape() == old(GetShape()).EnsureWritable(len)
    {
      if WritableBytes() < len {
        MakeSpace(len);
      }
      assert WritableBytes() >= len;
    }

    method HasWritten(len: nat)
      requires Valid()
      requires len <= data.Length - writerIndex
      modifies this
      ensures Valid() && data == old(data)
      ensures Contents() == old(Contents()) + data[old(writerIndex)..old(writerIndex) + len]
      ensures GetShape() == old(GetShape()).(writer := old(writerIndex) + len)
    {
      writerIndex := writerIndex + len;
    }

    method AppendInt(k: Kind, x: int)
      requires Valid() && k.Holds(x)
      modifies this, data
      ensures Valid() && (data == old(data) || fresh(data))
      ensures Contents() == old(Contents()) + Encode(k, x)
      ensures var tail := Contents()[|old(Contents())|..];
              && |tail| == k.Width()
              && forall i | 0 <= i < k.Width() :: tail[i] == (Unsigned(k, x) / Power256(k.Width() - 1 - i)) % 256
      ensures GetShape() == old(GetShape()).Append(k.Width())
    {
      Append(Encode(k, x));
      OctetIsDigit(k, x);
    }

    /** The one precondition the source states: enough readable bytes for the width. */
    method PeekInt(k: Kind) returns (x: int)
      requires Valid() && k.Width() <= |Contents()|
      ensures k.Holds(x) && Encode(k, x) == Contents()[..k.Width()]
      ensures forall i | 0 <= i < k.Width() ::
                Contents()[i] == (Unsigned(k, x) / Power256(k.Width() - 1 - i)) % 256
    {
      var octets := data[readerIndex..readerIndex + k.Width()];
      x := Decode(k, octets);
      EncodedOctetsRoundTrip(k, octets);
      OctetIsDigit(k, x);
    }

    method ReadInt(k: Kind) returns (x: int)
      requires Valid() && k.Width() <= |Contents()|
      modifies this
      ensures Valid() && data == old(data)
      ensures k.Holds(x) && Encode(k, x) + Contents() == old(Contents())
      ensures forall i | 0 <= i < k.Width() ::
                old(Contents())[i] == (Unsigned(k, x) / Power256(k.Width() - 1 - i)) % 256
      ensures GetShape() == old(GetShape()).Retrieve(k.Width())
    {
      x := PeekInt(k);
      Retrieve(k.Width());
    }

    method PrependInt(k: Kind, x: int)
      requires Valid() && k.Holds(x) && k.Width() <= readerIndex
      modifies this, data
      ensures Valid() && data == old(data)
      ensures Contents() == Encode(k, x) + old(Contents())
      ensures forall i | 0 <= i < k.Width() ::
                Contents()[i] == (Unsigned(k, x) / Power256(k.Width() - 1 - i)) % 256
      ensures GetShape() == old(GetShape()).Prepend(k.Width())
    {
      Prepend(Encode(k, x));
      OctetIsDigit(k, x);
    }

    method Prepend(bytes: seq<byte>)
      requires Valid() && |bytes| <= readerIndex
      modifies this, data
      ensures Valid() && data == old(data)
      ensures Contents() == bytes + old(Contents())
      ensures GetShape() == old(GetShape()).Prepend(|bytes|)
    {
      readerIndex := readerIndex - |bytes|;
      CopyIn(data, readerIndex, bytes);
      HeadFilled(old(data[..]), data[..], readerIndex, writerIndex, bytes);
    }

    /**
     * The two-segment scatter read: the writable tail first, then `extrabuf`,
     * whose part is appended. The kernel never delivers more than both hold.
     */
    method ReadFd(got: ReadResult) returns (n: int, savedErrno: Option<int>)
      requires Valid()
      requires got.Delivered? ==> |got.bytes| <= data.Length - writerIndex + 65536
      modifies this, data
      ensures Valid() && (data == old(data) || fresh(data))
      ensures got.Delivered? ==> n == |got.bytes| && savedErrno == None
      ensures got.Delivered? ==> Contents() == old(Contents()) + got.bytes
      ensures got.Delivered? ==> GetShape() == old(GetShape()).Read(|got.bytes|)
      ensures got.Failed? ==> n == -1 && savedErrno == Some(got.errno)
      ensures got.Failed? ==> data == old(data) && data[..] == old(data[..]) && GetShape() == old(GetShape())
    {
      var extrabuf := new byte[EXTRA_BUFFER](_ => 0);
      savedErrno := None;
      if got.Failed? {
        n := -1;
        savedErrno := Some(got.errno);
      } else {
        n := |got.bytes|;
        TakeIn(extrabuf, got.bytes);
      }
    }

    /** The bytes delivered, in the tail or in the tail and the extra block. */
    method TakeIn(extrabuf: array<byte>, bytes: seq<byte>)
      requires Valid() && extrabuf != data
      requires |bytes| <= data.Length - writerIndex + extrabuf.Length
      modifies this, data, extrabuf
      ensures Valid() && (data == old(data) || fresh(data))
      ensures Contents() == old(Contents()) + bytes
      ensures GetShape() == old(GetShape()).Read(|bytes|)
    {
      var writable := WritableBytes();
      Scatter(extrabuf, bytes);
      if |bytes| <= writable {
        assert bytes[..|bytes|] == bytes;
        writerIndex := writerIndex + |bytes|;
      } else {
        Rejoined(old(Contents()), data[readerIndex..], extrabuf[..|bytes| - writable], bytes, writable);
        Spill(extrabuf[..|bytes| - writable]);
      }
    }

    /** The whole tail has become readable, and what did not fit is appended. */
    method Spill(rest: seq<byte>)
      requires Valid()
      modifies this, data
      ensures Valid() && (data == old(data) || fresh(data))
      ensures Contents() == old(data[readerIndex..]) + rest
      ensures GetShape() == old(GetShape()).(writer := old(data.Length)).Append(|rest|)
    {
      writerIndex := data.Length;
      Append(rest);
    }

    /** What readv(2) stores through its two iovecs: the writable tail, then the extra block. */
    method Scatter(extrabuf: array<byte>, bytes: seq<byte>)
      requires Valid() && extrabuf != data
      requires |bytes| <= data.Length - writerIndex + extrabuf.Length
      modifies data, extrabuf
      ensures var inPlace := if |bytes| <= data.Length - writerIndex then |bytes| else data.Length - writerIndex;
              && data[readerIndex..writerIndex + inPlace] == old(Contents()) + bytes[..inPlace]
              && extrabuf[..|bytes| - inPlace] == bytes[inPlace..]
    {
      var inPlace := if |bytes| <= WritableBytes() then |bytes| else WritableBytes();
      ghost var before := data[..];
      CopyIn(data, writerIndex, bytes[..inPlace]);
      TailFilled(before, data[..], readerIndex, writerIndex, bytes[..inPlace]);
      assert before[readerIndex..writerIndex] == old(Contents());
      CopyIn(extrabuf, 0, bytes[inPlace..]);
    }

    method MakeSpace(len: nat)
      requires Valid()
      requires data.Length - writerIndex < len
      modifies this, data
      ensures Valid() && (data == old(data) || fresh(data))
      ensures Contents() == old(Contents())
      ensures GetShape() == old(GetShape()).MakeSpace(len)
    {
      if WritableBytes() + PrependableBytes() < len + CHEAP_PREPEND {
        Resize(writerIndex + len);
      } else {
        assert CHEAP_PREPEND < readerIndex;
        var readable := ReadableBytes();
        SlideDown(data, readerIndex, writerIndex, CHEAP_PREPEND);
        readerIndex := CHEAP_PREPEND;
        writerIndex := readerIndex + readable;
        assert readable == ReadableBytes();
      }
    }

    /** `buffer_.resize(n)` to a larger size: a new block, the old bytes first, zeros after them. */
    method Resize(n: nat)
      requires Valid() && data.Length <= n
      modifies this
      ensures Valid() && fresh(data) && data.Length == n
      ensures data[..old(data.Length)] == old(data[..]) && Contents() == old(Contents())
      ensures readerIndex == old(readerIndex) && writerIndex == old(writerIndex)
    {
      var bigger := new byte[n](_ => 0);
      forall i | 0 <= i < data.Length {
        bigger[i] := data[i];
      }
      data := bigger;
    }
  }

  /** Writing behind the readable region extends it and leaves it alone. */
  lemma TailFilled(before: seq<byte>, after: seq<byte>, r: nat, w: nat, bytes: seq<byte>)
    requires r <= w && w + |bytes| <= |before| == |after|
    requires after[..w] == before[..w] && after[w..w + |bytes|] == bytes
    ensures after[r..w + |bytes|] == before[r..w] + bytes
  {
    assert after[r..w] == after[..w][r..];
    assert before[r..w] == before[..w][r..];
    assert after[r..w + |bytes|] == after[r..w] + after[w..w + |bytes|];
  }

  /** Writing in front of it does too. */
  lemma HeadFilled(before: seq<byte>, after: seq<byte>, at: nat, w: nat, bytes: seq<byte>)
    requires at + |bytes| <= w <= |before| == |after|
    requires after[at..at + |bytes|] == bytes && after[at + |bytes|..] == before[at + |bytes|..]
    ensures after[at..w] == bytes + before[at + |bytes|..w]
  {
    var mid := at + |bytes|;
    assert after[mid..w] == after[mid..][..w - mid];
    assert before[mid..w] == before[mid..][..w - mid];
    assert after[at..w] == after[at..mid] + after[mid..w];
  }

  lemma Rejoined(before: seq<byte>, here: seq<byte>, there: seq<byte>, bytes: seq<byte>, cut: nat)
    requires cut <= |bytes| && here == before + bytes[..cut] && there == bytes[cut..]
    ensures here + there == before + bytes
  {
    Regroup(before, bytes[..cut], bytes[cut..]);
    assert bytes[..cut] + bytes[cut..] == bytes;
  }

  /** std::copy from outside the array. */
  method CopyIn(a: array<byte>, at: nat, bytes: seq<byte>)
    requires at + |bytes| <= a.Length
    modifies a
    ensures a[at..at + |bytes|] == bytes
    ensures a[..at] == old(a[..at]) && a[at + |bytes|..] == old(a[at + |bytes|..])
  {
    forall i | 0 <= i < |bytes| {
      a[at + i] := bytes[i];
    }
  }

  /** std::copy front to back inside one array, towards lower indices: the ranges may overlap. */
  method SlideDown(a: array<byte>, from: nat, to: nat, dest: nat)
    requires dest < from <= to <= a.Length
    modifies a
    ensures a[dest..dest + (to - from)] == old(a[from..to])
    ensures a[..dest] == old(a[..dest])
  {
    var src, dst := from, dest;
    ghost var was := a[..];
    while src < to
      invariant from <= src <= to && dst == dest + (src - from)
      invariant forall k | dest <= k < dst :: a[k] == was[k + (from - dest)]
      invariant forall k | src <= k < a.Length :: a[k] == was[k]
      invariant forall k | 0 <= k < dest :: a[k] == was[k]
    {
      a[dst] := a[src];
      src, dst := src + 1, dst + 1;
    }
  }
}
