/** The octet ring of sal_ring.h, for any size from one octet up. */
module Ring {
  import opened Modular

  predicate Indices(read: int, write: int, size: int) {
    0 <= read < size && 0 <= write < size
  }

  function AvailForRead(read: int, write: int, size: int): int
    requires Indices(read, write, size)
  {
    (write - read + size) % size
  }

  function CavailForRead(read: int, write: int, size: int): int
    requires Indices(read, write, size)
  {
    if write >= read then write - read else size - read
  }

  function AvailForWrite(read: int, write: int, size: int): int
    requires Indices(read, write, size)
  {
    if read == write then size - 1 else (read - write - 1 + size) % size
  }

  function CavailForWrite(read: int, write: int, size: int): int
    requires Indices(read, write, size)
  {
    if read > write then AvailForWrite(read, write, size)
    else if read == 0 then size - write - 1
    else size - write
  }

  /** Octets to read and octets to write make up all but one octet of the ring. */
  lemma SpaceIsConserved(read: int, write: int, size: int)
    requires Indices(read, write, size)
    ensures AvailForRead(read, write, size) == if write >= read then write - read else write - read + size
    ensures AvailForRead(read, write, size) + AvailForWrite(read, write, size) == size - 1
  {
    WrapsOnce(write - read + size, size);
    if read != write {
      WrapsOnce(read - write - 1 + size, size);
    }
  }

  /** The contiguous part and the part after the wrap make up the total, for reading and for writing. */
  lemma ContiguousParts(read: int, write: int, size: int)
    requires Indices(read, write, size)
    ensures var n := CavailForRead(read, write, size);
            && 0 <= n && read + n <= size
            && n + CavailForRead((read + n) % size, write, size) == AvailForRead(read, write, size)
    ensures var n := CavailForWrite(read, write, size);
            && 0 <= n && write + n <= size
            && n + CavailForWrite(read, (write + n) % size, size) == AvailForWrite(read, write, size)
  {
    SpaceIsConserved(read, write, size);
    var n, m := CavailForRead(read, write, size), CavailForWrite(read, write, size);
    WrapsOnce(read + n, size);
    WrapsOnce(write + m, size);
    SpaceIsConserved(read, (write + m) % size, size);
  }

  /** Moving an index within the available space shifts exactly that many octets. */
  lemma MovesShiftSpace(read: int, write: int, size: int, n: nat)
    requires Indices(read, write, size)
    ensures n <= AvailForRead(read, write, size) ==>
              AvailForRead((read + n) % size, write, size) == AvailForRead(read, write, size) - n
    ensures n <= AvailForWrite(read, write, size) ==>
              AvailForRead(read, (write + n) % size, size) == AvailForRead(read, write, size) + n
  {
    SpaceIsConserved(read, write, size);
    if n < size {
      WrapsOnce(read + n, size);
      WrapsOnce(write + n, size);
      SpaceIsConserved((read + n) % size, write, size);
      SpaceIsConserved(read, (write + n) % size, size);
    }
  }

  /** The n octets of d from index start on, wrapping at the end. */
  function Cyclic(d: seq<bv8>, start: nat, n: nat): (r: seq<bv8>)
    requires start < |d| && n <= |d|
    ensures |r| == n
  {
    seq(n, i requires 0 <= i < n => if start + i < |d| then d[start + i] else d[start + i - |d|])
  }

  /** memcpy of x to index at. */
  function Store(d: seq<bv8>, at: nat, x: seq<bv8>): (r: seq<bv8>)
    requires at + |x| <= |d|
    ensures |r| == |d|
  {
    d[..at] + x + d[at + |x|..]
  }

  function Unread(d: seq<bv8>, read: int, write: int): seq<bv8>
    requires Indices(read, write, |d|)
  {
    SpaceIsConserved(read, write, |d|);
    Cyclic(d, read, AvailForRead(read, write, |d|))
  }

  /** Reading within the available space takes octets off the front. */
  lemma ReadTakes(d: seq<bv8>, read: int, write: int, n: nat)
    requires Indices(read, write, |d|) && n <= AvailForRead(read, write, |d|)
    ensures Unread(d, (read + n) % |d|, write) == Unread(d, read, write)[n..]
    ensures n <= CavailForRead(read, write, |d|) ==> read + n <= |d| && d[read..read + n] == Unread(d, read, write)[..n]
  {
    SpaceIsConserved(read, write, |d|);
    MovesShiftSpace(read, write, |d|, n);
    WrapsOnce(read + n, |d|);
  }

  /** Moving the write index makes the octets behind it readable, in order. */
  lemma MoveAppends(d: seq<bv8>, read: int, write: int, n: nat)
    requires Indices(read, write, |d|) && n <= AvailForWrite(read, write, |d|)
    ensures n <= |d|
    ensures Unread(d, read, (write + n) % |d|) == Unread(d, read, write) + Cyclic(d, write, n)
  {
    SpaceIsConserved(read, write, |d|);
    MovesShiftSpace(read, write, |d|, n);
    WrapsOnce(write + n, |d|);
  }

  /** Writing within the contiguous space appends exactly the octets written. */
  lemma WriteAppends(d: seq<bv8>, read: int, write: int, x: seq<bv8>)
    requires Indices(read, write, |d|) && |x| <= CavailForWrite(read, write, |d|)
    ensures write + |x| <= |d|
    ensures Unread(Store(d, write, x), read, (write + |x|) % |d|) == Unread(d, read, write) + x
  {
    SpaceIsConserved(read, write, |d|);
    ContiguousParts(read, write, |d|);
    MovesShiftSpace(read, write, |d|, |x|);
    WrapsOnce(write + |x|, |d|);
  }

  /** struct ring_buffer_s. */
  class RingBuffer {
    var readIdx: int
    var writeIdx: int
    var size: int
    var data: array<bv8>

    ghost predicate Valid()
      reads this
    {
      size == data.Length && Indices(readIdx, writeIdx, size)
    }

    /** The octets written and not yet read, oldest first. */
    ghost function Contents(): seq<bv8>
      requires Valid()
      reads this, data
    {
      Unread(data[..], readIdx, writeIdx)
    }

    constructor (buf: array<bv8>)
      requires buf.Length > 0
      ensures Valid() && data == buf && readIdx == writeIdx == 0 && Contents() == []
    {
      readIdx := 0;
      writeIdx := 0;
      size := buf.Length;
      data := buf;
      new;
      SpaceIsConserved(readIdx, writeIdx, size);
    }

    method Reset()
      requires Valid()
      modifies `readIdx, `writeIdx
      ensures Valid() && Contents() == []
    {
      readIdx := 0;
      writeIdx := 0;
      SpaceIsConserved(readIdx, writeIdx, size);
    }

    method MoveRead(n: nat)
      requires Valid()
      modifies `readIdx
      ensures Valid() && readIdx == (old(readIdx) + n) % size
      ensures n <= |old(Contents())| ==> Contents() == old(Contents())[n..]
    {
      if n <= AvailForRead(readIdx, writeIdx, size) {
        ReadTakes(data[..], readIdx, writeIdx, n);
      }
      readIdx := (readIdx + n) % size;
    }

    method MoveWrite(n: nat)
      requires Valid()
      modifies `writeIdx
      ensures Valid() && writeIdx == (old(writeIdx) + n) % size
      ensures n < size - |old(Contents())| ==>
                Contents() == old(Contents()) + Cyclic(data[..], old(writeIdx), n)
    {
      SpaceIsConserved(readIdx, writeIdx, size);
      if n <= AvailForWrite(readIdx, writeIdx, size) {
        MoveAppends(data[..], readIdx, writeIdx, n);
      }
      writeIdx := (writeIdx + n) % size;
    }
  }
}
