/** The control event queue: fixed-size events over the octet ring, oldest dropped on overflow. */
module EventQueue {
  import opened Bounded
  import opened Modular
  import opened Ring

  /** How many events lie between two slot numbers of a ring of n slots. */
  function Between(read: nat, write: nat, n: nat): int {
    if write >= read then write - read else write - read + n
  }

  lemma Monotone(e: nat, a: nat, b: nat)
    requires a <= b
    ensures e * a <= e * b
    ensures e * (b - a) == e * b - e * a
  {
  }

  /** Two multiples of e are equal, e apart, or at least 2e apart. */
  predicate Apart(low: int, high: int, e: int) {
    low == high || low + e == high || low + 2 * e <= high
  }

  lemma MultiplesApart(e: nat, a: nat, b: nat)
    requires a <= b
    ensures Apart(e * a, e * b, e)
  {
    if a + 2 <= b {
      Monotone(e, a + 2, b);
    } else if a < b {
      Monotone(e, a, b);
    }
  }

  lemma AlignedSpace(read: int, write: int, size: int, e: int)
    requires Indices(read, write, size) && e >= 1
    requires Apart(0, read, e) && read + e <= size && Apart(write, size, e) && write + e <= size
    requires if read <= write then Apart(read, write, e) else Apart(write, read, e)
    ensures CavailForWrite(read, write, size) >= e <==> AvailForRead(read, write, size) + 2 * e <= size
    ensures CavailForRead(read, write, size) >= e <==> AvailForRead(read, write, size) > 0
  {
    SpaceIsConserved(read, write, size);
    hide AvailForRead, AvailForWrite;
  }

  lemma BetweenScaled(read: nat, write: nat, n: nat, e: nat)
    requires read < n && write < n
    ensures e * Between(read, write, n) ==
              if e * write >= e * read then e * write - e * read else e * write - e * read + e * n
  {
    if write >= read {
      Monotone(e, read, write);
    } else {
      Monotone(e, read - write, n);
      Monotone(e, write, read);
      if e == 0 {} else { Monotone(e, write + 1, read); }
    }
  }

  lemma RoomScaled(d: nat, n: nat, e: nat)
    requires e >= 1
    ensures e * d + 2 * e <= e * n <==> d + 2 <= n
    ensures e * d > 0 <==> d > 0
  {
    Distributes(e, d, 1);
    Distributes(e, d, 2);
    if d + 2 <= n {
      Monotone(e, d + 2, n);
    } else {
      Monotone(e, n, d + 1);
    }
    if d > 0 { Monotone(e, 1, d); }
  }

  lemma AlignedAvail(read: nat, write: nat, n: nat, e: nat)
    requires read < n && write < n && e >= 1
    ensures Indices(e * read, e * write, e * n)
    ensures AvailForRead(e * read, e * write, e * n) == e * Between(read, write, n)
  {
    Monotone(e, read + 1, n);
    Monotone(e, write + 1, n);
    BetweenScaled(read, write, n, e);
    hide Between, AvailForRead, AvailForWrite;
    SpaceIsConserved(e * read, e * write, e * n);
  }

  /** With indices at multiples of the event size, the contiguous space tests decide full and empty. */
  lemma SpaceInEvents(read: nat, write: nat, n: nat, e: nat)
    requires read < n && write < n && n >= 2 && e >= 1
    ensures Indices(e * read, e * write, e * n)
    ensures e * read + e <= e * n && e * write + e <= e * n
    ensures AvailForRead(e * read, e * write, e * n) == e * Between(read, write, n)
    ensures CavailForWrite(e * read, e * write, e * n) >= e <==> Between(read, write, n) < n - 1
    ensures CavailForRead(e * read, e * write, e * n) >= e <==> Between(read, write, n) > 0
  {
    AlignedAvail(read, write, n, e);
    RoomScaled(Between(read, write, n), n, e);
    Monotone(e, read + 1, n);
    Monotone(e, write + 1, n);
    MultiplesApart(e, 0, read);
    MultiplesApart(e, write, n);
    if read <= write { MultiplesApart(e, read, write); } else { MultiplesApart(e, write, read); }
    hide AvailForRead, CavailForRead, CavailForWrite, Between, Apart;
    Ordered(e, read, write);
    AlignedSpace(e * read, e * write, e * n, e);
  }

  lemma Ordered(e: nat, a: nat, b: nat)
    requires e >= 1
    ensures e * a <= e * b <==> a <= b
  {
    if a <= b { Monotone(e, a, b); } else { Monotone(e, b + 1, a); }
  }

  /** The octets of n events as n events. */
  function Events(s: seq<bv8>, e: nat, n: nat): (r: seq<seq<bv8>>)
    requires |s| == e * n
    ensures |r| == n
  {
    if n == 0 then []
    else
      assert e * n == e + e * (n - 1);
      [s[..e]] + Events(s[e..], e, n - 1)
  }

  lemma {:induction false} EventsAppend(s: seq<bv8>, x: seq<bv8>, e: nat, n: nat)
    requires |s| == e * n && |x| == e
    ensures |s + x| == e * (n + 1)
    ensures Events(s + x, e, n + 1) == Events(s, e, n) + [x]
  {
    if n == 0 {
      assert s + x == x && x[..e] == x;
    } else {
      assert e * n == e + e * (n - 1);
      EventsAppend(s[e..], x, e, n - 1);
      assert (s + x)[..e] == s[..e];
      assert (s + x)[e..] == s[e..] + x;
    }
  }

  function Successor(slot: nat, n: nat): (r: nat)
    requires slot < n
    ensures r < n
  {
    if slot + 1 == n then 0 else slot + 1
  }

  lemma SuccessorIndex(slot: nat, n: nat, e: nat)
    requires slot < n && e >= 1
    ensures e * n > 0 && e * Successor(slot, n) == (e * slot + e) % (e * n)
  {
    Monotone(e, slot + 1, n);
    WrapsOnce(e * slot + e, e * n);
    if slot + 1 < n { Monotone(e, slot + 2, n); }
  }

  /** The events stored in d between two slots, oldest first. */
  function Stored(d: seq<bv8>, read: nat, write: nat, n: nat, e: nat): (r: seq<seq<bv8>>)
    requires read < n && write < n && n >= 2 && e >= 1 && |d| == e * n
    ensures |r| == Between(read, write, n)
  {
    SpaceInEvents(read, write, n, e);
    Events(Unread(d, e * read, e * write), e, Between(read, write, n))
  }

  lemma NoneStored(d: seq<bv8>, n: nat, e: nat)
    requires n >= 2 && e >= 1 && |d| == e * n
    ensures Stored(d, 0, 0, n, e) == []
  {
  }

  lemma EventsHead(s: seq<bv8>, e: nat, n: nat)
    requires |s| == e * n && n > 0
    ensures e <= |s| && |s[e..]| == e * (n - 1)
    ensures Events(s, e, n)[0] == s[..e] && Events(s, e, n)[1..] == Events(s[e..], e, n - 1)
  {
    assert e * n == e + e * (n - 1);
  }

  /** The oldest event occupies the slot at the read index; dropping it leaves the others. */
  lemma FirstStored(d: seq<bv8>, read: nat, write: nat, n: nat, e: nat)
    requires read < n && write < n && n >= 2 && e >= 1 && |d| == e * n && Between(read, write, n) > 0
    ensures e * read + e <= |d|
    ensures Stored(d, read, write, n, e)[0] == d[e * read..e * read + e]
    ensures Stored(d, Successor(read, n), write, n, e) == Stored(d, read, write, n, e)[1..]
  {
    SpaceInEvents(read, write, n, e);
    SuccessorIndex(read, n, e);
    SpaceInEvents(Successor(read, n), write, n, e);
    var count := Between(read, write, n);
    Monotone(e, 1, count);
    hide Unread, AvailForRead, CavailForRead, CavailForWrite, Events;
    ReadTakes(d, e * read, e * write, e);
    EventsHead(Unread(d, e * read, e * write), e, count);
  }

  /** With room for one more, storing an event at the write index appends it. */
  lemma LastStored(d: seq<bv8>, read: nat, write: nat, n: nat, e: nat, x: seq<bv8>)
    requires read < n && write < n && n >= 2 && e >= 1 && |d| == e * n && |x| == e
    requires Between(read, write, n) < n - 1
    ensures e * write + e <= |d|
    ensures Stored(Store(d, e * write, x), read, Successor(write, n), n, e) == Stored(d, read, write, n, e) + [x]
  {
    SpaceInEvents(read, write, n, e);
    WriteAppends(d, e * read, e * write, x);
    SuccessorIndex(write, n, e);
    SpaceInEvents(read, Successor(write, n), n, e);
    EventsAppend(Unread(d, e * read, e * write), x, e, Between(read, write, n));
  }

  /** memcpy of an event to its place. */
  method CopyIn(data: array<bv8>, at: nat, event: seq<bv8>)
    requires at + |event| <= data.Length
    modifies data
    ensures data[..] == Store(old(data[..]), at, event)
  {
    forall i | 0 <= i < |event| {
      data[at + i] := event[i];
    }
  }

  class EventQueue {
    const ring: RingBuffer
    const eventSize: nat
    const slots: nat
    // The slots that the octet indices of the ring stand for.
    ghost var readSlot: nat
    ghost var writeSlot: nat

    ghost predicate Valid()
      reads this, ring
    {
      && ring.Valid()
      && eventSize >= 1 && slots >= 2 && ring.size == eventSize * slots
      && readSlot < slots && writeSlot < slots
      && ring.readIdx == eventSize * readSlot && ring.writeIdx == eventSize * writeSlot
    }

    /** The queued events, oldest first. */
    ghost function Queued(): (q: seq<seq<bv8>>)
      requires Valid()
      reads this, ring, ring.data
    {
      Stored(ring.data[..], readSlot, writeSlot, slots, eventSize)
    }

    constructor (buf: array<bv8>, eventSize: nat, slots: nat)
      requires eventSize >= 1 && slots >= 2 && buf.Length == eventSize * slots && buf.Length > 0
      ensures Valid() && Queued() == [] && fresh(ring) && ring.data == buf
      ensures this.eventSize == eventSize && this.slots == slots
    {
      ring := new RingBuffer(buf);
      this.eventSize := eventSize;
      this.slots := slots;
      readSlot := 0;
      writeSlot := 0;
      new;
      hide Stored;
      NoneStored(ring.data[..], slots, eventSize);
    }

    /** priv_queue_control_event: a full queue forgets its oldest event. */
    method Enqueue(event: seq<bv8>) returns (res: int)
      requires Valid() && |event| == eventSize
      modifies this, ring`readIdx, ring`writeIdx, ring.data
      ensures Valid() && ring.data == old(ring.data)
      ensures Queued() == Pushed(old(Queued()), event, slots - 1)
      ensures res == if |old(Queued())| == slots - 1 then -1 else 0
    {
      var cavail := CavailForWrite(ring.readIdx, ring.writeIdx, ring.size);
      var at := ring.writeIdx;
      res := 0;
      SpaceInEvents(readSlot, writeSlot, slots, eventSize);
      SuccessorIndex(readSlot, slots, eventSize);
      SuccessorIndex(writeSlot, slots, eventSize);
      hide Stored, CavailForWrite;
      if cavail < eventSize {
        FirstStored(ring.data[..], readSlot, writeSlot, slots, eventSize);
        ring.MoveRead(eventSize);
        readSlot := Successor(readSlot, slots);
        res := -1;
      }
      LastStored(ring.data[..], readSlot, writeSlot, slots, eventSize, event);
      CopyIn(ring.data, at, event);
      ring.MoveWrite(eventSize);
      writeSlot := Successor(writeSlot, slots);
    }

    /** priv_dequeue_control_event: -1 exactly if nothing is queued. */
    method Dequeue() returns (res: int, event: seq<bv8>)
      requires Valid()
      modifies this, ring`readIdx
      ensures Valid()
      ensures old(Queued()) == [] ==> res == -1 && Queued() == [] && event == []
      ensures old(Queued()) != [] ==> res == 0 && event == old(Queued())[0] && Queued() == old(Queued())[1..]
    {
      var cavail := CavailForRead(ring.readIdx, ring.writeIdx, ring.size);
      SpaceInEvents(readSlot, writeSlot, slots, eventSize);
      SuccessorIndex(readSlot, slots, eventSize);
      hide Stored, CavailForRead;
      if cavail < eventSize {
        return -1, [];
      }
      FirstStored(ring.data[..], readSlot, writeSlot, slots, eventSize);
      event := ring.data[ring.readIdx..ring.readIdx + eventSize];
      ring.MoveRead(eventSize);
      readSlot := Successor(readSlot, slots);
      res := 0;
    }
  }
}
