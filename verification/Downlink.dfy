/** The downlink in rolling mode: modular pointers against unbounded frame numbers. */
module Downlink {
  import opened Codec
  import opened Model
  import opened Modular
  import opened Protocol

  lemma SlotOf(x: nat, b: Boundary)
    ensures x % b % DL_SLOTS == x % DL_SLOTS
  {
    var q, r, c := x / b, x % b, b / DL_SLOTS;
    assert b == DL_SLOTS * c;
    assert b * q == DL_SLOTS * (c * q);
    Remainder(x, c * q + r / DL_SLOTS, r % DL_SLOTS, DL_SLOTS);
  }

  /** The pointer distance of the C code is the true distance while that stays below the boundary. */
  lemma Distance(k: Block, x: nat, y: nat)
    requires y <= x < y + k.boundary
    ensures RxDistance(k, x % k.boundary, y % k.boundary) == x - y
  {
    var b := k.boundary;
    var qx, qy, rx, ry := x / b, y / b, x % b, y % b;
    assert x - y == b * (qx - qy) + (rx - ry);
    CloseQuotient(b, qx - qy, rx - ry);
    if qx == qy {
      Remainder(b + rx - ry, 1, x - y, b);
    } else {
      assert b * (qx - qy) == b;
      Remainder(b + rx - ry, 0, x - y, b);
    }
  }

  lemma EmptyDistance(k: Block, y: nat)
    requires y > 0
    ensures RxDistance(k, (y - 1) % k.boundary, y % k.boundary) == k.boundary - 1
  {
    var b := k.boundary;
    NextModulo(y - 1, b);
    var r := (y - 1) % b;
    if r + 1 < b {
      Remainder(r + 1, 0, r + 1, b);
      Remainder(b - 1, 0, b - 1, b);
    } else {
      Remainder(r + 1, 1, 0, b);
      Remainder(b + r, 1, b - 1, b);
    }
  }

  // ---------- The stream of frames ----------

  /** Unbounded frame numbers: next to hand out, next to announce, next to be written by the driver. For each slot, the
      frame that the application holds, and whether an overrun was noted that no release has reported yet. */
  datatype Stream = Stream(
    started: bool,
    next: nat,
    announced: nat,
    written: nat,
    held: seq<Option<nat>>,
    noted: seq<bool>)

  /** The frame that the application may lag behind at most one driver lap. */
  function Oldest(g: Stream): nat {
    if g.started then g.next else g.announced
  }

  predicate SlotOk(d: Desc, held: Option<nat>, noted: bool, g: Stream, k: nat) {
    match held
    case None => !d.locked && d.xrun == noted
    case Some(f) =>
      && d.locked && f < g.announced && f % DL_SLOTS == k
      && (d.xrun <==> noted || f + DL_SLOTS <= g.announced)
  }

  predicate SlotsOk(dl: DlDescs, g: Stream) {
    && |g.held| == DL_SLOTS && |g.noted| == DL_SLOTS
    && SlotOk(dl[0], g.held[0], g.noted[0], g, 0)
    && SlotOk(dl[1], g.held[1], g.noted[1], g, 1)
    && SlotOk(dl[2], g.held[2], g.noted[2], g, 2)
  }

  predicate PointersOk(s: State, g: Stream) {
    var b := s.block.boundary;
    && s.bufs.rolling && !s.bufs.respPend
    && s.block.rxPtr == g.written % b
    && g.announced <= g.written < Oldest(g) + b
    && (if g.started then
          && 0 < g.announced && s.bufs.rxHw == (g.announced - 1) % b
          && g.next <= g.announced && s.bufs.rxAppl == g.next % b
        else s.bufs.rxAppl == -1)
  }

  predicate Tracks(s: State, g: Stream) {
    PointersOk(s, g) && SlotsOk(s.bufs.dl, g)
  }

  // ---------- Steps of the stream ----------

  datatype Handout = Nothing | Rejected(frame: nat, resync: bool) | Delivered(frame: nat, resync: bool)

  /** What an acquire hands out, decided on unbounded frame numbers. */
  function Choice(g: Stream, accepted: bool): Handout
    requires g.started ==> g.next <= g.announced
  {
    if !g.started || g.next == g.announced then Nothing
    else
      var resync := g.written - g.next >= DL_SLOTS;
      var frame := if resync then g.announced - 1 else g.next;
      if accepted then Delivered(frame, resync) else Rejected(frame, resync)
  }

  predicate Accepts(s: State, g: Stream, isNull: bool)
    requires g.started ==> g.next <= g.announced
  {
    var c := Choice(g, true);
    c.Delivered? && !s.bufs.dl[c.frame % DL_SLOTS].invalid && !isNull
  }

  /** Frame f goes to the application; a slot it already holds stays charged to the older frame. */
  function HandedOut(g: Stream, f: nat): Stream
    requires |g.held| == DL_SLOTS
  {
    var k := f % DL_SLOTS;
    if g.held[k].Some? then g.(next := f + 1) else g.(next := f + 1, held := g.held[k := Some(f)])
  }

  function Acquired(s: State, g: Stream, isNull: bool): Stream
    requires SlotsOk(s.bufs.dl, g) && (g.started ==> g.next <= g.announced)
  {
    match Choice(g, Accepts(s, g, isNull))
    case Nothing => g
    case Rejected(f, _) => g.(next := f + 1)
    case Delivered(f, _) => HandedOut(g, f)
  }

  /** The driver is three or more frames ahead of the application: it has lapped it. */
  predicate Lapped(g: Stream) {
    g.written - Oldest(g) >= DL_SLOTS
  }

  function Announced(g: Stream): Stream
    requires |g.noted| == DL_SLOTS
  {
    g.(started := true, next := Oldest(g), announced := g.announced + 1,
       noted := if Lapped(g) then g.noted[g.announced % DL_SLOTS := true] else g.noted)
  }

  /** The tests of the C code on its modular pointers decide the unbounded questions. */
  lemma SlotChoice(s: State, g: Stream)
    requires PointersOk(s, g) && g.started
    ensures ApplSlot(s) == if g.next == g.announced then -ENODATA
                           else if g.written - g.next >= DL_SLOTS then -EPIPE
                           else s.bufs.rxAppl % DL_SLOTS
  {
    hide RxDistance;
    Distance(s.block, g.written, g.next);
    if g.next == g.announced {
      EmptyDistance(s.block, g.next);
    } else {
      Distance(s.block, g.announced - 1, g.next);
    }
  }

  /** The pointers select the slots of their frames. */
  lemma PointerSlots(s: State, g: Stream)
    requires PointersOk(s, g) && g.started
    ensures s.bufs.rxAppl % DL_SLOTS == g.next % DL_SLOTS
    ensures s.bufs.rxHw % DL_SLOTS == (g.announced - 1) % DL_SLOTS
  {
    PointersByFrame(s, g);
    hide PointersOk;
    SlotOf(g.next, s.block.boundary);
    SlotOf(g.announced - 1, s.block.boundary);
  }

  lemma PointersByFrame(s: State, g: Stream)
    requires PointersOk(s, g) && g.started
    ensures s.bufs.rxAppl == g.next % s.block.boundary && s.bufs.rxHw == (g.announced - 1) % s.block.boundary
    ensures g.announced > 0
  {
  }

  /** The pointers move on to the next frames. */
  lemma NextPointers(s: State, g: Stream)
    requires PointersOk(s, g) && g.started
    ensures (s.bufs.rxAppl + 1) % s.block.boundary == (g.next + 1) % s.block.boundary
    ensures (s.bufs.rxHw + 1) % s.block.boundary == g.announced % s.block.boundary
  {
    PointersByFrame(s, g);
    hide PointersOk;
    NextModulo(g.next, s.block.boundary);
    NextModulo(g.announced - 1, s.block.boundary);
  }

  lemma AcquirePointers(s: State, g: Stream, header: Octets, isNull: bool)
    requires Tracks(s, g)
    ensures var c := Choice(g, Accepts(s, g, isNull));
            var r := DlAcquire(s, header, isNull);
            && PointersOk(r.s, Acquired(s, g, isNull))
            && (match c
                case Nothing => r.s == s && r.res == if g.started then -61 else -22
                case Rejected(_, _) => r.res == -22 && r.s.bufs.dl == s.bufs.dl
                case Delivered(f, _) =>
                  var k := f % DL_SLOTS;
                  r.res == 0 && r.s.bufs.dl == s.bufs.dl[k := DlLock(s.bufs.dl[k], header)])
  {
    hide DlLock, SlotOk, ApplSlot;
    if g.started {
      SlotChoice(s, g);
      PointerSlots(s, g);
      NextPointers(s, g);
    }
  }

  lemma NextIrrelevant(dl: DlDescs, g: Stream, next: nat)
    requires SlotsOk(dl, g)
    ensures SlotsOk(dl, g.(next := next))
  {
  }

  lemma ReplaceSlot(dl: DlDescs, g: Stream, k: nat, d: Desc, held: Option<nat>, noted: bool)
    requires SlotsOk(dl, g) && k < DL_SLOTS && SlotOk(d, held, noted, g, k)
    ensures SlotsOk(dl[k := d], g.(held := g.held[k := held], noted := g.noted[k := noted]))
  {
  }

  lemma SlotAt(dl: DlDescs, g: Stream, k: nat)
    requires SlotsOk(dl, g) && k < DL_SLOTS
    ensures SlotOk(dl[k], g.held[k], g.noted[k], g, k)
  {
  }

  lemma LockSlot(d: Desc, held: Option<nat>, noted: bool, g: Stream, k: nat, f: nat, header: Octets)
    requires SlotOk(d, held, noted, g, k) && f % DL_SLOTS == k && f < g.announced < f + DL_SLOTS
    ensures SlotOk(DlLock(d, header), if held.Some? then held else Some(f), noted, g, k)
  {
    hide DlLock;
  }

  lemma HeldBy(dl: DlDescs, g: Stream, f: nat, d: Desc, held: Option<nat>)
    requires SlotsOk(dl, g) && SlotOk(d, held, g.noted[f % DL_SLOTS], g, f % DL_SLOTS)
    requires held == if g.held[f % DL_SLOTS].Some? then g.held[f % DL_SLOTS] else Some(f)
    ensures SlotsOk(dl[f % DL_SLOTS := d], HandedOut(g, f))
  {
    var k := f % DL_SLOTS;
    ReplaceSlot(dl, g, k, d, held, g.noted[k]);
    var h := g.(held := g.held[k := held], noted := g.noted[k := g.noted[k]]);
    assert h.noted == g.noted && (g.held[k].Some? ==> h.held == g.held);
    NextIrrelevant(dl[k := d], h, f + 1);
    hide SlotsOk, SlotOk;
  }

  lemma HandedOutSlots(dl: DlDescs, g: Stream, f: nat, header: Octets)
    requires SlotsOk(dl, g) && f < g.announced < f + DL_SLOTS
    ensures var k := f % DL_SLOTS; SlotsOk(dl[k := DlLock(dl[k], header)], HandedOut(g, f))
  {
    var k := f % DL_SLOTS;
    SlotAt(dl, g, k);
    hide SlotOk, DlLock, HandedOut;
    LockSlot(dl[k], g.held[k], g.noted[k], g, k, f, header);
    HeldBy(dl, g, f, DlLock(dl[k], header), if g.held[k].Some? then g.held[k] else Some(f));
  }

  /** Acquiring follows the unbounded choice and keeps track of who holds which frame. */
  lemma AcquireTracks(s: State, g: Stream, header: Octets, isNull: bool)
    requires Tracks(s, g)
    ensures Tracks(DlAcquire(s, header, isNull).s, Acquired(s, g, isNull))
  {
    AcquirePointers(s, g, header, isNull);
    hide DlAcquire, DlLock, SlotsOk, HandedOut;
    match Choice(g, Accepts(s, g, isNull))
    case Nothing =>
    case Rejected(f, _) => NextIrrelevant(s.bufs.dl, g, f + 1);
    case Delivered(f, _) => HandedOutSlots(s.bufs.dl, g, f, header);
  }

  lemma NotifyPointers(s: State, g: Stream)
    requires PointersOk(s, g) && g.announced < g.written && |g.noted| == DL_SLOTS
    ensures PointersOk(Notify(s, g.announced % s.block.boundary), Announced(g))
  {
    hide Overrun;
  }

  /** The overrun test of a notification is whether the driver has lapped the application. */
  lemma OverrunExact(s: State, g: Stream)
    requires PointersOk(s, g) && g.announced < g.written
    ensures Overrun(NotifySlots(s, g.announced % s.block.boundary)) <==> Lapped(g)
  {
    hide RxDistance;
    Distance(s.block, g.written, Oldest(g));
  }

  /** A held slot is marked by a notification if the driver just filled it, or will fill it next; the slot just filled is
      marked in any case if the driver has lapped the application. */
  lemma MarkedSlot(dl: DlDescs, g: Stream, k: nat)
    requires SlotsOk(dl, g) && k < DL_SLOTS
    ensures SlotOk(Marked(dl, g.announced % DL_SLOTS, Lapped(g))[k], g.held[k], Announced(g).noted[k], Announced(g), k)
  {
  }

  lemma NotifyTracks(s: State, g: Stream)
    requires Tracks(s, g) && g.announced < g.written
    ensures Tracks(Notify(s, g.announced % s.block.boundary), Announced(g))
  {
    NotifyPointers(s, g);
    SlotOf(g.announced, s.block.boundary);
    OverrunExact(s, g);
    MarkedSlot(s.bufs.dl, g, 0);
    MarkedSlot(s.bufs.dl, g, 1);
    MarkedSlot(s.bufs.dl, g, 2);
    hide Marked, Overrun, PointersOk, SlotOk, Lapped;
  }

  /** The overrun bit of an event is raised exactly if the driver has lapped the application, or has just filled or will
      next fill a slot that the application holds. */
  lemma XrunBitTracks(s: State, g: Stream)
    requires Tracks(s, g) && g.announced < g.written
    ensures NotifyXrun(s, g.announced % s.block.boundary) <==>
              Lapped(g) || g.held[g.announced % DL_SLOTS].Some? || g.held[(g.announced + 1) % DL_SLOTS].Some?
  {
    var hw := g.announced % s.block.boundary;
    SlotOf(g.announced, s.block.boundary);
    OverrunExact(s, g);
    HeldLocked(s.bufs.dl, g, g.announced);
    HeldLocked(s.bufs.dl, g, g.announced + 1);
    SuccessorSlot(g.announced);
    XrunBit(s, hw, g.announced % DL_SLOTS);
    hide Overrun, Lapped, SlotsOk, PointersOk, NotifyXrun, NotifySlots;
  }

  lemma XrunBit(s: State, hw: nat, k: nat)
    requires hw % DL_SLOTS == k
    ensures NotifyXrun(s, hw) <==>
              Overrun(NotifySlots(s, hw)) || s.bufs.dl[(k + 1) % DL_SLOTS].locked || s.bufs.dl[k].locked
  {
    hide Overrun;
  }

  lemma SuccessorSlot(x: nat)
    ensures (x % DL_SLOTS + 1) % DL_SLOTS == (x + 1) % DL_SLOTS
  {
  }

  lemma HeldLocked(dl: DlDescs, g: Stream, f: nat)
    requires SlotsOk(dl, g)
    ensures g.held[f % DL_SLOTS].Some? <==> dl[f % DL_SLOTS].locked
  {
    SlotAt(dl, g, f % DL_SLOTS);
    hide SlotsOk;
  }

  lemma FillTracks(s: State, g: Stream)
    requires Tracks(s, g) && g.written + 1 < Oldest(g) + s.block.boundary
    ensures Tracks(DriverFill(s), g.(written := g.written + 1))
  {
    hide SlotOk;
    NextModulo(g.written, s.block.boundary);
    assert forall k :: 0 <= k < DL_SLOTS ==>
      SlotOk(s.bufs.dl[k], g.held[k], g.noted[k], g.(written := g.written + 1), k) by {
      forall k | 0 <= k < DL_SLOTS
        ensures SlotOk(s.bufs.dl[k], g.held[k], g.noted[k], g.(written := g.written + 1), k)
      {
        WrittenIrrelevant(s.bufs.dl[k], g.held[k], g.noted[k], g, k);
      }
    }
  }

  lemma WrittenIrrelevant(d: Desc, held: Option<nat>, noted: bool, g: Stream, k: nat)
    requires SlotOk(d, held, noted, g, k)
    ensures SlotOk(d, held, noted, g.(written := g.written + 1), k)
  {
  }

  /** A release gives the slot back and with it whatever overrun was noted for it. */
  function Released(g: Stream, i: nat): Stream
    requires |g.held| == DL_SLOTS && |g.noted| == DL_SLOTS && i < DL_SLOTS
  {
    if g.held[i].None? then g else g.(held := g.held[i := None], noted := g.noted[i := false])
  }

  /** A release reports an overrun exactly if one was noted for the slot before it was locked, or the frame two after the
      one it was locked for has been announced since. */
  lemma ReleaseTracks(s: State, g: Stream, i: nat, env: Env)
    requires Tracks(s, g) && i < DL_SLOTS
    ensures var r := DlRelease(s, i, env);
            && Tracks(r.s, Released(g, i))
            && r.res == match g.held[i]
                        case None => -ENOENT
                        case Some(f) => if g.noted[i] || f + 2 < g.announced then -EPIPE else 0
  {
    SlotAt(s.bufs.dl, g, i);
    hide ReleasedDuringChange, SlotsOk;
    var d := s.bufs.dl[i];
    if d.locked {
      ReplaceSlot(s.bufs.dl, g, i, d.(locked := false, xrun := false), None, false);
      assert s.bufs.dl[i := d.(locked := false)][i := d.(locked := false, xrun := false)] ==
        s.bufs.dl[i := d.(locked := false, xrun := false)];
      assert !d.xrun ==> d.(locked := false) == d.(locked := false, xrun := false);
    }
  }

  /** A successful reconfiguration for a stream starts such a stream, with nothing announced yet. */
  lemma ConfiguredStarts(s: State, env: Env, written: nat)
    requires s.bufs.slotSize > 0 && !s.bufs.respPend && env.config(s.clock) == 0 && env.ifVersion(s.clock) > 0
    requires env.block(s.clock).rxPtr == written % env.block(s.clock).boundary
    ensures Tracks(SetupConfig(s, env).s,
                   Stream(false, 0, written, written, [None, None, None], [false, false, false]))
  {
  }

  // cmtspeech_buffer_codec_sample_rate and cmtspeech_buffer_sample_rate.
  function CodecSampleRate(d: Desc): bv8 {
    d.rateInfo & 0x3
  }

  function SampleRate(d: Desc): bv8 {
    (d.rateInfo >> 2) & 0x3
  }

  /** A handed out descriptor tells the sample rates and flags of the frame header. */
  lemma LockedCarriesHeader(d: Desc, h: Octets)
    ensures var r := DlLock(d, h);
            CodecSampleRate(r) == DlFields(h).codecRate && SampleRate(r) == DlFields(h).rate &&
            r.spcFlags == DlFields(h).spcFlags && r.locked && r.data == d.data && r.payload == d.payload
  {
  }

  /** The overrun bit of an event is raised exactly if the notification marks a descriptor. */
  lemma XrunBitExact(s: State, hw: nat)
    requires !s.bufs.dl[0].xrun && !s.bufs.dl[1].xrun && !s.bufs.dl[2].xrun
    ensures var dl := Notify(s, hw).bufs.dl;
            NotifyXrun(s, hw) <==> dl[0].xrun || dl[1].xrun || dl[2].xrun
  {
    hide Overrun;
  }

  // ---------- What the handed out slot holds ----------

  /** The last frame the driver put into slot k before it wrote frame number written. */
  function LastIn(k: nat, written: nat): int {
    written - 1 - (written - 1 - k) % DL_SLOTS
  }

  /** The slot of frame f still holds f, and is not the one the driver fills next. */
  predicate Intact(f: nat, written: nat) {
    LastIn(f % DL_SLOTS, written) == f && written % DL_SLOTS != f % DL_SLOTS
  }

  lemma IntactExact(f: nat, written: nat)
    requires f < written
    ensures Intact(f, written) <==> written - f < DL_SLOTS
  {
  }

  /** Without an overrun the frame is intact; after a resync it is exactly if the driver is at most one ahead. */
  lemma DeliveredIntact(s: State, g: Stream, isNull: bool)
    requires Tracks(s, g)
    ensures match Choice(g, Accepts(s, g, isNull))
            case Delivered(f, resync) =>
              Intact(f, g.written) <==> (resync ==> g.written - (g.announced - 1) <= 2)
            case _ => true
  {
    hide SlotsOk, Intact;
    match Choice(g, Accepts(s, g, isNull))
    case Delivered(f, _) => IntactExact(f, g.written);
    case _ =>
  }

  // ---------- Runs between reconfigurations ----------

  datatype DlEvent = Fill | Announce | Acquire(header: Octets, isNull: bool) | Release(i: nat) | Other(input: Input)

  predicate SameDownlink(s: State, t: State) {
    && t.block == s.block && t.bufs.dl == s.bufs.dl && t.bufs.rolling == s.bufs.rolling
    && t.bufs.respPend == s.bufs.respPend && t.bufs.rxHw == s.bufs.rxHw && t.bufs.rxAppl == s.bufs.rxAppl
  }

  /** The driver announces frames in order and never laps the application by a whole boundary. */
  predicate Allowed(s: State, g: Stream, e: DlEvent, env: Env) {
    match e
    case Fill => g.written + 1 < Oldest(g) + s.block.boundary
    case Announce => g.announced < g.written
    case Acquire(_, _) => true
    case Release(i) => i < DL_SLOTS
    case Other(input) => Legal(input) && SameDownlink(s, Step(s, input, env))
  }

  function Concrete(s: State, g: Stream, e: DlEvent, env: Env): State
    requires Allowed(s, g, e, env)
  {
    match e
    case Fill => DriverFill(s)
    case Announce => Notify(s, g.announced % s.block.boundary)
    case Acquire(header, isNull) => DlAcquire(s, header, isNull).s
    case Release(i) => DlRelease(s, i, env).s
    case Other(input) => Step(s, input, env)
  }

  function Abstract(s: State, g: Stream, e: DlEvent, env: Env): Stream
    requires Tracks(s, g) && Allowed(s, g, e, env)
  {
    match e
    case Fill => g.(written := g.written + 1)
    case Announce => Announced(g)
    case Acquire(_, isNull) => Acquired(s, g, isNull)
    case Release(i) => Released(g, i)
    case Other(_) => g
  }

  function HandoutOf(s: State, g: Stream, e: DlEvent): Handout
    requires Tracks(s, g)
  {
    if e.Acquire? then Choice(g, Accepts(s, g, e.isNull)) else Nothing
  }

  lemma EventTracks(s: State, g: Stream, e: DlEvent, env: Env)
    requires Tracks(s, g) && Allowed(s, g, e, env)
    ensures Tracks(Concrete(s, g, e, env), Abstract(s, g, e, env))
  {
    match e
    case Fill => FillTracks(s, g);
    case Announce => NotifyTracks(s, g);
    case Acquire(header, isNull) => AcquireTracks(s, g, header, isNull);
    case Release(i) => ReleaseTracks(s, g, i, env);
    case Other(_) => hide Step, SlotsOk;
  }

  ghost predicate StreamRun(states: seq<State>, streams: seq<Stream>, events: seq<DlEvent>, env: Env) {
    && |states| == |streams| == |events| + 1
    && Tracks(states[0], streams[0])
    && forall i :: 0 <= i < |events| ==>
         && Allowed(states[i], streams[i], events[i], env)
         && states[i + 1] == Concrete(states[i], streams[i], events[i], env)
         && (Tracks(states[i], streams[i]) ==> streams[i + 1] == Abstract(states[i], streams[i], events[i], env))
  }

  /** The modular pointers of the library follow the unbounded frame numbers over every such run. */
  lemma {:induction false} AlwaysTracks(states: seq<State>, streams: seq<Stream>, events: seq<DlEvent>, env: Env, n: nat)
    requires StreamRun(states, streams, events, env) && n < |states|
    ensures Tracks(states[n], streams[n])
  {
    hide Tracks, Allowed, Concrete, Abstract;
    if n > 0 {
      AlwaysTracks(states, streams, events, env, n - 1);
      EventTracks(states[n - 1], streams[n - 1], events[n - 1], env);
    }
  }

  /** The numbers that an event can only move forward. */
  lemma EventOrder(s: State, g: Stream, e: DlEvent, env: Env)
    requires Tracks(s, g) && Allowed(s, g, e, env)
    ensures var t := Abstract(s, g, e, env);
            && (g.started ==> t.started)
            && t.announced >= g.announced && |t.held| == DL_SLOTS && |g.held| == DL_SLOTS
            && (match HandoutOf(s, g, e)
                case Nothing => g.started ==> t.next == g.next
                case Rejected(f, resync) => g.started && t.next == f + 1 && g.next <= f && (!resync ==> f == g.next)
                case Delivered(f, resync) => g.started && t.next == f + 1 && g.next <= f && (!resync ==> f == g.next))
            && (forall k :: 0 <= k < DL_SLOTS && g.held[k].Some? && e != Release(k) ==> t.held[k] == g.held[k])
  {
    hide Step, SlotOk, DlRelease, DlAcquire, Notify;
  }

  /** Between two points of a run the next frame never moves back, and stands still without a handout. */
  lemma {:induction false} NextAdvances(states: seq<State>, streams: seq<Stream>, events: seq<DlEvent>, env: Env,
                                        i: nat, j: nat)
    requires StreamRun(states, streams, events, env) && i <= j < |states| && streams[i].started
    ensures streams[j].started && streams[i].next <= streams[j].next
    ensures Quiet(states, streams, events, i, j) ==> streams[j].next == streams[i].next
    decreases j
  {
    hide Tracks, Allowed, Concrete, Abstract, HandoutOf;
    if i < j {
      NextAdvances(states, streams, events, env, i, j - 1);
      AlwaysTracks(states, streams, events, env, j - 1);
      EventOrder(states[j - 1], streams[j - 1], events[j - 1], env);
    }
  }

  /** No event of i up to j hands out or rejects a frame. */
  ghost predicate Quiet(states: seq<State>, streams: seq<Stream>, events: seq<DlEvent>, i: nat, j: nat)
    requires |states| == |streams| == |events| + 1 && j <= |events|
  {
    forall k :: i <= k < j && Tracks(states[k], streams[k]) ==> HandoutOf(states[k], streams[k], events[k]) == Nothing
  }

  /** Frame numbers strictly increase, and nothing is skipped except by an overrun or a rejected acquire. */
  lemma HandoutsIncrease(states: seq<State>, streams: seq<Stream>, events: seq<DlEvent>, env: Env, i: nat, j: nat)
    requires StreamRun(states, streams, events, env) && i < j < |events|
    requires Tracks(states[i], streams[i]) && Tracks(states[j], streams[j])
    ensures var h0 := HandoutOf(states[i], streams[i], events[i]);
            var h1 := HandoutOf(states[j], streams[j], events[j]);
            h0 != Nothing && h1 != Nothing ==>
              h0.frame < h1.frame && (Quiet(states, streams, events, i + 1, j) && !h1.resync ==> h1.frame == h0.frame + 1)
  {
    hide Tracks, Allowed, Concrete, Abstract, HandoutOf;
    EventOrder(states[i], streams[i], events[i], env);
    EventOrder(states[j], streams[j], events[j], env);
    if HandoutOf(states[i], streams[i], events[i]) != Nothing {
      NextAdvances(states, streams, events, env, i + 1, j);
    }
  }

  /** A slot stays charged to the frame it was first locked for until it is released. */
  lemma {:induction false} StaysHeld(states: seq<State>, streams: seq<Stream>, events: seq<DlEvent>, env: Env,
                                     i: nat, j: nat, slot: nat)
    requires StreamRun(states, streams, events, env) && i <= j < |states| && slot < DL_SLOTS
    requires |streams[i].held| == DL_SLOTS && streams[i].held[slot].Some?
    requires forall k :: i <= k < j ==> events[k] != Release(slot)
    ensures |streams[j].held| == DL_SLOTS && streams[j].held[slot] == streams[i].held[slot]
    decreases j
  {
    hide Tracks, Allowed, Concrete, Abstract, HandoutOf;
    if i < j {
      StaysHeld(states, streams, events, env, i, j - 1, slot);
      AlwaysTracks(states, streams, events, env, j - 1);
      EventOrder(states[j - 1], streams[j - 1], events[j - 1], env);
    }
  }

  lemma HandedOutHeld(dl: DlDescs, g: Stream, f: nat)
    requires SlotsOk(dl, g) && f < g.announced < f + DL_SLOTS
    ensures var t := HandedOut(g, f);
            |t.held| == DL_SLOTS && t.held[f % DL_SLOTS].Some? && t.held[f % DL_SLOTS].value <= f
  {
    SlotAt(dl, g, f % DL_SLOTS);
    hide SlotsOk;
  }

  lemma DeliveredHeld(s: State, g: Stream, e: DlEvent, env: Env)
    requires Tracks(s, g) && HandoutOf(s, g, e).Delivered? && Allowed(s, g, e, env)
    ensures var f := HandoutOf(s, g, e).frame;
            var t := Abstract(s, g, e, env);
            |t.held| == DL_SLOTS && t.held[f % DL_SLOTS].Some? && t.held[f % DL_SLOTS].value <= f
  {
    hide Step, DlRelease, DlAcquire, Notify, SlotsOk, HandedOut;
    HandedOutHeld(s.bufs.dl, g, HandoutOf(s, g, e).frame);
  }

  /** If frame f was handed out, and frame f + 2 was announced before its slot is released for the first time
      since, that release reports an overrun. */
  lemma OverrunReported(states: seq<State>, streams: seq<Stream>, events: seq<DlEvent>, env: Env, i: nat, j: nat)
    requires StreamRun(states, streams, events, env) && i < j < |events|
    requires Tracks(states[i], streams[i]) && HandoutOf(states[i], streams[i], events[i]).Delivered?
    requires var f := HandoutOf(states[i], streams[i], events[i]).frame;
             && events[j] == Release(f % DL_SLOTS)
             && (forall k :: i < k < j ==> events[k] != Release(f % DL_SLOTS))
             && f + 2 < streams[j].announced
    ensures var f := HandoutOf(states[i], streams[i], events[i]).frame;
            DlRelease(states[j], f % DL_SLOTS, env).res == -EPIPE
  {
    hide Tracks, Allowed, Concrete, Abstract, HandoutOf, DlRelease;
    var f := HandoutOf(states[i], streams[i], events[i]).frame;
    DeliveredHeld(states[i], streams[i], events[i], env);
    StaysHeld(states, streams, events, env, i + 1, j, f % DL_SLOTS);
    AlwaysTracks(states, streams, events, env, j);
    ReleaseTracks(states[j], streams[j], f % DL_SLOTS, env);
  }
  // ---------- Releases without an overrun ----------

  /** The event announces a frame of slot k while the driver has lapped the application. */
  predicate Laps(g: Stream, e: DlEvent, k: nat) {
    e.Announce? && Lapped(g) && g.announced % DL_SLOTS == k
  }

  /** An overrun is noted for a slot only then, and forgotten only by a release of the slot while it is held. */
  lemma EventNotes(s: State, g: Stream, e: DlEvent, env: Env, k: nat)
    requires Tracks(s, g) && Allowed(s, g, e, env) && k < DL_SLOTS
    ensures var t := Abstract(s, g, e, env);
            && |g.noted| == DL_SLOTS && |t.noted| == DL_SLOTS
            && t.noted[k] == (Laps(g, e, k) || (g.noted[k] && !(e == Release(k) && g.held[k].Some?)))
  {
    hide Step, SlotOk, DlRelease, DlAcquire, Notify, PointersOk;
  }

  /** The event hands out a frame of slot k. */
  predicate HandsOut(s: State, g: Stream, e: DlEvent, k: nat)
    requires Tracks(s, g)
  {
    var h := HandoutOf(s, g, e);
    h.Delivered? && h.frame % DL_SLOTS == k
  }

  lemma EventFrees(s: State, g: Stream, e: DlEvent, env: Env, k: nat)
    requires Tracks(s, g) && Allowed(s, g, e, env) && k < DL_SLOTS
    ensures var t := Abstract(s, g, e, env);
            && |t.held| == DL_SLOTS
            && (e == Release(k) ==> t.held[k].None?)
            && (g.held[k].None? && !HandsOut(s, g, e, k) ==> t.held[k].None?)
            && (g.held[k].None? && HandsOut(s, g, e, k) ==> t.held[k] == Some(HandoutOf(s, g, e).frame))
  {
    hide Step, SlotOk, DlRelease, DlAcquire, Notify, PointersOk;
  }

  /** Without a lap a slot that nothing was noted for stays so, and without a handout a free slot stays free. */
  lemma {:induction false} StaysClean(states: seq<State>, streams: seq<Stream>, events: seq<DlEvent>, env: Env,
                                      i: nat, j: nat, slot: nat)
    requires StreamRun(states, streams, events, env) && i <= j < |states| && slot < DL_SLOTS
    requires |streams[i].noted| == DL_SLOTS && !streams[i].noted[slot]
    requires forall k :: i <= k < j ==> !Laps(streams[k], events[k], slot)
    ensures |streams[j].noted| == DL_SLOTS && !streams[j].noted[slot]
    decreases j
  {
    hide Tracks, Allowed, Concrete, Abstract, Laps;
    if i < j {
      StaysClean(states, streams, events, env, i, j - 1, slot);
      AlwaysTracks(states, streams, events, env, j - 1);
      EventNotes(states[j - 1], streams[j - 1], events[j - 1], env, slot);
    }
  }

  lemma {:induction false} StaysFree(states: seq<State>, streams: seq<Stream>, events: seq<DlEvent>, env: Env,
                                     i: nat, j: nat, slot: nat)
    requires StreamRun(states, streams, events, env) && i <= j < |states| && slot < DL_SLOTS
    requires |streams[i].held| == DL_SLOTS && streams[i].held[slot].None?
    requires forall k :: i <= k < j && Tracks(states[k], streams[k]) ==>
                           !HandsOut(states[k], streams[k], events[k], slot)
    ensures |streams[j].held| == DL_SLOTS && streams[j].held[slot].None?
    decreases j
  {
    hide Tracks, Allowed, Concrete, Abstract, HandsOut;
    if i < j {
      StaysFree(states, streams, events, env, i, j - 1, slot);
      AlwaysTracks(states, streams, events, env, j - 1);
      EventFrees(states[j - 1], streams[j - 1], events[j - 1], env, slot);
    }
  }

  /** A slot is released, the next frame handed out of it is f, and that is released in turn: the second release answers
      0 if the driver did not lap the application into that slot in between and f + 2 was not announced yet. */
  lemma CleanRelease(states: seq<State>, streams: seq<Stream>, events: seq<DlEvent>, env: Env,
                     r: nat, i: nat, j: nat, slot: nat)
    requires StreamRun(states, streams, events, env) && r < i < j < |events| && slot < DL_SLOTS
    requires events[r] == Release(slot) && events[j] == Release(slot)
    requires Tracks(states[r], streams[r]) && |streams[r].held| == DL_SLOTS && streams[r].held[slot].Some?
    requires Tracks(states[i], streams[i]) && HandsOut(states[i], streams[i], events[i], slot)
    requires forall k :: r < k < i && Tracks(states[k], streams[k]) ==>
                           !HandsOut(states[k], streams[k], events[k], slot)
    requires forall k :: i < k < j ==> events[k] != Release(slot)
    requires forall k :: r < k < j ==> !Laps(streams[k], events[k], slot)
    requires streams[j].announced <= HandoutOf(states[i], streams[i], events[i]).frame + 2
    ensures DlRelease(states[j], slot, env).res == 0
  {
    hide Tracks, Allowed, Concrete, Abstract, HandoutOf, DlRelease, Laps, HandsOut;
    EventFrees(states[r], streams[r], events[r], env, slot);
    ReleaseIsNoLap(streams[r], events[r], slot);
    EventNotes(states[r], streams[r], events[r], env, slot);
    StaysFree(states, streams, events, env, r + 1, i, slot);
    EventFrees(states[i], streams[i], events[i], env, slot);
    StaysHeld(states, streams, events, env, i + 1, j, slot);
    StaysClean(states, streams, events, env, r + 1, j, slot);
    AlwaysTracks(states, streams, events, env, j);
    ReleaseTracks(states[j], streams[j], slot, env);
  }

  lemma ReleaseIsNoLap(g: Stream, e: DlEvent, k: nat)
    requires e == Release(k)
    ensures !Laps(g, e, k)
  {
  }
}
