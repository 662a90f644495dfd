/** The buffer state after every step: what a set-up prepares, what a reset clears, and what nothing else touches. */
module Setup {
  import opened Codec
  import opened Model
  import opened Protocol
  import opened StateInvariant
  import opened Handover

  /** What was negotiated for a stream. */
  datatype Format = Format(slotSize: nat, rate: bv8, length: bv8)

  function FormatOf(b: Buffers): Format {
    Format(b.slotSize, b.rate, b.length)
  }

  /** 160 samples of two octets at 8 kHz (rate 1), 320 at 16 kHz (rate 2), every 20 ms (length 2), four octets of header. */
  function Negotiated(f: Format, stream: bv8, rate: bv8): Format {
    if stream == 0 then f.(slotSize := 0)
    else Format(if rate == 1 then 324 else if rate == 2 then 644 else 0, rate, 2)
  }

  predicate Unused(d: Desc) {
    d == Desc(0, 0, 0, 0, 0, 0, Null, Null, 0, false, true, false)
  }

  /** The buffer state without a stream. */
  predicate Cleared(b: Buffers) {
    && !b.respPend && FormatOf(b) == Format(0, 0xff, 0xff)
    && b.ulErrors == 0 && b.rxHw == -1 && b.rxAppl == -1 && b.ulSlot == -1
    && Unused(b.dl[0]) && Unused(b.dl[1]) && Unused(b.dl[2]) && Unused(b.ul[0]) && Unused(b.ul[1])
  }

  /** A free descriptor of one slot of the shared memory. */
  predicate Ready(d: Desc, index: int, offset: int, slotSize: nat, invalid: bool) {
    && d.count == slotSize && d.size == slotSize && d.pcount == slotSize - 4 && d.frameFlags == 0
    && d.data == Mmap(offset) && d.payload == Mmap(offset + 4) && d.index == index
    && !d.locked && !d.xrun && d.invalid == invalid
  }

  /** The buffer state at the start of a stream: every descriptor has the slot that the driver assigned to it. */
  predicate Prepared(b: Buffers, k: Block, f: Format, invalid: bool) {
    && !b.respPend && FormatOf(b) == f
    && b.ulErrors == 0 && b.rxHw == -1 && b.rxAppl == -1 && b.ulSlot == 0
    && Ready(b.dl[0], 0, k.rxOffsets[0], f.slotSize, invalid)
    && Ready(b.dl[1], 1, k.rxOffsets[1], f.slotSize, invalid)
    && Ready(b.dl[2], 2, k.rxOffsets[2], f.slotSize, invalid)
    && Ready(b.ul[0], 0, k.txOffsets[0], f.slotSize, invalid)
    && Ready(b.ul[1], 1, k.txOffsets[1], f.slotSize, invalid)
  }

  lemma ReconfiguredFormat(b: Buffers, stream: bv8, rate: bv8)
    ensures var r := Reconfigured(b, stream, rate);
            && FormatOf(r) == Negotiated(FormatOf(b), stream, rate)
            && r == b.(slotSize := r.slotSize, rate := r.rate, length := r.length)
  {
  }

  lemma InvalidatePrepared(b: Buffers, k: Block, f: Format)
    requires Prepared(b, k, f, false)
    ensures Prepared(Invalidate(b), k, f, true)
  {
  }

  lemma InvalidateCleared(b: Buffers)
    requires Cleared(b)
    ensures Cleared(Invalidate(b))
  {
  }

  /** The driver's part: its block and its features count from the first successful configuration on. */
  lemma DriverExact(s: State, env: Env)
    ensures var t := SetupConfig(s, env).s;
            && t.block == (if env.config(s.clock) == 0 then env.block(s.clock) else s.block)
            && (t.bufs.rolling <==> s.bufs.rolling || (env.config(s.clock) == 0 && env.ifVersion(s.clock) > 0))
            && t.clock == s.clock + 1 && SetupConfig(s, env).res == env.config(s.clock)
  {
  }

  lemma SetupClears(s: State, env: Env)
    requires s.bufs.slotSize == 0
    ensures Cleared(SetupConfig(s, env).s.bufs)
  {
  }

  lemma SetupPrepares(s: State, env: Env)
    requires s.bufs.slotSize > 0 && !s.bufs.respPend && env.config(s.clock) == 0
    ensures var t := SetupConfig(s, env).s; Prepared(t.bufs, t.block, FormatOf(s.bufs), false)
  {
  }

  lemma ResetClears(s: State, env: Env)
    ensures Cleared(SendReset(s, env).s.bufs) && Cleared(AfterPeerReset(s, env).bufs)
  {
    hide SetupConfig, RequestReset, Cleared;
    SetupClears(RequestReset(s, env).s.(bufs := s.bufs.(slotSize := 0)), env);
    SetupClears(s.(bufs := s.bufs.(slotSize := 0)), env);
  }

  lemma PostKeepsSetup(s: State, result: bv8, env: Env)
    ensures var t := PostSpeechResp(s, result, env); t.bufs == s.bufs && t.block == s.block
  {
    hide SendSsi;
  }

  /** A reply goes with a prepared stream if one was asked for and the driver took it, with cleared buffers otherwise. */
  predicate ReplySets(s: State, t: State, f: Format, invalid: bool, env: Env) {
    if f.slotSize > 0 && env.config(s.clock) == 0 then Prepared(t.bufs, t.block, f, invalid) else Cleared(t.bufs)
  }

  lemma ReplySetup(s: State, env: Env)
    ensures ReplySets(s, SetupAndReply(s, env).s, FormatOf(s.bufs), false, env)
  {
    hide SetupConfig, SendReset, PostSpeechResp, Prepared, Cleared;
    var s1 := s.(bufs := s.bufs.(respPend := false));
    var c := SetupConfig(s1, env);
    DriverExact(s1, env);
    if s1.bufs.slotSize == 0 { SetupClears(s1, env); } else if c.res == 0 { SetupPrepares(s1, env); }
    var result: bv8 := if c.res == 0 then 0 else 1;
    PostKeepsSetup(Attempted(c.s, SpeechConfigResp(result), env.write(c.s.clock), c.s.bc), result, env);
    var w := WriteSpeechResp(c.s, result, env).s;
    ResetClears(w.(bufs := Invalidate(w.bufs)), env);
  }
  lemma DelayedSetup(s: State, env: Env)
    requires Locked(s.bufs) == 0
    ensures ReplySets(s, ReleasedDuringChange(s, env), FormatOf(s.bufs), env.write(s.clock + 1) != CTRL_LEN, env)
  {
    hide SetupConfig, SendReset, PostSpeechResp, Prepared, Cleared, Invalidate;
    ReplySetup(s, env);
    DriverExact(s.(bufs := s.bufs.(respPend := false)), env);
    var r := SetupAndReply(s, env).s;
    if Cleared(r.bufs) { InvalidateCleared(r.bufs); }
    if Prepared(r.bufs, r.block, FormatOf(s.bufs), false) { InvalidatePrepared(r.bufs, r.block, FormatOf(s.bufs)); }
  }

  // ---------- Steps ----------

  /** The step resets the buffer state. */
  predicate Clears(s: State, input: Input) {
    match input
    case DriverFailure => true
    case AppReset => true
    case CallChange(up) => up && (s.bc.proto.Invalid? || s.bc.proto.TestRampPingActive?)
    case Message(ResetConnReq) => true
    case Message(SsiConfigResp(_, result)) => result != SSI_CONFIG_RES_SUCCESS
    case _ => false
  }

  /** The step lays the downlink descriptors out anew, for the sample layout of the answer. */
  predicate Revalidates(s: State, input: Input) {
    && input.Message? && input.m.SsiConfigResp? && input.m.result == SSI_CONFIG_RES_SUCCESS
    && s.bufs.slotSize > 0 && !Closing(s.bc)
  }

  /** The format that the reply of this step is about. */
  function Asked(s: State, input: Input): Format {
    if input.Message? && input.m.SpeechConfigReq? then Negotiated(FormatOf(s.bufs), input.m.stream, input.m.rate)
    else FormatOf(s.bufs)
  }

  predicate Waits(b: Buffers, t: Buffers, f: Format) {
    && FormatOf(t) == f && t.respPend
    && t == b.(slotSize := f.slotSize, rate := f.rate, length := f.length, respPend := true, dl := t.dl, ul := t.ul)
    && t.dl[0] == b.dl[0].(invalid := true) && t.dl[1] == b.dl[1].(invalid := true) && t.dl[2] == b.dl[2].(invalid := true)
    && t.ul[0] == b.ul[0].(invalid := true) && t.ul[1] == b.ul[1].(invalid := true)
  }

  /** A free downlink descriptor for the given layout: swapped samples (layout 1) live in a buffer of the library. */
  predicate LaidOut(d: Desc, e: Desc, index: nat, layout: Option<bv8>, stale: int, slotSize: nat) {
    && e.count == slotSize && e.size == slotSize && e.pcount == slotSize - 4 && e.frameFlags == d.frameFlags
    && e.index == index && !e.locked && !e.xrun && !e.invalid
    && (if layout == Some(1) then e.data == SwapBuffer(index * slotSize) && e.payload == SwapBuffer(index * slotSize + 4)
        else e.data == Mmap(stale) && e.payload == Mmap(stale + 4))
  }

  predicate Relaid(s: State, t: State) {
    && t.bufs == s.bufs.(dl := t.bufs.dl)
    && LaidOut(s.bufs.dl[0], t.bufs.dl[0], 0, t.bc.layout, s.staleRxOffsets[0], s.bufs.slotSize)
    && LaidOut(s.bufs.dl[1], t.bufs.dl[1], 1, t.bc.layout, s.staleRxOffsets[1], s.bufs.slotSize)
    && LaidOut(s.bufs.dl[2], t.bufs.dl[2], 2, t.bc.layout, s.staleRxOffsets[2], s.bufs.slotSize)
  }

  /** Nothing changes about a descriptor but what a frame in it says, and who holds it. */
  predicate SameSlot(d: Desc, e: Desc) {
    e == d.(frameFlags := e.frameFlags, spcFlags := e.spcFlags, rateInfo := e.rateInfo, locked := e.locked, xrun := e.xrun)
  }

  predicate SameDescs(b: Buffers, t: Buffers) {
    && SameSlot(b.dl[0], t.dl[0]) && SameSlot(b.dl[1], t.dl[1]) && SameSlot(b.dl[2], t.dl[2])
    && SameSlot(b.ul[0], t.ul[0]) && SameSlot(b.ul[1], t.ul[1])
  }

  predicate SameSlots(b: Buffers, t: Buffers) {
    && FormatOf(t) == FormatOf(b) && t.respPend == b.respPend && t.rolling == b.rolling && t.ulSlot == b.ulSlot
    && SameDescs(b, t)
  }

  predicate SetupStep(s: State, t: State, input: Input, env: Env) {
    if Clears(s, input) then Cleared(t.bufs)
    else if RepliesNow(s, input) then
      ReplySets(s, t, Asked(s, input), LastRelease(s, input) && env.write(s.clock + 1) != CTRL_LEN, env)
    else
      && t.block == s.block.(rxPtr := t.block.rxPtr) && (!input.FrameWritten? ==> t.block == s.block)
      && (match input
          case Message(m) =>
            if m.SpeechConfigReq? then Waits(s.bufs, t.bufs, Asked(s, input))
            else if Revalidates(s, input) then Relaid(s, t)
            else t.bufs == s.bufs
          case FrameNotified(_) => SameSlots(s.bufs, t.bufs)
          case AcquireDl(_, _) => SameSlots(s.bufs, t.bufs)
          case AcquireUl(_) => SameSlots(s.bufs, t.bufs.(ulSlot := s.bufs.ulSlot))
          case ReleaseDl(_) => SameSlots(s.bufs, t.bufs)
          case ReleaseUl(_, _) => SameSlots(s.bufs, t.bufs)
          case _ => t.bufs == s.bufs)
  }

  lemma InvalidateWaits(b: Buffers, c: Buffers, f: Format)
    requires c == b.(slotSize := f.slotSize, rate := f.rate, length := f.length, respPend := true)
    ensures Waits(b, Invalidate(c), f)
  {
  }

  lemma SpeechSetup(s: State, m: Control, env: Env)
    requires m.SpeechConfigReq?
    ensures SetupStep(s, SpeechRequested(s, m.stream, m.rate, env), Message(m), env)
  {
    hide SetupAndReply, Prepared, Cleared, Invalidate, Reconfigured, Negotiated, Locked, Waits;
    var s1 := WithPriv(s, if m.stream != 0 then ConfigActPend else ConfigDeactPend);
    var b := Reconfigured(s1.bufs, m.stream, m.rate);
    ReconfiguredFormat(s.bufs, m.stream, m.rate);
    ReconfiguredLocked(s.bufs, m.stream, m.rate, true);
    if Locked(b) == 0 {
      ReplySetup(s1.(bufs := b), env);
    } else {
      InvalidateWaits(s.bufs, b.(respPend := true), FormatOf(b));
    }
  }

  lemma UpdateLaysOut(s: State, env: Env)
    requires s.bufs.slotSize > 0 && !(s.bc.proto.Disconnected? && !s.bc.priv.Connecting?)
    ensures Relaid(s, SsiDataPath(s, env)) && SsiDataPath(s, env).block == s.block
  {
  }

  lemma DataPathBlock(s: State, env: Env)
    ensures SsiDataPath(s, env).block == s.block
  {
    hide ReleaseWakeline, UpdateDlDescs;
  }

  lemma SsiAcceptedKeeps(s: State, layout: bv8, env: Env)
    ensures var t := SsiResponse(s, layout, SSI_CONFIG_RES_SUCCESS, env);
            t.bufs == s.bufs && t.block == s.block && t.staleRxOffsets == s.staleRxOffsets
  {
    hide SendSsi;
  }

  lemma SsiSetup(s: State, m: Control, env: Env)
    requires Consistent(s.bc) && m.SsiConfigResp?
    ensures SetupStep(s, SsiResponded(s, m.layout, m.result, env), Message(m), env)
  {
    hide SsiResponse, SsiDataPath, Closing, Cleared, LaidOut, Locked, DlUnlocked, UlUnlocked;
    var t := SsiResponse(s, m.layout, m.result, env);
    if m.result == SSI_CONFIG_RES_SUCCESS {
      ClosingExact(s, m.layout, env);
      SsiAcceptedKeeps(s, m.layout, env);
      DataPathBlock(t, env);
      if Revalidates(s, Message(m)) { UpdateLaysOut(t, env); } else { DataPathKeeps(t, env); }
    } else {
      RefusedClears(s, m.layout, m.result, env);
      DataPathKeeps(t, env);
    }
  }

  lemma RefusedClears(s: State, layout: bv8, result: bv8, env: Env)
    requires result != SSI_CONFIG_RES_SUCCESS
    ensures var t := SsiResponse(s, layout, result, env); Cleared(t.bufs) && t.bufs.slotSize == 0
  {
    hide SendReset;
    ResetClears(s, env);
    ResetClears(WithPriv(s, InSync), env);
  }
  lemma MessageSetup(s: State, m: Control, env: Env)
    requires Consistent(s.bc) && !m.TestRampPing?
    ensures SetupStep(s, Receive(s, m, env), Message(m), env)
  {
    hide SpeechRequested, SsiResponded, AfterPeerReset, SendSsi, ReleaseWakeline, Prepared, Cleared, Waits, Relaid, Closing,
      Locked, DlUnlocked, UlUnlocked;
    match m
    case SpeechConfigReq(_, _, _, _, _, _) =>
      SpeechSetup(s, m, env);
      SetupStepByBuffers(s, SpeechRequested(s, m.stream, m.rate, env), Receive(s, m, env), m, env);
    case SsiConfigResp(layout, result) =>
      SsiSetup(s, m, env);
      SetupStepByBuffers(s, SsiResponded(s, layout, result, env), Receive(s, m, env), m, env);
    case ResetConnReq => ResetClears(WritePlain(s.(bc := Fresh(s.bc)), ResetConnResp, env).s, env);
    case _ =>
  }

  /** The event that a message adds is no part of the set-up. */
  lemma SetupStepByBuffers(s: State, t: State, u: State, m: Control, env: Env)
    requires SetupStep(s, t, Message(m), env)
    requires u.bufs == t.bufs && u.block == t.block && u.bc == t.bc
    ensures SetupStep(s, u, Message(m), env)
  {
    hide Prepared, Cleared, Waits, LaidOut, Closing, Locked, DlUnlocked, UlUnlocked;
  }

  lemma CallSetup(s: State, up: bool, env: Env)
    ensures SetupStep(s, CallStatus(s, up, env), CallChange(up), env)
  {
    hide SendReset, SendSsi, Cleared;
    ResetClears(s, env);
  }

  lemma SlotsAlike(b: Buffers)
    ensures SameSlots(b, b)
  {
  }

  lemma DlUnlockedAlike(b: Buffers, i: nat)
    requires i < DL_SLOTS
    ensures var u := DlUnlocked(b, i); SameSlots(b, u) && SameSlots(b, u.(dl := u.dl[i := u.dl[i].(xrun := false)]))
  {
  }

  lemma UlUnlockedAlike(b: Buffers, i: nat, errors: nat)
    requires i < UL_SLOTS
    ensures SameSlots(b, UlUnlocked(b.(ulErrors := errors), i))
  {
  }

  /** A release during the wait sets the buffers up if it is the last one. */
  lemma ReleasedSetup(s: State, b: Buffers, env: Env)
    requires s.bufs.respPend && SameSlots(s.bufs, b)
    ensures var t := ReleasedDuringChange(s.(bufs := b), env);
            if Locked(b) == 0 then ReplySets(s, t, FormatOf(s.bufs), env.write(s.clock + 1) != CTRL_LEN, env)
            else t.bufs == b && t.block == s.block
  {
    hide SetupAndReply, Prepared, Cleared, Locked, SameSlot;
    if Locked(b) == 0 { DelayedSetup(s.(bufs := b), env); }
  }

  lemma ReleaseDlSetup(s: State, i: nat, env: Env)
    requires i < DL_SLOTS
    ensures SetupStep(s, DlRelease(s, i, env).s, ReleaseDl(i), env)
  {
    hide ReleasedDuringChange, SameSlots, Prepared, Cleared, Locked, DlUnlocked;
    SlotsAlike(s.bufs);
    DlUnlockedAlike(s.bufs, i);
    if s.bufs.respPend {
      ReleasedSetup(s, DlUnlocked(s.bufs, i), env);
    }
  }

  lemma ReleaseUlSetup(s: State, i: nat, dataType: bv8, env: Env)
    requires i < UL_SLOTS
    ensures SetupStep(s, UlRelease(s, i, dataType, env).s, ReleaseUl(i, dataType), env)
  {
    hide ReleasedDuringChange, SameSlots, Prepared, Cleared, Locked, UlUnlocked, UlHeader;
    UlUnlockedAlike(s.bufs, i, s.bufs.ulErrors);
    UlUnlockedAlike(s.bufs, i, UlSend(s, i, dataType, env).s.bufs.ulErrors);
    if s.bufs.respPend {
      ReleasedSetup(s, UlUnlocked(s.bufs, i), env);
    }
  }

  lemma NotifyDescs(s: State, hw: nat)
    ensures SameDescs(s.bufs, Notify(s, hw).bufs)
  {
    hide Overrun;
  }

  lemma NotifyAlike(s: State, hw: nat)
    ensures SameSlots(s.bufs, Notify(s, hw).bufs)
  {
    NotifyDescs(s, hw);
    hide Notify, SameDescs;
  }

  lemma DlReplaced(b: Buffers, k: nat, d: Desc)
    requires k < DL_SLOTS && SameSlot(b.dl[k], d)
    ensures SameDescs(b, b.(dl := b.dl[k := d])) && SameDescs(b, b)
  {
  }

  lemma AcquireDlDescs(s: State, header: Octets, isNull: bool)
    ensures SameDescs(s.bufs, DlAcquire(s, header, isNull).s.bufs)
  {
    hide ApplSlot, DlLock, SameDescs;
    var k := (if ApplSlot(s) == -EPIPE then s.bufs.rxHw else s.bufs.rxAppl) % DL_SLOTS;
    var d := DlLock(s.bufs.dl[k], header);
    DlReplaced(s.bufs, k, d);
    var t := DlAcquire(s, header, isNull).s.bufs;
    SameDescsAlone(s.bufs, if t.dl == s.bufs.dl then s.bufs else s.bufs.(dl := s.bufs.dl[k := d]), t);
  }

  lemma AcquireDlAlike(s: State, header: Octets, isNull: bool)
    ensures SameSlots(s.bufs, DlAcquire(s, header, isNull).s.bufs)
  {
    AcquireDlDescs(s, header, isNull);
    hide DlAcquire, SameDescs;
  }

  lemma UlReplaced(b: Buffers, k: nat, d: Desc)
    requires k < UL_SLOTS && SameSlot(b.ul[k], d)
    ensures SameDescs(b, b.(ul := b.ul[k := d])) && SameDescs(b, b)
  {
  }

  lemma AcquireUlDescs(s: State, isNull: bool)
    ensures SameDescs(s.bufs, UlAcquire(s, isNull).s.bufs)
  {
    hide SameDescs;
    var b := s.bufs;
    var k := if b.ulSlot < 0 then 0 else b.ulSlot;
    var d := b.ul[k].(frameFlags := 0, locked := true);
    UlReplaced(b, k, d);
    var t := UlAcquire(s, isNull).s.bufs;
    SameDescsAlone(b, if t.ul == b.ul then b else b.(ul := b.ul[k := d]), t);
  }

  lemma SameDescsAlone(b: Buffers, t: Buffers, u: Buffers)
    requires SameDescs(b, t) && u.dl == t.dl && u.ul == t.ul
    ensures SameDescs(b, u)
  {
  }

  lemma AcquireUlAlike(s: State, isNull: bool)
    ensures SameSlots(s.bufs, UlAcquire(s, isNull).s.bufs.(ulSlot := s.bufs.ulSlot))
  {
    AcquireUlDescs(s, isNull);
    var t := UlAcquire(s, isNull).s.bufs;
    SameDescsAlone(s.bufs, t, t.(ulSlot := s.bufs.ulSlot));
    hide UlAcquire, SameDescs;
  }

  /** The exact buffer set-up after every step of either layer. */
  lemma StepSetup(s: State, input: Input, env: Env)
    requires Legal(input) && Consistent(s.bc)
    ensures SetupStep(s, Step(s, input, env), input, env)
  {
    hide Receive, CallStatus, Notify, DlAcquire, UlAcquire, DlRelease, UlRelease, SendReset, RequestReset,
      AfterPeerReset, Enqueue, Prepared, Cleared, SameSlots, Waits, Relaid, Locked, DlUnlocked, UlUnlocked;
    match input
    case Message(m) => MessageSetup(s, m, env);
    case CallChange(up) => CallSetup(s, up, env);
    case ReleaseDl(i) => ReleaseDlSetup(s, i, env);
    case ReleaseUl(i, dataType) => ReleaseUlSetup(s, i, dataType, env);
    case AcquireDl(header, isNull) => AcquireDlAlike(s, header, isNull);
    case AcquireUl(isNull) => AcquireUlAlike(s, isNull);
    case FrameNotified(hw) => NotifyAlike(s, hw);
    case AppReset => ResetClears(s, env);
    case DriverFailure => ResetClears(s, env);
    case _ =>
  }
}
