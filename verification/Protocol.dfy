/** The steps of cmtspeech_backend_common.c and cmtspeech_nokiamodem.c as functions on the context. */
module Protocol {
  import opened Bounded
  import opened Codec
  import opened Model

  // ---------- Wakeline ----------

  function AcquireWakeline(s: State, user: User, env: Env): (r: Ret)
    ensures r.s == s.(line := r.s.line, clock := r.s.clock)
    ensures r.s.line.users == s.line.users + {user}
  {
    if s.line.users == {} then
      var res := env.wake(s.clock);
      var level := if res == 0 then 1 else s.line.level;
      Ret(s.(line := Line({user}, level), clock := s.clock + 1), res)
    else
      Ret(s.(line := s.line.(users := s.line.users + {user})), 0)
  }

  function ReleaseWakeline(s: State, user: User, env: Env): (r: Ret)
    ensures r.s == s.(line := r.s.line, clock := r.s.clock)
    ensures r.s.line.users == s.line.users - {user}
  {
    var rest := s.line.users - {user};
    if s.line.users != {} && rest == {} then
      var res := env.wake(s.clock);
      var level := if res == 0 then 0 else s.line.level;
      Ret(s.(line := Line({}, level), clock := s.clock + 1), res)
    else
      Ret(s.(line := s.line.(users := rest)), 0)
  }

  function ResetWakeline(s: State, env: Env): (r: State)
    ensures r == s.(line := r.line, clock := r.clock)
    ensures r.line.users == {}
  {
    var level := if env.wake(s.clock) == 0 then 0 else s.line.level;
    s.(line := Line({}, level), clock := s.clock + 1)
  }

  // ---------- Descriptors ----------

  function AddrPlus(a: Addr, n: int): Addr {
    match a
    case Null => Null
    case Mmap(o) => Mmap(o + n)
    case SwapBuffer(o) => SwapBuffer(o + n)
  }

  function InitDesc(d: Desc, data: Addr, slotSize: int, frameFlags: bv8, index: int): Desc {
    d.(count := slotSize, pcount := slotSize - DATA_HEADER_LEN, size := slotSize, frameFlags := frameFlags,
       data := data, payload := AddrPlus(data, DATA_HEADER_LEN), index := index,
       locked := false, invalid := false, xrun := false)
  }

  function InitDescs(b: Buffers, k: Block): Buffers {
    b.(dl := [InitDesc(b.dl[0], Mmap(k.rxOffsets[0]), b.slotSize, 0, 0),
              InitDesc(b.dl[1], Mmap(k.rxOffsets[1]), b.slotSize, 0, 1),
              InitDesc(b.dl[2], Mmap(k.rxOffsets[2]), b.slotSize, 0, 2)],
       ul := [InitDesc(b.ul[0], Mmap(k.txOffsets[0]), b.slotSize, 0, 0),
              InitDesc(b.ul[1], Mmap(k.txOffsets[1]), b.slotSize, 0, 1)])
  }

  function DlData(layout: Option<bv8>, stale: DlOffsets, slotSize: nat, i: nat): Addr
    requires i < DL_SLOTS
  {
    if layout == Some(SAMPLE_LAYOUT_SWAPPED_LE) then SwapBuffer(i * slotSize) else Mmap(stale[i])
  }

  function UpdateDlDescs(b: Buffers, layout: Option<bv8>, stale: DlOffsets): (r: Buffers)
    ensures r == b.(dl := r.dl)
  {
    b.(dl := [InitDesc(b.dl[0], DlData(layout, stale, b.slotSize, 0), b.slotSize, b.dl[0].frameFlags, 0),
              InitDesc(b.dl[1], DlData(layout, stale, b.slotSize, 1), b.slotSize, b.dl[1].frameFlags, 1),
              InitDesc(b.dl[2], DlData(layout, stale, b.slotSize, 2), b.slotSize, b.dl[2].frameFlags, 2)])
  }

  function Invalidate(b: Buffers): Buffers {
    b.(dl := [b.dl[0].(invalid := true), b.dl[1].(invalid := true), b.dl[2].(invalid := true)],
       ul := [b.ul[0].(invalid := true), b.ul[1].(invalid := true)])
  }

  function ResetBuffers(b: Buffers): Buffers {
    var d := ZERO_DESC.(invalid := true);
    Buffers(false, 0, 0xff, 0xff, 0, -1, -1, -1, [d, d, d], [d, d], b.rolling)
  }

  // ---------- Driver configuration ----------

  function ConfigureDriver(s: State, env: Env): (r: Ret)
    ensures r.s == s.(bufs := r.s.bufs, block := r.s.block, clock := r.s.clock)
  {
    var t, res := s.clock, env.config(s.clock);
    var s1 := s.(clock := t + 1);
    if res != 0 then Ret(s1, res)
    else
      var b := s1.bufs.(rolling := s1.bufs.rolling || env.ifVersion(t) > 0);
      var b' := if b.slotSize > 0 then InitDescs(b, env.block(t)) else b;
      Ret(s1.(block := env.block(t), bufs := b'), 0)
  }

  function SetupConfig(s: State, env: Env): (r: Ret)
    ensures r.s == s.(bufs := r.s.bufs, block := r.s.block, clock := r.s.clock)
  {
    var b := if s.bufs.slotSize == 0 then ResetBuffers(s.bufs)
             else s.bufs.(ulErrors := 0, rxHw := -1, rxAppl := -1, ulSlot := 0);
    ConfigureDriver(s.(bufs := b), env)
  }

  // ---------- Sending ----------

  function To(bc: Backend, proto: Proto, priv: Priv): Backend {
    bc.(proto := proto, priv := priv)
  }

  function Fresh(bc: Backend): Backend {
    bc.(serverActive := false, layout := None, proto := Disconnected, priv := InSync, ioErrors := 0)
  }

  function WithPriv(s: State, priv: Priv): State {
    s.(bc := s.bc.(priv := priv))
  }

  function Attempted(s: State, msg: Control, res: int, bc: Backend): State {
    s.(bc := bc, log := s.log + [Sent(msg, res)], clock := s.clock + 1)
  }

  /** The log grew by nothing, or by one attempt to write msg. */
  predicate Logged(before: seq<Sent>, after: seq<Sent>, msg: Control) {
    after == before || (|after| == |before| + 1 && after[..|before|] == before && after[|before|].msg == msg)
  }

  /** The backend after a write whose message triggers no further message. */
  function Wrote(bc: Backend, msg: Control, res: int): Backend {
    if res != CTRL_LEN then bc.(ioErrors := bc.ioErrors + 1)
    else if msg == ResetConnReq then To(bc, Invalid, InSync).(ioErrors := 0)
    else bc.(ioErrors := 0)
  }

  function WritePlain(s: State, msg: Control, env: Env): Ret {
    var res := env.write(s.clock);
    Ret(Attempted(s, msg, res, Wrote(s.bc, msg, res)), res)
  }

  function TimingSent(bc: Backend, res: int): Backend {
    if res == CTRL_LEN then bc.(priv := Timing, ioErrors := 0) else bc.(ioErrors := bc.ioErrors + 1)
  }

  function SendTimingRequest(s: State, env: Env): Ret {
    var res := env.write(s.clock);
    Ret(Attempted(s, NewTimingConfigReq, res, TimingSent(s.bc, res)), if res == CTRL_LEN then 0 else -1)
  }

  function SsiSent(bc: Backend, up: bool, res: int): Backend {
    if res != CTRL_LEN then bc.(priv := InSync, ioErrors := bc.ioErrors + 1)
    else bc.(priv := if up then Connecting else Disconnecting, ioErrors := 0)
  }

  function SsiRequest(bc: Backend, up: bool): Control {
    SsiConfigReq(SAMPLE_LAYOUT_INORDER_LE, bc.version, if up then 1 else 0)
  }

  function SendSsi(s: State, up: bool, env: Env): (r: Ret)
    ensures r.s == s.(bc := r.s.bc, line := r.s.line, log := r.s.log, clock := r.s.clock)
    ensures Logged(s.log, r.s.log, SsiRequest(s.bc, up))
    ensures r.s.line.users == if up then s.line.users + {CallUser} else s.line.users
    ensures r.s.bc.serverActive == s.bc.serverActive && r.s.bc.proto == s.bc.proto
    ensures r.s.bc.priv == if r.res == 0 || (s.bc.priv == Disconnecting && !up)
                           then (if up then Connecting else Disconnecting) else InSync
  {
    if !up && s.bc.priv == Disconnecting then Ret(s, -1)
    else
      var s1 := if up then AcquireWakeline(s, CallUser, env).s else s;
      var res := env.write(s1.clock);
      Ret(Attempted(s1, SsiRequest(s.bc, up), res, SsiSent(s.bc, up, res)), if res == CTRL_LEN then 0 else -1)
  }

  /** Follow-up of a written SPEECH_CONFIG_RESP. */
  function PostSpeechResp(s: State, result: bv8, env: Env): State {
    if result & 0x1 != 0 then WithPriv(s, InSync)
    else if s.bc.priv == ConfigActPend then
      if s.bc.proto == Connected then SendTimingRequest(s.(bc := To(s.bc, ActiveDl, InSync)), env).s
      else if s.bc.proto == ActiveDlul then s.(bc := To(s.bc, ActiveDl, InSync))
      else s
    else if s.bc.priv == ConfigDeactPend && IsActive(s.bc) then
      var s1 := s.(bc := To(s.bc, Connected, InSync));
      if s.bc.serverActive then s1 else SendSsi(s1, false, env).s
    else s
  }

  /** The write of a SPEECH_CONFIG_RESP, the one message with a follow-up. */
  function WriteSpeechResp(s: State, result: bv8, env: Env): Ret {
    var res := env.write(s.clock);
    if res != CTRL_LEN then
      Ret(Attempted(s, SpeechConfigResp(result), res, s.bc.(ioErrors := s.bc.ioErrors + 1)), res)
    else
      var s1 := PostSpeechResp(Attempted(s, SpeechConfigResp(result), res, s.bc), result, env);
      Ret(s1.(bc := s1.bc.(ioErrors := 0)), res)
  }

  // ---------- Reset ----------

  /** priv_send_reset up to the reconfiguration of the driver. */
  function RequestReset(s: State, env: Env): (r: Ret)
    ensures r.s == s.(bc := r.s.bc, line := r.s.line, log := r.s.log, clock := r.s.clock)
    ensures Logged(s.log, r.s.log, ResetConnReq)
    ensures CallUser in r.s.line.users <==> CallUser in s.line.users
    ensures r.s.bc.serverActive == s.bc.serverActive
    ensures (r.s.bc.proto == s.bc.proto && r.s.bc.priv == s.bc.priv) || (r.s.bc.proto == Invalid && r.s.bc.priv == InSync)
  {
    var a := AcquireWakeline(s, ResetUser, env);
    if a.res != 0 then a
    else
      var w := WritePlain(a.s, ResetConnReq, env);
      if w.res < 0 then ReleaseWakeline(w.s, ResetUser, env) else w
  }

  /** priv_send_reset, also exported as cmtspeech_state_change_error. */
  function SendReset(s: State, env: Env): (r: Ret)
    ensures r.s.bc == RequestReset(s, env).s.bc && r.s.log == RequestReset(s, env).s.log
    ensures r.s.line == RequestReset(s, env).s.line && r.s.tx == s.tx && r.s.ulCounter == s.ulCounter
    ensures r.s.events == s.events && r.s.staleRxOffsets == s.staleRxOffsets
  {
    var r := RequestReset(s, env);
    Ret(SetupConfig(r.s.(bufs := r.s.bufs.(slotSize := 0)), env).s, r.res)
  }

  function AfterPeerReset(s: State, env: Env): (r: State)
    ensures r.bc == Fresh(s.bc) && r.line.users == {} && r.log == s.log && r.tx == s.tx && r.ulCounter == s.ulCounter
    ensures r.events == s.events && r.staleRxOffsets == s.staleRxOffsets
  {
    var s1 := SetupConfig(s.(bufs := s.bufs.(slotSize := 0)), env).s;
    ResetWakeline(s1.(bc := Fresh(s1.bc)), env)
  }

  // ---------- Call status ----------

  function CallStatus(s: State, up: bool, env: Env): State {
    var s1 := if up then CallUp(s, env) else CallDown(s, env);
    s1.(bc := s1.bc.(serverActive := up))
  }

  function CallDown(s: State, env: Env): State {
    if s.bc.priv == ConfigDeactPend then s.(bc := s.bc.(ioErrors := s.bc.ioErrors + 1))
    else if s.bc.proto == Connected then SendSsi(s, false, env).s
    else if s.bc.priv == Connecting then WithPriv(s, SsiConfigPend)
    else s
  }

  function CallUp(s: State, env: Env): State {
    if s.bc.proto == Disconnected then SendSsi(s, true, env).s
    else if s.bc.proto == Connected && s.bc.priv == Disconnecting then WithPriv(s, SsiConfigPend)
    else if s.bc.proto == Invalid || s.bc.proto == TestRampPingActive then
      WithPriv(SendReset(s, env).s, ResetBeforeConnect)
    else if IsActive(s.bc) && !s.bc.serverActive && s.bc.ioErrors > 0 then
      SendSsi(s.(bc := Fresh(s.bc)), true, env).s
    else s
  }

  // ---------- Speech configuration ----------

  function SetupAndReply(s: State, env: Env): Ret {
    var c := SetupConfig(s.(bufs := s.bufs.(respPend := false)), env);
    var w := WriteSpeechResp(c.s, if c.res == 0 then 0 else 1, env);
    var res := if w.res == CTRL_LEN then 0 else -1;
    if c.res == 0 then Ret(w.s, res)
    else Ret(SendReset(w.s.(bufs := Invalidate(w.s.bufs)), env).s, res)
  }

  function Reconfigured(b: Buffers, stream: bv8, rate: bv8): Buffers {
    if stream == 0 then b.(slotSize := 0)
    else b.(rate := rate, length := DATA_LENGTH_20MS,
            slotSize := if rate == SAMPLE_RATE_8KHZ then 160 * PCM_SAMPLE_SIZE + DATA_HEADER_LEN
                        else if rate == SAMPLE_RATE_16KHZ then 320 * PCM_SAMPLE_SIZE + DATA_HEADER_LEN
                        else 0)
  }

  /** priv_handle_speech_config. */
  function SpeechConfig(s: State, stream: bv8, rate: bv8, env: Env): State {
    var s1 := s.(bufs := Reconfigured(s.bufs, stream, rate));
    if Locked(s1.bufs) == 0 then SetupAndReply(s1, env).s
    else s1.(bufs := Invalidate(s1.bufs.(respPend := true)))
  }

  /** priv_drvbuf_layout_change_buffer_released, after the lock flag was cleared. */
  function ReleasedDuringChange(s: State, env: Env): State {
    if Locked(s.bufs) == 0 then
      var r := SetupAndReply(s, env);
      if r.res != 0 then r.s.(bufs := Invalidate(r.s.bufs)) else r.s
    else s
  }

  // ---------- Inbound messages ----------

  function Linked(bc: Backend, layout: bv8): Backend {
    To(bc, Connected, InSync).(
      layout := Some(if layout == SAMPLE_LAYOUT_NO_PREF then SAMPLE_LAYOUT_SWAPPED_LE else layout))
  }

  function SsiResponse(s: State, layout: bv8, result: bv8, env: Env): State {
    if result == SSI_CONFIG_RES_SUCCESS then
      if s.bc.priv == Connecting then s.(bc := Linked(s.bc, layout))
      else if s.bc.priv == Disconnecting then s.(bc := Fresh(s.bc))
      else if s.bc.priv == SsiConfigPend then
        var s1 := SendSsi(s, s.bc.serverActive, env).s;
        s1.(bc := if s.bc.serverActive then To(s1.bc, Disconnected, Connecting) else To(s1.bc, Connected, Disconnecting))
      else s
    else
      SendReset(if s.bc.priv == Connecting || s.bc.priv == Disconnecting then WithPriv(s, InSync) else s, env).s
  }

  /** The data path's share of an SSI_CONFIG_RESP. */
  function SsiDataPath(s: State, env: Env): (r: State)
    ensures r.bc == s.bc && r.log == s.log && r.tx == s.tx && r.ulCounter == s.ulCounter && r.events == s.events
    ensures r.bufs == s.bufs.(dl := r.bufs.dl) && r.staleRxOffsets == s.staleRxOffsets
  {
    if s.bc.proto == Disconnected && s.bc.priv != Connecting then ReleaseWakeline(s, CallUser, env).s
    else if s.bufs.slotSize > 0 then s.(bufs := UpdateDlDescs(s.bufs, s.bc.layout, s.staleRxOffsets))
    else s
  }

  function SsiResponded(s: State, layout: bv8, result: bv8, env: Env): State {
    SsiDataPath(SsiResponse(s, layout, result, env), env)
  }

  function SpeechRequested(s: State, stream: bv8, rate: bv8, env: Env): State {
    SpeechConfig(WithPriv(s, if stream != 0 then ConfigActPend else ConfigDeactPend), stream, rate, env)
  }

  function UplinkReady(s: State): State {
    if s.bc.proto == ActiveDl then s.(bc := To(s.bc, ActiveDlul, InSync)) else s
  }

  function TimingReceived(s: State): State {
    if s.bc.proto == ActiveDl then s.(bc := To(s.bc, ActiveDlul, InSync))
    else if s.bc.priv == Timing then WithPriv(s, InSync)
    else s
  }

  function ResetRequested(s: State, env: Env): (r: State)
    ensures r.bc == Fresh(s.bc) && r.tx == s.tx && r.ulCounter == s.ulCounter && r.events == s.events
    ensures r.staleRxOffsets == s.staleRxOffsets
  {
    AfterPeerReset(WritePlain(s.(bc := Fresh(s.bc)), ResetConnResp, env).s, env)
  }

  function ResetConfirmed(s: State, env: Env): (r: State)
    ensures r.bc.proto == Disconnected && !r.bc.serverActive && (r.bc.priv == InSync || r.bc.priv == Connecting)
    ensures r.tx == s.tx && r.ulCounter == s.ulCounter && r.events == s.events && r.staleRxOffsets == s.staleRxOffsets
  {
    var s1 := s.(bc := Fresh(s.bc));
    var s2 := if s.bc.priv == ResetBeforeConnect then SendSsi(s1, true, env).s else s1;
    ReleaseWakeline(s2, ResetUser, env).s
  }

  predicate Known(m: Control) {
    m.SpeechConfigReq? || m.UplinkConfigNtf? || m.TimingConfigNtf? || m.SsiConfigResp? || m.ResetConnReq? ||
    m.ResetConnResp?
  }

  /** cmtspeech_bc_handle_command and the data path's reaction to a known message. */
  function Handled(s: State, m: Control, env: Env): State {
    match m
    case SpeechConfigReq(stream, _, _, _, rate, _) => SpeechRequested(s, stream, rate, env)
    case UplinkConfigNtf => UplinkReady(s)
    case TimingConfigNtf(_, _) => TimingReceived(s)
    case SsiConfigResp(layout, result) => SsiResponded(s, layout, result, env)
    case ResetConnReq => ResetRequested(s, env)
    case ResetConnResp => ResetConfirmed(s, env)
    case _ => s
  }

  function KindOf(m: Control): EventKind {
    if m.ResetConnReq? then ResetEvent(true) else if m.ResetConnResp? then ResetEvent(false) else MessageEvent(m)
  }

  function Enqueue(s: State, e: Event): (r: State)
    ensures r == s.(events := r.events)
  {
    s.(events := Pushed(s.events, e, EVENT_BUFFER_SIZE - 1))
  }

  function EventOf(m: Control, before: State, after: State): Event {
    Event(KindOf(m), before.bc.proto, after.bc.proto, m.SpeechConfigReq?)
  }

  /** A known control message from the modem. */
  function Receive(s: State, m: Control, env: Env): State {
    if !Known(m) then s
    else
      var s1 := Handled(s, m, env);
      Enqueue(s1, EventOf(m, s, s1))
  }

  /** The driver reports that the modem went away. */
  function DriverError(s: State, env: Env): State {
    var s1 := AfterPeerReset(s, env);
    Enqueue(s1, Event(ResetEvent(false), s.bc.proto, s1.bc.proto, false))
  }

  // ---------- Downlink ----------

  // The C expressions are evaluated in 32-bit unsigned arithmetic.
  function RxDistance(k: Block, to: int, from: int): nat {
    ((k.boundary + to - from) % 0x1_0000_0000) % k.boundary
  }

  function RxDelay(s: State): nat {
    RxDistance(s.block, s.block.rxPtr, s.bufs.rxAppl)
  }

  function RxAvail(s: State): nat {
    RxDistance(s.block, s.bufs.rxHw, s.bufs.rxAppl)
  }

  function MarkXrun(dl: DlDescs, i: nat, mark: bool): DlDescs
    requires i < DL_SLOTS
  {
    if mark then dl[i := dl[i].(xrun := true)] else dl
  }

  /** The three overrun checks of a notification for slot last. */
  function Marked(dl: DlDescs, last: nat, overrun: bool): DlDescs
    requires last < DL_SLOTS
  {
    var next := (last + 1) % DL_SLOTS;
    var d1 := MarkXrun(dl, last, overrun);
    var d2 := MarkXrun(d1, next, d1[next].locked);
    MarkXrun(d2, last, d2[last].locked)
  }

  function NotifySlots(s: State, hw: nat): State {
    s.(bufs := s.bufs.(rxHw := hw, rxAppl := if s.bufs.rxAppl < 0 then hw else s.bufs.rxAppl))
  }

  predicate Overrun(s: State) {
    s.bufs.rolling && RxDelay(s) >= DL_SLOTS
  }

  /** The driver announces a received frame. */
  function Notify(s: State, hw: nat): (r: State)
    ensures r == s.(bufs := s.bufs.(rxHw := hw, rxAppl := r.bufs.rxAppl, dl := r.bufs.dl, ulErrors := 0))
  {
    var s1 := NotifySlots(s, hw);
    s1.(bufs := s1.bufs.(dl := Marked(s1.bufs.dl, hw % DL_SLOTS, Overrun(s1)), ulErrors := 0))
  }

  predicate NotifyXrun(s: State, hw: nat) {
    var s1 := NotifySlots(s, hw);
    var last := hw % DL_SLOTS;
    Overrun(s1) || s1.bufs.dl[(last + 1) % DL_SLOTS].locked || s1.bufs.dl[last].locked
  }

  function ApplSlot(s: State): int {
    if s.bufs.rolling && RxAvail(s) == s.block.boundary - 1 then -ENODATA
    else if Overrun(s) then -EPIPE
    else s.bufs.rxAppl % DL_SLOTS
  }

  function Bump(s: State): (r: State)
    ensures r == s.(bufs := s.bufs.(rxAppl := r.bufs.rxAppl))
  {
    s.(bufs := s.bufs.(rxAppl :=
      (s.bufs.rxAppl + 1) % (if s.bufs.rolling then s.block.boundary else DL_SLOTS)))
  }

  function DlLock(d: Desc, h: Octets): (r: Desc)
    ensures r == d.(frameFlags := r.frameFlags, spcFlags := r.spcFlags, rateInfo := r.rateInfo, locked := true)
  {
    d.(frameFlags := DATA_TYPE_VALID, spcFlags := DlFields(h).spcFlags,
       rateInfo := DlFields(h).codecRate | (DlFields(h).rate << 2), locked := true)
  }

  function DlAcquire(s: State, header: Octets, isNull: bool): (r: Ret)
    ensures r.s == s.(bc := r.s.bc, bufs := s.bufs.(rxAppl := r.s.bufs.rxAppl, dl := r.s.bufs.dl))
    ensures r.s.bc == s.bc || (s.bc.proto == TestRampPingActive && r.s.bc == To(s.bc, Disconnected, InSync))
  {
    if s.bufs.rxAppl < 0 then Ret(s, -EINVAL)
    else
      var choice := ApplSlot(s);
      if choice == -ENODATA then Ret(s, -ENODATA)
      else
        var s1 := if choice == -EPIPE then s.(bufs := s.bufs.(rxAppl := s.bufs.rxHw)) else s;
        var slot := s1.bufs.rxAppl % DL_SLOTS;
        var s2 := Bump(s1);
        if s2.bufs.dl[slot].invalid || isNull then Ret(s2, -EINVAL)
        else
          var s3 := s2.(bufs := s2.bufs.(dl := s2.bufs.dl[slot := DlLock(s2.bufs.dl[slot], header)]));
          Ret(if s3.bc.proto == TestRampPingActive then s3.(bc := To(s3.bc, Disconnected, InSync)) else s3, 0)
  }

  function DlUnlocked(b: Buffers, i: nat): (r: Buffers)
    requires i < DL_SLOTS
    ensures r == b.(dl := r.dl)
  {
    b.(dl := b.dl[i := b.dl[i].(locked := false)])
  }

  function DlRelease(s: State, i: nat, env: Env): Ret
    requires i < DL_SLOTS
  {
    if !s.bufs.dl[i].locked then Ret(s, -ENOENT)
    else
      var s1 := s.(bufs := DlUnlocked(s.bufs, i));
      if s.bufs.respPend then Ret(ReleasedDuringChange(s1, env), 0)
      else if s.bufs.dl[i].xrun then
        Ret(s1.(bufs := s1.bufs.(dl := s1.bufs.dl[i := s1.bufs.dl[i].(xrun := false)])), -EPIPE)
      else Ret(s1, 0)
  }

  // ---------- Uplink ----------

  function UlAcquire(s: State, isNull: bool): (r: Ret)
    ensures r.s == s.(bufs := s.bufs.(ul := r.s.bufs.ul, ulSlot := r.s.bufs.ulSlot))
  {
    var b := s.bufs;
    if !IsActive(s.bc) || b.ulSlot < 0 then Ret(s, -EINVAL)
    else
      var d := b.ul[b.ulSlot];
      if d.invalid then Ret(s, -EINVAL)
      else if d.locked then Ret(s, -ENOBUFS)
      else if isNull then Ret(s, -EINVAL)
      else
        Ret(s.(bufs := b.(ul := b.ul[b.ulSlot := d.(frameFlags := 0, locked := true)],
                          ulSlot := (b.ulSlot + 1) % UL_SLOTS)), 0)
  }

  function UlUnlocked(b: Buffers, i: nat): (r: Buffers)
    requires i < UL_SLOTS
    ensures r == b.(ul := r.ul)
  {
    b.(ul := b.ul[i := b.ul[i].(locked := false)])
  }

  /** Writes the frame header and offers the frame to the driver. */
  function UlSend(s: State, i: nat, dataType: bv8, env: Env): (r: Ret)
    ensures r.s == s.(bufs := r.s.bufs, clock := r.s.clock, tx := r.s.tx, ulCounter := r.s.ulCounter)
    ensures r.s.bufs == s.bufs.(ulErrors := r.s.bufs.ulErrors)
  {
    var t := s.clock;
    var ok := env.data(t) == CTRL_LEN;
    var frame := Frame(i, UlHeader(s.ulCounter, s.bufs.length, s.bufs.rate, dataType), ok);
    var s1 := s.(clock := t + 1, tx := s.tx + [frame]);
    if ok then Ret(s1.(ulCounter := s1.ulCounter + 4), 0)
    else if env.data(t) < 0 && env.busy(t) then
      Ret(s1.(bufs := s1.bufs.(ulErrors := s1.bufs.ulErrors + 1)), -EBUSY)
    else
      Ret(s1.(bufs := s1.bufs.(ulErrors := MAX_UL_ERRORS_PAUSE)), -EINVAL)
  }

  function UlRelease(s: State, i: nat, dataType: bv8, env: Env): Ret
    requires i < UL_SLOTS
  {
    if s.bufs.respPend then Ret(ReleasedDuringChange(s.(bufs := UlUnlocked(s.bufs, i)), env), 0)
    else
      var r :=
        if s.bufs.ulErrors >= MAX_UL_ERRORS_PAUSE then Ret(s, if s.bc.ioErrors > 0 then -EIO else -EBUSY)
        else if s.bc.proto == ActiveDlul then UlSend(s, i, dataType, env)
        else Ret(s, -EPIPE);
      Ret(r.s.(bufs := UlUnlocked(r.s.bufs, i)), r.res)
  }

  // ---------- Runs ----------

  /** Everything that can happen to an open context, ramp tests apart. */
  datatype Input =
    | Message(m: Control)
    | DriverFailure
    | FrameNotified(hw: nat)
    | FrameWritten
    | CallChange(up: bool)
    | AppTimingRequest
    | AppReset
    | AcquireDl(header: Octets, isNull: bool)
    | ReleaseDl(i: nat)
    | AcquireUl(isNull: bool)
    | ReleaseUl(i: nat, dataType: bv8)
    | FetchEvent

  predicate Legal(input: Input) {
    match input
    case Message(m) => !m.TestRampPing?
    case FrameNotified(hw) => hw < 0x100_0000
    case ReleaseDl(i) => i < DL_SLOTS
    case ReleaseUl(i, _) => i < UL_SLOTS
    case _ => true
  }

  /** This release gives back the last buffer that a postponed reply waits for. */
  predicate LastRelease(s: State, input: Input) {
    match input
    case ReleaseDl(i) => s.bufs.respPend && i < DL_SLOTS && s.bufs.dl[i].locked && Locked(DlUnlocked(s.bufs, i)) == 0
    case ReleaseUl(i, _) => s.bufs.respPend && i < UL_SLOTS && Locked(UlUnlocked(s.bufs, i)) == 0
    case _ => false
  }

  /** This step sets up the buffers and attempts a SPEECH_CONFIG_RESP. */
  predicate RepliesNow(s: State, input: Input) {
    (input.Message? && input.m.SpeechConfigReq? && Locked(s.bufs) == 0) || LastRelease(s, input)
  }

  /** The driver finishes a frame and moves its own pointer. */
  function DriverFill(s: State): State {
    s.(block := s.block.(rxPtr := (s.block.rxPtr + 1) % s.block.boundary))
  }

  function Step(s: State, input: Input, env: Env): State
    requires Legal(input)
  {
    match input
    case Message(m) => Receive(s, m, env)
    case DriverFailure => DriverError(s, env)
    case FrameNotified(hw) => Notify(s, hw)
    case FrameWritten => DriverFill(s)
    case CallChange(up) => CallStatus(s, up, env)
    case AppTimingRequest => SendTimingRequest(s, env).s
    case AppReset => SendReset(s, env).s
    case AcquireDl(header, isNull) => DlAcquire(s, header, isNull).s
    case ReleaseDl(i) => DlRelease(s, i, env).s
    case AcquireUl(isNull) => UlAcquire(s, isNull).s
    case ReleaseUl(i, dataType) => UlRelease(s, i, dataType, env).s
    case FetchEvent => if s.events == [] then s else s.(events := s.events[1..])
  }

  /** The context right after cmtspeech_open. The frame counter is static and goes on where the last context left it. */
  predicate Opened(s: State) {
    && s.bc == Backend(false, Disconnected, InSync, None, 0, 1)
    && s.bufs == ResetBuffers(s.bufs).(rolling := false)
    && s.line == Line({}, 0)
    && s.clock == 0 && s.log == [] && s.events == [] && s.tx == []
  }

  ghost predicate Run(states: seq<State>, inputs: seq<Input>, env: Env) {
    && |states| == |inputs| + 1
    && forall i :: 0 <= i < |inputs| ==> Legal(inputs[i]) && states[i + 1] == Step(states[i], inputs[i], env)
  }
}
