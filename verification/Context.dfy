/** The library context as the object that the C code updates in place, method by method. */
module Context {
  import opened Codec
  import opened Model
  import opened Protocol

  // A message that triggers another one ranks above it.
  function Rank(msg: Control): nat {
    if msg.SpeechConfigResp? then 1 else 0
  }

  /** cmtspeech_bc_write_command for any message. */
  function Written(s: State, msg: Control, env: Env): Ret {
    if msg.SpeechConfigResp? then WriteSpeechResp(s, msg.result, env) else WritePlain(s, msg, env)
  }

  /** cmtspeech_bc_post_command for any message. */
  function Posted(s: State, msg: Control, env: Env): State {
    match msg
    case ResetConnReq => s.(bc := To(s.bc, Invalid, InSync))
    case SpeechConfigResp(result) => PostSpeechResp(s, result, env)
    case _ => s
  }

  /** The C function decodes the word that was written; cutting the fields to size makes no difference to it. */
  lemma PostedAsDecoded(s: State, msg: Control, env: Env)
    ensures Decode(Encode(msg)).Some? && Posted(s, Decode(Encode(msg)).value, env) == Posted(s, msg, env)
  {
    DecodeEncode(msg);
    hide Decode, Encode, To, SendSsi, Protocol.SendTimingRequest;
  }

  /** cmtspeech_bc_handle_command: what a known message does to the protocol state. */
  function Commanded(s: State, m: Control, env: Env): State {
    match m
    case SpeechConfigReq(stream, _, _, _, _, _) => WithPriv(s, if stream != 0 then ConfigActPend else ConfigDeactPend)
    case UplinkConfigNtf => UplinkReady(s)
    case TimingConfigNtf(_, _) => TimingReceived(s)
    case SsiConfigResp(layout, result) => SsiResponse(s, layout, result, env)
    case ResetConnReq => s.(bc := Fresh(s.bc))
    case ResetConnResp =>
      var s1 := s.(bc := Fresh(s.bc));
      if s.bc.priv == ResetBeforeConnect then SendSsi(s1, true, env).s else s1
    case _ => s
  }

  /** The switch of handle_inbound_control_message: what the data path adds. */
  function Followed(s: State, m: Control, env: Env): State {
    match m
    case SpeechConfigReq(stream, _, _, _, rate, _) => SpeechConfig(s, stream, rate, env)
    case SsiConfigResp(_, _) => SsiDataPath(s, env)
    case ResetConnReq => AfterPeerReset(WritePlain(s, ResetConnResp, env).s, env)
    case ResetConnResp => Protocol.ReleaseWakeline(s, ResetUser, env).s
    case _ => s
  }

  /** The two layers one after the other are the step that the protocol model takes for a message. */
  lemma LayersCompose(s: State, m: Control, env: Env)
    requires Known(m)
    ensures Followed(Commanded(s, m, env), m, env) == Handled(s, m, env)
  {
    hide SpeechConfig, SsiDataPath, SsiResponse, AfterPeerReset, WritePlain, Protocol.ReleaseWakeline, SendSsi,
      UplinkReady, TimingReceived;
  }

  lemma ResetTwice(b: Buffers)
    requires !b.rolling
    ensures ResetBuffers(b) == ResetBuffers(ResetBuffers(b)).(rolling := false)
  {
  }

  lemma UnknownIgnored(s: State, m: Control, env: Env)
    requires !Known(m)
    ensures Receive(s, m, env) == s
  {
    hide Handled, Enqueue;
  }

  /** The bits of *flags in cmtspeech_check_pending. */
  datatype Flags = Flags(dlData: bool, control: bool, xrun: bool)

  // CS_RX_DATA_RECEIVED and CS_ERROR of the driver's own domain, and the 24-bit parameter of a driver message.
  const CS_ERROR: bv8 := 1
  const CS_RX_DATA_RECEIVED: bv8 := 2

  function Param(cmd: Octets): (hw: nat)
    ensures hw < 0x100_0000
  {
    cmd[BYTE1] as int * 0x1_0000 + cmd[BYTE2] as int * 0x100 + cmd[BYTE3] as int
  }

  /** What one word read from the driver asks for. */
  datatype Inbound = FromModem(m: Control) | FrameReady(hw: nat) | ModemLost | Ignored(res: int)

  function Classified(cmd: Octets): (r: Inbound)
    ensures r.FromModem? ==> Known(r.m)
  {
    if MsgDomain(cmd) == DOMAIN_CONTROL then
      if Decode(cmd).Some? && Known(Decode(cmd).value) then FromModem(Decode(cmd).value) else Ignored(-1)
    else if MsgDomain(cmd) == DOMAIN_INTERNAL then
      if MsgType(cmd) == CS_RX_DATA_RECEIVED then FrameReady(Param(cmd))
      else if MsgType(cmd) == CS_ERROR then ModemLost
      else Ignored(0)
    else Ignored(-1)
  }

  /** A message that fits its fields arrives as itself, and one that the library does not answer to is refused. */
  lemma EncodedArrives(m: Control)
    requires InRange(m)
    ensures Classified(Encode(m)) == if Known(m) then FromModem(m) else Ignored(-1)
  {
    DecodeEncode(m);
    ControlDomain(m);
    hide Encode, Decode, InRange;
  }

  lemma ControlDomain(m: Control)
    ensures MsgDomain(Encode(m)) == DOMAIN_CONTROL
  {
  }

  /** A word of the driver's own domain is a notification with its 24-bit parameter, a failure, or nothing. */
  lemma DriverWordArrives(kind: bv8, b1: bv8, b2: bv8, b3: bv8)
    requires kind <= 15
    ensures Classified(Word((kind << 4) | DOMAIN_INTERNAL, b1, b2, b3)) ==
              if kind == CS_RX_DATA_RECEIVED then FrameReady(b1 as int * 0x1_0000 + b2 as int * 0x100 + b3 as int)
              else if kind == CS_ERROR then ModemLost else Ignored(0)
  {
    KindShifts(kind);
    hide Decode;
  }

  lemma KindShifts(kind: bv8)
    requires kind <= 15
    ensures ((kind << 4) | DOMAIN_INTERNAL) >> 4 == kind && ((kind << 4) | DOMAIN_INTERNAL) & 0xf == DOMAIN_INTERNAL
  {
  }

  /** The input of a run that a word stands for; None if it changes nothing. */
  function InputOf(cmd: Octets): (r: Option<Input>)
    ensures r.Some? ==> Legal(r.value)
  {
    match Classified(cmd)
    case FromModem(m) => Some(Message(m))
    case FrameReady(hw) => Some(FrameNotified(hw))
    case ModemLost => Some(DriverFailure)
    case Ignored(_) => None
  }

  /** The part of a context that faces the driver and the application. */
  datatype IoPart =
    IoPart(line: Line, block: Block, clock: nat, log: seq<Sent>, events: seq<Event>, ulCounter: bv16, tx: seq<Frame>)

  /** struct cmtspeech_nokiamodem_s with its driver and backend parts, and the driver at the other end. */
  class Modem {
    // bcstate
    var callServerActive: bool
    var protoState: Proto
    var privState: Priv
    var sampleLayout: Option<bv8>
    var ioErrors: nat
    const confProtoVersion: bv8

    // buf state
    var speechConfigRespPend: bool
    var slotSize: nat
    var confSampleRate: bv8
    var confDataLength: bv8
    var ulErrors: nat
    var rxPtrHw: int
    var rxPtrAppl: int
    var ulSlotApp: UlCursor
    const dlbufdesc: array<Desc>
    const ulbufdesc: array<Desc>

    // driver-io
    var wakelineUsers: set<User>
    var lineLevel: int
    var rollingRxPtr: bool
    var mmapCfg: Block
    const rxOffsets: DlOffsets
    var evbuf: seq<Event>

    // The static frame counter of cmtspeech_ul_buffer_release.
    var ulCounter: bv16

    // What the outside answers, and what it has seen.
    const env: Env
    var clock: nat
    var log: seq<Sent>
    var tx: seq<Frame>

    ghost predicate Valid() {
      dlbufdesc.Length == DL_SLOTS && ulbufdesc.Length == UL_SLOTS && dlbufdesc != ulbufdesc
    }

    ghost function Bc(): Backend
      reads `callServerActive, `protoState, `privState, `sampleLayout, `ioErrors
    {
      Backend(callServerActive, protoState, privState, sampleLayout, ioErrors, confProtoVersion)
    }

    ghost function DlSlots(): DlDescs
      requires Valid()
      reads dlbufdesc
    {
      dlbufdesc[..]
    }

    ghost function UlSlots(): UlDescs
      requires Valid()
      reads ulbufdesc
    {
      ulbufdesc[..]
    }

    ghost function Bufs(): Buffers
      requires Valid()
      reads `speechConfigRespPend, `slotSize, `confSampleRate, `confDataLength, `ulErrors, `rxPtrHw, `rxPtrAppl,
        `ulSlotApp, `rollingRxPtr, dlbufdesc, ulbufdesc
    {
      Buffers(speechConfigRespPend, slotSize, confSampleRate, confDataLength, ulErrors, rxPtrHw, rxPtrAppl,
              ulSlotApp, DlSlots(), UlSlots(), rollingRxPtr)
    }

    ghost function Io(): IoPart
      reads `wakelineUsers, `lineLevel, `mmapCfg, `evbuf, `ulCounter, `clock, `log, `tx
    {
      IoPart(Line(wakelineUsers, lineLevel), mmapCfg, clock, log, evbuf, ulCounter, tx)
    }

    ghost function State(): State
      requires Valid()
      reads this, dlbufdesc, ulbufdesc
    {
      Model.State(Bc(), Bufs(), Line(wakelineUsers, lineLevel), mmapCfg, rxOffsets, clock, log, evbuf, ulCounter, tx)
    }

    /** A change of the buffer state alone changes the context in that part alone. */
    twostate lemma OnlyBufs()
      requires Valid() && Bc() == old(Bc())
      requires Io() == old(Io())
      ensures State() == old(State()).(bufs := Bufs())
    {
      hide Bc, Bufs;
    }

    /** A change of the protocol state alone changes the context in that part alone. */
    twostate lemma OnlyBc()
      requires Valid() && Bufs() == old(Bufs())
      requires Io() == old(Io())
      ensures State() == old(State()).(bc := Bc())
    {
      hide Bc, Bufs;
    }

    lemma Rolling()
      requires Valid()
      ensures Bufs().rolling == rollingRxPtr
    {
    }

    lemma OpenedByParts(block: Block, counter: bv16)
      requires Valid() && Bufs() == ResetBuffers(Bufs()).(rolling := false)
      requires Bc() == Backend(false, Disconnected, InSync, None, 0, 1)
      requires Io() == IoPart(Line({}, 0), block, 0, [], [], counter, [])
      ensures Opened(State()) && State().block == block && State().ulCounter == counter
      ensures State().staleRxOffsets == rxOffsets
    {
      hide ResetBuffers, Bufs, Bc;
    }

    /** malloc and cmtspeech_bc_open: everything but the buffer state is set. */
    constructor (env: Env, rxOffsets: DlOffsets, mmapCfg: Block, ulCounter: bv16)
      ensures Valid() && fresh(dlbufdesc) && fresh(ulbufdesc)
      ensures Bc() == Backend(false, Disconnected, InSync, None, 0, 1) && !rollingRxPtr
      ensures Io() == IoPart(Line({}, 0), mmapCfg, 0, [], [], ulCounter, [])
      ensures this.env == env && this.rxOffsets == rxOffsets
    {
      this.env, this.rxOffsets, this.mmapCfg := env, rxOffsets, mmapCfg;
      callServerActive, protoState, privState, sampleLayout, ioErrors := false, Disconnected, InSync, None, 0;
      confProtoVersion := 1;
      wakelineUsers, lineLevel, rollingRxPtr, evbuf := {}, 0, false, [];
      this.ulCounter, clock, log, tx := ulCounter, 0, [], [];
      dlbufdesc := new Desc[DL_SLOTS](_ => ZERO_DESC);
      ulbufdesc := new Desc[UL_SLOTS](_ => ZERO_DESC);
    }

    /** cmtspeech_open, once the device is open and mapped. */
    static method Open(env: Env, rxOffsets: DlOffsets, mmapCfg: Block, ulCounter: bv16) returns (modem: Modem)
      ensures modem.Valid() && fresh(modem) && fresh(modem.dlbufdesc) && fresh(modem.ulbufdesc)
      ensures Opened(modem.State()) && modem.State().block == mmapCfg && modem.State().staleRxOffsets == rxOffsets
      ensures modem.State().ulCounter == ulCounter && modem.env == env
    {
      hide *;
      modem := new Modem(env, rxOffsets, mmapCfg, ulCounter);
      ghost var b := modem.Bufs();
      modem.Rolling();
      modem.ResetBufStateToDisconnected();
      ResetTwice(b);
      modem.OpenedByParts(mmapCfg, ulCounter);
    }

    // ---------- System calls ----------

    method SysWrite(msg: Control) returns (res: int)
      modifies `clock, `log
      ensures res == env.write(old(clock)) && clock == old(clock) + 1 && log == old(log) + [Sent(msg, res)]
    {
      res := env.write(clock);
      log := log + [Sent(msg, res)];
      clock := clock + 1;
    }

    /** ioctl(CS_SET_WAKELINE): the line takes the level if the driver accepts it. */
    method SysSetWakeline(level: int) returns (res: int)
      modifies `clock, `lineLevel
      ensures res == env.wake(old(clock)) && clock == old(clock) + 1
      ensures lineLevel == if res == 0 then level else old(lineLevel)
    {
      res := env.wake(clock);
      if res == 0 {
        lineLevel := level;
      }
      clock := clock + 1;
    }

    /** ioctl(CS_CONFIG_BUFS): on success the driver has filled in the configuration block. */
    method SysConfigBufs() returns (res: int)
      requires Valid()
      modifies `clock, `mmapCfg
      ensures res == env.config(old(clock))
      ensures State() == old(State()).(clock := old(clock) + 1,
                                       block := if res == 0 then env.block(old(clock)) else old(mmapCfg))
    {
      hide Bc, Bufs;
      res := env.config(clock);
      if res == 0 {
        mmapCfg := env.block(clock);
      }
      clock := clock + 1;
    }

    // ---------- Wakeline ----------

    method AcquireWakeline(user: User) returns (res: int)
      requires Valid()
      modifies `clock, `lineLevel, `wakelineUsers
      ensures Ret(State(), res) == Protocol.AcquireWakeline(old(State()), user, env)
    {
      hide Bc, Bufs;
      res := 0;
      if wakelineUsers == {} {
        res := SysSetWakeline(1);
      }
      wakelineUsers := wakelineUsers + {user};
    }

    method ReleaseWakeline(user: User) returns (res: int)
      requires Valid()
      modifies `clock, `lineLevel, `wakelineUsers
      ensures Ret(State(), res) == Protocol.ReleaseWakeline(old(State()), user, env)
    {
      hide Bc, Bufs;
      res := 0;
      if wakelineUsers != {} {
        wakelineUsers := wakelineUsers - {user};
        if wakelineUsers == {} {
          res := SysSetWakeline(0);
        }
      }
    }

    method ResetWakelineState()
      requires Valid()
      modifies `clock, `lineLevel, `wakelineUsers
      ensures State() == ResetWakeline(old(State()), env)
    {
      hide Bc, Bufs;
      var res := SysSetWakeline(0);
      wakelineUsers := {};
    }

    // ---------- Descriptors ----------

    method InitializeTxBufferDescriptors()
      requires Valid()
      modifies ulbufdesc
      ensures ulbufdesc[..] == InitDescs(old(Bufs()), mmapCfg).ul
    {
      for i := 0 to UL_SLOTS
        invariant forall k :: 0 <= k < i ==>
                    ulbufdesc[k] == InitDesc(old(ulbufdesc[k]), Mmap(mmapCfg.txOffsets[k]), slotSize, 0, k)
        invariant forall k :: i <= k < UL_SLOTS ==> ulbufdesc[k] == old(ulbufdesc[k])
      {
        ulbufdesc[i] := InitDesc(ulbufdesc[i], Mmap(mmapCfg.txOffsets[i]), slotSize, 0, i);
      }
    }

    method InitializeRxBufferDescriptors()
      requires Valid()
      modifies dlbufdesc
      ensures dlbufdesc[..] == InitDescs(old(Bufs()), mmapCfg).dl
    {
      for i := 0 to DL_SLOTS
        invariant forall k :: 0 <= k < i ==>
                    dlbufdesc[k] == InitDesc(old(dlbufdesc[k]), Mmap(mmapCfg.rxOffsets[k]), slotSize, 0, k)
        invariant forall k :: i <= k < DL_SLOTS ==> dlbufdesc[k] == old(dlbufdesc[k])
      {
        dlbufdesc[i] := InitDesc(dlbufdesc[i], Mmap(mmapCfg.rxOffsets[i]), slotSize, 0, i);
      }
    }

    method UpdateDlBufferDescriptors()
      requires Valid()
      modifies dlbufdesc
      ensures Bufs() == UpdateDlDescs(old(Bufs()), sampleLayout, rxOffsets)
    {
      for i := 0 to DL_SLOTS
        invariant forall k :: 0 <= k < i ==>
                    dlbufdesc[k] == InitDesc(old(dlbufdesc[k]), DlData(sampleLayout, rxOffsets, slotSize, k), slotSize,
                                             old(dlbufdesc[k]).frameFlags, k)
        invariant forall k :: i <= k < DL_SLOTS ==> dlbufdesc[k] == old(dlbufdesc[k])
      {
        var data := Mmap(rxOffsets[i]);
        if sampleLayout == Some(SAMPLE_LAYOUT_SWAPPED_LE) {
          data := SwapBuffer(i * slotSize);
        }
        dlbufdesc[i] := InitDesc(dlbufdesc[i], data, slotSize, dlbufdesc[i].frameFlags, i);
      }
    }

    method LockedBufdescs() returns (locked: nat)
      requires Valid()
      ensures locked == Locked(Bufs())
    {
      locked := 0;
      for i := 0 to UL_SLOTS
        invariant locked == (if i > 0 then Flag(ulbufdesc[0].locked) else 0)
                          + (if i > 1 then Flag(ulbufdesc[1].locked) else 0)
      {
        if ulbufdesc[i].locked { locked := locked + 1; }
      }
      ghost var ul := locked;
      for i := 0 to DL_SLOTS
        invariant locked == ul + (if i > 0 then Flag(dlbufdesc[0].locked) else 0)
                               + (if i > 1 then Flag(dlbufdesc[1].locked) else 0)
                               + (if i > 2 then Flag(dlbufdesc[2].locked) else 0)
      {
        if dlbufdesc[i].locked { locked := locked + 1; }
      }
    }

    method InvalidateBufferSlots()
      requires Valid()
      modifies dlbufdesc, ulbufdesc
      ensures Bufs() == Invalidate(old(Bufs()))
    {
      for i := 0 to UL_SLOTS
        invariant forall k :: 0 <= k < i ==> ulbufdesc[k] == old(ulbufdesc[k]).(invalid := true)
        invariant forall k :: i <= k < UL_SLOTS ==> ulbufdesc[k] == old(ulbufdesc[k])
        invariant dlbufdesc[..] == old(dlbufdesc[..])
      {
        ulbufdesc[i] := ulbufdesc[i].(invalid := true);
      }
      for i := 0 to DL_SLOTS
        invariant forall k :: 0 <= k < i ==> dlbufdesc[k] == old(dlbufdesc[..])[k].(invalid := true)
        invariant forall k :: i <= k < DL_SLOTS ==> dlbufdesc[k] == old(dlbufdesc[..])[k]
        invariant forall k :: 0 <= k < UL_SLOTS ==> ulbufdesc[k] == old(ulbufdesc[k]).(invalid := true)
      {
        dlbufdesc[i] := dlbufdesc[i].(invalid := true);
      }
    }

    /** The descriptor part of priv_reset_buf_state_to_disconnected. */
    method ClearBufferSlots()
      requires Valid()
      modifies dlbufdesc, ulbufdesc
      ensures DlSlots() == ResetBuffers(old(Bufs())).dl && UlSlots() == ResetBuffers(old(Bufs())).ul
    {
      dlbufdesc[0], dlbufdesc[1], dlbufdesc[2] := ZERO_DESC, ZERO_DESC, ZERO_DESC;
      ulbufdesc[0], ulbufdesc[1] := ZERO_DESC, ZERO_DESC;
      InvalidateBufferSlots();
    }

    method ResetBufStateToDisconnected()
      requires Valid()
      modifies `slotSize, `confSampleRate, `confDataLength, `speechConfigRespPend, `ulErrors, `rxPtrHw, `rxPtrAppl,
        `ulSlotApp, dlbufdesc, ulbufdesc
      ensures Bufs() == ResetBuffers(old(Bufs()))
    {
      hide DlSlots, UlSlots;
      slotSize := 0;
      confSampleRate := 0xff;
      confDataLength := 0xff;
      speechConfigRespPend := false;
      ulErrors := 0;
      rxPtrHw := -1;
      rxPtrAppl := -1;
      ulSlotApp := -1;
      ClearBufferSlots();
    }

    // ---------- Driver configuration ----------

    method ConfigureDriver() returns (res: int)
      requires Valid()
      modifies `rollingRxPtr, `mmapCfg, `clock, dlbufdesc, ulbufdesc
      ensures Ret(State(), res) == Protocol.ConfigureDriver(old(State()), env)
    {
      var ifVersion := env.ifVersion(clock);
      res := SysConfigBufs();
      if res == 0 {
        if ifVersion > 0 {
          rollingRxPtr := true;
        }
        if slotSize > 0 {
          InitializeRxBufferDescriptors();
          InitializeTxBufferDescriptors();
        }
      }
    }

    /** The part of priv_setup_driver_bufconfig for a stream that goes on with a new layout. */
    method RestartBufState()
      requires Valid()
      modifies `ulErrors, `rxPtrHw, `rxPtrAppl, `ulSlotApp
      ensures Bufs() == old(Bufs()).(ulErrors := 0, rxHw := -1, rxAppl := -1, ulSlot := 0)
    {
      hide DlSlots, UlSlots;
      ulErrors := 0;
      rxPtrHw := -1;
      rxPtrAppl := -1;
      ulSlotApp := 0;
    }

    method SetupDriverBufconfig() returns (res: int)
      requires Valid()
      modifies `slotSize, `confSampleRate, `confDataLength, `speechConfigRespPend, `ulErrors, `rxPtrHw, `rxPtrAppl,
        `ulSlotApp, `rollingRxPtr, `mmapCfg, `clock, dlbufdesc, ulbufdesc
      ensures Ret(State(), res) == SetupConfig(old(State()), env)
    {
      hide Protocol.ConfigureDriver, ResetBuffers;
      if slotSize == 0 {
        ResetBufStateToDisconnected();
      } else {
        RestartBufState();
      }
      OnlyBufs();
      hide State;
      res := ConfigureDriver();
    }

    // ---------- Sending ----------

    method PrivStateChangeTo(proto: Option<Proto>, priv: Priv)
      requires Valid()
      modifies `protoState, `privState
      ensures Bc() == To(old(Bc()), if proto.Some? then proto.value else old(protoState), priv)
      ensures State() == old(State()).(bc := Bc())
    {
      hide Bufs, State, Io;
      if proto.Some? {
        protoState := proto.value;
      }
      privState := priv;
      OnlyBc();
    }

    method PrivResetStateToDisconnected()
      requires Valid()
      modifies `callServerActive, `sampleLayout, `protoState, `privState, `ioErrors
      ensures Bc() == Fresh(old(Bc()))
    {
      hide State;
      callServerActive := false;
      sampleLayout := None;
      ioErrors := 0;
      PrivStateChangeTo(Some(Disconnected), InSync);
    }

    // cmtspeech_bc_write_command and cmtspeech_bc_post_command call each other; only a speech reply triggers more.
    method WriteCommand(msg: Control) returns (res: int)
      requires Valid()
      modifies `clock, `log, `ioErrors, `protoState, `privState, `lineLevel, `wakelineUsers
      ensures Ret(State(), res) == Written(old(State()), msg, env)
      decreases Rank(msg), 1
    {
      hide PostSpeechResp, Bufs;
      res := SysWrite(msg);
      if res == CTRL_LEN {
        PostCommand(msg);
        ioErrors := 0;
      } else {
        ioErrors := ioErrors + 1;
      }
    }

    method PostCommand(msg: Control)
      requires Valid()
      modifies `clock, `log, `ioErrors, `protoState, `privState, `lineLevel, `wakelineUsers
      ensures State() == Posted(old(State()), msg, env)
      decreases Rank(msg), 0
    {
      hide SendSsi, Protocol.SendTimingRequest, Bufs;
      match msg {
        case ResetConnReq =>
          PrivStateChangeTo(Some(Invalid), InSync);
        case SpeechConfigResp(result) =>
          if result & 0x1 != 0 {
            PrivStateChangeTo(None, InSync);
          } else if protoState == Connected {
            if privState == ConfigActPend {
              PrivStateChangeTo(Some(ActiveDl), InSync);
              var r := SendTimingRequest();
            }
          } else if protoState == ActiveDl || protoState == ActiveDlul {
            if privState == ConfigActPend {
              if protoState == ActiveDlul {
                PrivStateChangeTo(Some(ActiveDl), InSync);
              }
            } else if privState == ConfigDeactPend {
              PrivStateChangeTo(Some(Connected), InSync);
              if !callServerActive {
                var r := SendSsiConfigRequest(false);
              }
            }
          }
        case _ =>
      }
    }

    method SendTimingRequest() returns (res: int)
      requires Valid()
      modifies `clock, `log, `ioErrors, `protoState, `privState, `lineLevel, `wakelineUsers
      ensures Ret(State(), res) == Protocol.SendTimingRequest(old(State()), env)
      decreases 0, 2
    {
      hide WriteSpeechResp, Bufs;
      res := WriteCommand(NewTimingConfigReq);
      if res != CTRL_LEN {
        return -1;
      }
      PrivStateChangeTo(None, Timing);
      return 0;
    }

    /** cmtspeech_send_ssi_config_request with the backend function that it calls. */
    method SendSsiConfigRequest(up: bool) returns (res: int)
      requires Valid()
      modifies `clock, `log, `ioErrors, `protoState, `privState, `lineLevel, `wakelineUsers
      ensures Ret(State(), res) == SendSsi(old(State()), up, env)
      decreases 0, 2
    {
      hide Protocol.AcquireWakeline, WriteSpeechResp, Bufs;
      if up {
        var r := AcquireWakeline(CallUser);
        PrivStateChangeTo(None, Connecting);
      } else {
        if privState == Disconnecting {
          return -1;
        }
        PrivStateChangeTo(None, Disconnecting);
      }
      res := WriteCommand(SsiConfigReq(SAMPLE_LAYOUT_INORDER_LE, confProtoVersion, if up then 1 else 0));
      if res != CTRL_LEN {
        PrivStateChangeTo(None, InSync);
        return -1;
      }
      return 0;
    }

    // ---------- Reset ----------

    /** priv_send_reset, also exported as cmtspeech_state_change_error. */
    method SendReset() returns (res: int)
      requires Valid()
      modifies this, dlbufdesc, ulbufdesc
      ensures Ret(State(), res) == Protocol.SendReset(old(State()), env)
    {
      hide Protocol.AcquireWakeline, Protocol.ReleaseWakeline, WriteSpeechResp, WritePlain, SetupConfig, Bc;
      res := AcquireWakeline(ResetUser);
      if res == 0 {
        res := WriteCommand(ResetConnReq);
        if res < 0 {
          res := ReleaseWakeline(ResetUser);
        }
      }
      slotSize := 0;
      var r := SetupDriverBufconfig();
    }

    /** cmtspeech_bc_state_change_reset. */
    method StateChangeReset()
      requires Valid()
      modifies `callServerActive, `sampleLayout, `protoState, `privState, `ioErrors
      ensures State() == old(State()).(bc := Fresh(old(Bc())))
    {
      hide Fresh, Bc, Bufs, Io;
      PrivResetStateToDisconnected();
      OnlyBc();
      hide State;
    }

    method InitializeAfterPeerReset()
      requires Valid()
      modifies this, dlbufdesc, ulbufdesc
      ensures State() == AfterPeerReset(old(State()), env)
    {
      hide SetupConfig, ResetWakeline, Bc, Fresh;
      slotSize := 0;
      var r := SetupDriverBufconfig();
      StateChangeReset();
      ResetWakelineState();
    }

    method HandleResetConnReq() returns (res: int)
      requires Valid()
      modifies this, dlbufdesc, ulbufdesc
      ensures State() == AfterPeerReset(WritePlain(old(State()), ResetConnResp, env).s, env)
      ensures res == if WritePlain(old(State()), ResetConnResp, env).res == CTRL_LEN then 0 else -1
    {
      hide WriteSpeechResp, WritePlain, AfterPeerReset;
      res := WriteCommand(ResetConnResp);
      res := if res == CTRL_LEN then 0 else -1;
      InitializeAfterPeerReset();
    }

    // ---------- Call status ----------

    /** cmtspeech_bc_state_change_call_status. */
    method StateChangeCallStatus(serverState: bool)
      requires Valid()
      modifies this, dlbufdesc, ulbufdesc
      ensures State() == CallStatus(old(State()), serverState, env)
    {
      if serverState {
        CallServerUp();
      } else {
        CallServerDown();
      }
      hide CallUp, CallDown, Bufs;
      callServerActive := serverState;
    }

    method CallServerDown()
      requires Valid()
      modifies this
      ensures State() == CallDown(old(State()), env)
    {
      hide SendSsi, Bufs;
      if privState == ConfigDeactPend {
        ioErrors := ioErrors + 1;
      } else if protoState == Connected {
        var r := SendSsiConfigRequest(false);
      } else if privState == Connecting {
        PrivStateChangeTo(None, SsiConfigPend);
      }
    }

    method CallServerUp()
      requires Valid()
      modifies this, dlbufdesc, ulbufdesc
      ensures State() == CallUp(old(State()), env)
    {
      hide SendSsi, Protocol.SendReset, Bufs;
      if protoState == Disconnected {
        var r := SendSsiConfigRequest(true);
      } else if protoState == Connected && privState == Disconnecting {
        PrivStateChangeTo(None, SsiConfigPend);
      } else if protoState == Invalid || protoState == TestRampPingActive {
        var r := SendReset();
        PrivStateChangeTo(None, ResetBeforeConnect);
      } else if protoState == ActiveDl || protoState == ActiveDlul {
        if !callServerActive && ioErrors > 0 {
          PrivResetStateToDisconnected();
          OnlyBc();
          var r := SendSsiConfigRequest(true);
        }
      }
    }

    // ---------- Speech configuration ----------

    method SetupAndSendSpeechConfigReply() returns (res: int)
      requires Valid()
      modifies this, dlbufdesc, ulbufdesc
      ensures Ret(State(), res) == SetupAndReply(old(State()), env)
    {
      hide SetupConfig, WriteSpeechResp, Invalidate, Protocol.SendReset;
      speechConfigRespPend := false;
      var setupRes := SetupDriverBufconfig();
      res := WriteCommand(SpeechConfigResp(if setupRes == 0 then 0 else 1));
      res := if res == CTRL_LEN then 0 else -1;
      if setupRes != 0 {
        label Failed:
        InvalidateBufferSlots();
        OnlyBufs@Failed();
        var r := SendReset();
      }
    }

    method HandleSpeechConfig(stream: bv8, rate: bv8)
      requires Valid()
      modifies this, dlbufdesc, ulbufdesc
      ensures State() == SpeechConfig(old(State()), stream, rate, env)
    {
      hide Locked, SetupAndReply, Invalidate, Bc;
      SetFrameFormat(stream, rate);
      var locked := LockedBufdescs();
      if locked == 0 {
        var r := SetupAndSendSpeechConfigReply();
      } else {
        speechConfigRespPend := true;
        InvalidateBufferSlots();
      }
    }

    /** The first half of priv_handle_speech_config: the size of a frame follows from the request. */
    method SetFrameFormat(stream: bv8, rate: bv8)
      requires Valid()
      modifies `confSampleRate, `confDataLength, `slotSize
      ensures Bufs() == Reconfigured(old(Bufs()), stream, rate)
    {
      if stream != 0 {
        confSampleRate := rate;
        confDataLength := DATA_LENGTH_20MS;
        var frameSize := -1;
        if rate == SAMPLE_RATE_8KHZ {
          frameSize := 160 * PCM_SAMPLE_SIZE;
        } else if rate == SAMPLE_RATE_16KHZ {
          frameSize := 320 * PCM_SAMPLE_SIZE;
        } else {
          slotSize := 0;
        }
        if frameSize > 0 {
          slotSize := frameSize + DATA_HEADER_LEN;
        }
      } else {
        slotSize := 0;
      }
    }

    /** priv_drvbuf_layout_change_buffer_released, after the lock flag was cleared. */
    method LayoutChangeBufferReleased()
      requires Valid()
      modifies this, dlbufdesc, ulbufdesc
      ensures State() == ReleasedDuringChange(old(State()), env)
    {
      hide Locked, SetupAndReply, Invalidate, Bufs, Bc;
      var locked := LockedBufdescs();
      if locked == 0 {
        var res := SetupAndSendSpeechConfigReply();
        if res != 0 {
          label Failed:
          InvalidateBufferSlots();
          OnlyBufs@Failed();
        }
      }
    }

    // ---------- Inbound messages ----------

    /** priv_handle_ssi_config_resp. */
    method HandleSsiConfigResp()
      requires Valid()
      modifies `clock, `lineLevel, `wakelineUsers, dlbufdesc
      ensures State() == SsiDataPath(old(State()), env)
    {
      hide Protocol.ReleaseWakeline, UpdateDlDescs;
      if protoState == Disconnected && privState != Connecting {
        var r := ReleaseWakeline(CallUser);
      } else if slotSize > 0 {
        UpdateDlBufferDescriptors();
        OnlyBufs();
      }
    }

    method SsiConfigResponse(layout: bv8, result: bv8)
      requires Valid()
      modifies this, dlbufdesc, ulbufdesc
      ensures State() == SsiResponse(old(State()), layout, result, env)
    {
      hide SendSsi, Protocol.SendReset, Bufs;
      if result == SSI_CONFIG_RES_SUCCESS {
        if privState == Connecting {
          PrivStateChangeTo(Some(Connected), InSync);
          sampleLayout := Some(layout);
          if layout == SAMPLE_LAYOUT_NO_PREF {
            sampleLayout := Some(SAMPLE_LAYOUT_SWAPPED_LE);
          }
        } else if privState == Disconnecting {
          StateChangeReset();
        } else if privState == SsiConfigPend {
          if callServerActive {
            var r := SendSsiConfigRequest(true);
            PrivStateChangeTo(Some(Disconnected), Connecting);
          } else {
            var r := SendSsiConfigRequest(false);
            PrivStateChangeTo(Some(Connected), Disconnecting);
          }
        }
      } else {
        if privState == Connecting || privState == Disconnecting {
          PrivStateChangeTo(None, InSync);
        }
        var r := SendReset();
      }
    }

    method HandleCommand(m: Control) returns (res: int, kind: EventKind, prev: Proto)
      requires Valid()
      modifies this, dlbufdesc, ulbufdesc
      ensures State() == Commanded(old(State()), m, env)
      ensures res == (if Known(m) || m.TestRampPing? then 0 else -1) && kind == KindOf(m) && prev == old(protoState)
    {
      hide SendSsi, SsiResponse, Bufs;
      res, kind, prev := 0, KindOf(m), protoState;
      match m {
        case SpeechConfigReq(stream, _, _, _, _, _) =>
          PrivStateChangeTo(None, if stream != 0 then ConfigActPend else ConfigDeactPend);
        case UplinkConfigNtf =>
          if protoState == ActiveDl {
            PrivStateChangeTo(Some(ActiveDlul), InSync);
          }
        case TimingConfigNtf(_, _) =>
          if protoState == ActiveDl {
            PrivStateChangeTo(Some(ActiveDlul), InSync);
          }
          if privState == Timing {
            PrivStateChangeTo(None, InSync);
          }
        case SsiConfigResp(layout, result) =>
          SsiConfigResponse(layout, result);
        case ResetConnReq =>
          StateChangeReset();
        case ResetConnResp =>
          var cached := privState;
          StateChangeReset();
          if cached == ResetBeforeConnect {
            var r := SendSsiConfigRequest(true);
          }
        case TestRampPing(_, _, _) =>
        case _ =>
          res := -1;
      }
    }

    /** priv_queue_control_event, on the queue of events that the ring of octets holds. */
    method QueueControlEvent(event: Event) returns (res: int)
      requires Valid()
      modifies `evbuf
      ensures State() == Enqueue(old(State()), event)
      ensures res == if |old(evbuf)| < EVENT_BUFFER_SIZE - 1 then 0 else -1
    {
      hide Bc, Bufs;
      res := 0;
      if |evbuf| >= EVENT_BUFFER_SIZE - 1 {
        evbuf := evbuf[1..];
        res := -1;
      }
      evbuf := evbuf + [event];
    }

    method HandleInboundMessage(m: Control) returns (res: int)
      requires Valid() && Known(m)
      modifies this, dlbufdesc, ulbufdesc
      ensures State() == Receive(old(State()), m, env)
      ensures res == 1
    {
      hide Commanded, SpeechConfig, SsiDataPath, AfterPeerReset, WritePlain, Protocol.ReleaseWakeline, Handled, Bufs,
        KindOf, Enqueue;
      LayersCompose(State(), m, env);
      var r, kind, prev := HandleCommand(m);
      match m {
        case ResetConnReq => r := HandleResetConnReq();
        case ResetConnResp => r := ReleaseWakeline(ResetUser);
        case SsiConfigResp(_, _) => HandleSsiConfigResp();
        case SpeechConfigReq(stream, _, _, _, rate, _) => HandleSpeechConfig(stream, rate);
        case _ =>
      }
      r := QueueControlEvent(Event(kind, prev, protoState, m.SpeechConfigReq?));
      res := 1;
    }

    method HandleDriverError()
      requires Valid()
      modifies this, dlbufdesc, ulbufdesc
      ensures State() == DriverError(old(State()), env)
    {
      hide AfterPeerReset, Enqueue, Bufs;
      var prev := protoState;
      InitializeAfterPeerReset();
      var r := QueueControlEvent(Event(ResetEvent(false), prev, protoState, false));
    }

    // ---------- Downlink ----------

    method RxHwDelay() returns (delay: nat)
      requires Valid()
      ensures delay == RxDelay(State())
    {
      delay := ((mmapCfg.boundary + mmapCfg.rxPtr - rxPtrAppl) % 0x1_0000_0000) % mmapCfg.boundary;
    }

    method RxPtrAvail() returns (avail: nat)
      requires Valid()
      ensures avail == RxAvail(State())
    {
      avail := ((mmapCfg.boundary + rxPtrHw - rxPtrAppl) % 0x1_0000_0000) % mmapCfg.boundary;
    }

    method FlagXrun(slot: nat)
      requires Valid() && slot < DL_SLOTS
      modifies dlbufdesc
      ensures DlSlots() == MarkXrun(old(DlSlots()), slot, true)
    {
      dlbufdesc[slot] := dlbufdesc[slot].(xrun := true);
    }

    /** The overrun checks of handle_inbound_rx_data_received. */
    method CheckOverrun() returns (xrun: bool)
      requires Valid() && rxPtrHw >= 0
      modifies dlbufdesc
      ensures DlSlots() == Marked(old(DlSlots()), rxPtrHw % DL_SLOTS, Overrun(old(State())))
      ensures xrun == (Overrun(old(State())) || old(DlSlots())[(rxPtrHw % DL_SLOTS + 1) % DL_SLOTS].locked
                       || old(DlSlots())[rxPtrHw % DL_SLOTS].locked)
    {
      hide RxDelay;
      var lastSlot := rxPtrHw % DL_SLOTS;
      var nextSlot := (lastSlot + 1) % DL_SLOTS;
      xrun := false;
      var delay := RxHwDelay();
      if rollingRxPtr && delay >= DL_SLOTS {
        FlagXrun(lastSlot);
        xrun := true;
      }
      if dlbufdesc[nextSlot].locked {
        FlagXrun(nextSlot);
        xrun := true;
      }
      if dlbufdesc[lastSlot].locked {
        FlagXrun(lastSlot);
        xrun := true;
      }
    }

    method MoveRxPtrs(hw: nat)
      requires Valid()
      modifies `rxPtrHw, `rxPtrAppl
      ensures State() == NotifySlots(old(State()), hw)
    {
      hide Bc, DlSlots, UlSlots;
      rxPtrHw := hw;
      if rxPtrAppl < 0 {
        rxPtrAppl := rxPtrHw;
      }
    }

    method HandleRxDataReceived(hw: nat) returns (xrun: bool)
      requires Valid()
      modifies `rxPtrHw, `rxPtrAppl, `ulErrors, dlbufdesc
      ensures State() == Notify(old(State()), hw)
      ensures xrun == NotifyXrun(old(State()), hw)
    {
      hide Marked, Overrun, DlSlots, UlSlots, Bc;
      MoveRxPtrs(hw);
      xrun := CheckOverrun();
      if ulErrors > 0 {
        ulErrors := 0;
      }
    }

    /** priv_rx_appl_slot. */
    method RxApplSlot() returns (slot: int)
      requires Valid()
      ensures slot == ApplSlot(State())
    {
      hide RxDelay, RxAvail;
      if rollingRxPtr {
        var avail := RxPtrAvail();
        var delay := RxHwDelay();
        if avail == mmapCfg.boundary - 1 {
          return -ENODATA;
        } else if delay >= DL_SLOTS {
          return -EPIPE;
        }
      }
      return rxPtrAppl % DL_SLOTS;
    }

    method BumpRxPtrAppl()
      requires Valid()
      modifies `rxPtrAppl
      ensures State() == Bump(old(State()))
    {
      hide Bc, DlSlots, UlSlots;
      rxPtrAppl := rxPtrAppl + 1;
      if rollingRxPtr {
        rxPtrAppl := rxPtrAppl % mmapCfg.boundary;
      } else {
        rxPtrAppl := rxPtrAppl % DL_SLOTS;
      }
    }

    /** cmtspeech_dl_buffer_acquire; header is what the driver left in front of the slot's payload. */
    method DlBufferAcquire(header: Octets, isNull: bool) returns (res: int)
      requires Valid()
      modifies `rxPtrAppl, `protoState, `privState, dlbufdesc
      ensures Ret(State(), res) == DlAcquire(old(State()), header, isNull)
    {
      hide Overrun, RxAvail, Bump, DlLock, UlSlots;
      if rxPtrAppl < 0 {
        return -EINVAL;
      }
      var slot := RxApplSlot();
      if slot == -EPIPE {
        rxPtrAppl := rxPtrHw;
        slot := rxPtrAppl % DL_SLOTS;
      } else if slot < 0 {
        return slot;
      }
      BumpRxPtrAppl();
      if dlbufdesc[slot].invalid || isNull {
        return -EINVAL;
      }
      dlbufdesc[slot] := DlLock(dlbufdesc[slot], header);
      if protoState == TestRampPingActive {
        PrivStateChangeTo(Some(Disconnected), InSync);
      }
      return 0;
    }

    method DlBufferRelease(index: nat) returns (res: int)
      requires Valid() && index < DL_SLOTS
      modifies this, dlbufdesc, ulbufdesc
      ensures Ret(State(), res) == DlRelease(old(State()), index, env)
    {
      hide ReleasedDuringChange, UlSlots, Bc;
      if !dlbufdesc[index].locked {
        return -ENOENT;
      }
      dlbufdesc[index] := dlbufdesc[index].(locked := false);
      res := 0;
      if speechConfigRespPend {
        LayoutChangeBufferReleased();
      } else if dlbufdesc[index].xrun {
        dlbufdesc[index] := dlbufdesc[index].(xrun := false);
        res := -EPIPE;
      }
    }

    // ---------- Uplink ----------

    method UlBufferAcquire(isNull: bool) returns (res: int)
      requires Valid()
      modifies `ulSlotApp, ulbufdesc
      ensures Ret(State(), res) == UlAcquire(old(State()), isNull)
    {
      hide DlSlots;
      if protoState != ActiveDl && protoState != ActiveDlul {
        return -EINVAL;
      }
      if ulSlotApp < 0 {
        return -EINVAL;
      }
      var slot := ulSlotApp;
      if ulbufdesc[slot].invalid {
        return -EINVAL;
      }
      if ulbufdesc[slot].locked {
        return -ENOBUFS;
      }
      if isNull {
        return -EINVAL;
      }
      ulbufdesc[slot] := ulbufdesc[slot].(frameFlags := 0, locked := true);
      ulSlotApp := (ulSlotApp + 1) % UL_SLOTS;
      return 0;
    }

    /** priv_write_data of CS_TX_DATA_READY for a slot whose header is in place. */
    method SysWriteData(slot: int, header: Octets) returns (res: int, busy: bool)
      requires Valid()
      modifies `clock, `tx
      ensures res == env.data(old(clock)) && busy == env.busy(old(clock))
      ensures State() == old(State()).(clock := old(clock) + 1, tx := old(tx) + [Frame(slot, header, res == CTRL_LEN)])
    {
      hide Bc, Bufs;
      res, busy := env.data(clock), env.busy(clock);
      tx := tx + [Frame(slot, header, res == CTRL_LEN)];
      clock := clock + 1;
    }

    /** The header octets of the next uplink frame. */
    method FrameHeader(dataType: bv8) returns (header: Octets)
      ensures header == UlHeader(ulCounter, confDataLength, confSampleRate, dataType)
    {
      hide UlHeader;
      var data := new bv8[DATA_HEADER_LEN];
      var res := EncodeUlHeader(data, DATA_HEADER_LEN, ulCounter, confDataLength, confSampleRate, dataType);
      header := data[..4];
    }

    /** The branch of cmtspeech_ul_buffer_release that sends the frame. */
    method SendUlFrame(slot: nat, dataType: bv8) returns (res: int)
      requires Valid()
      modifies `clock, `tx, `ulErrors, `ulCounter
      ensures Ret(State(), res) == UlSend(old(State()), slot, dataType, env)
    {
      hide Bc, DlSlots, UlSlots, UlHeader;
      var header := FrameHeader(dataType);
      var busy;
      res, busy := SysWriteData(slot, header);
      if res == CTRL_LEN {
        ulCounter := ulCounter + 4;
        res := 0;
      } else if res < 0 && busy {
        res := -EBUSY;
        ulErrors := ulErrors + 1;
      } else {
        res := -EINVAL;
        ulErrors := MAX_UL_ERRORS_PAUSE;
      }
    }

    /** cmtspeech_ul_buffer_release; None is a null pointer. */
    method UlBufferRelease(buf: Option<nat>, dataType: bv8) returns (res: int)
      requires Valid() && (buf.Some? ==> buf.value < UL_SLOTS)
      modifies this, dlbufdesc, ulbufdesc
      ensures buf.None? ==> Ret(State(), res) == Ret(old(State()), -EINVAL)
      ensures buf.Some? ==> Ret(State(), res) == UlRelease(old(State()), buf.value, dataType, env)
    {
      hide ReleasedDuringChange, UlSend, DlSlots;
      if buf.None? {
        return -EINVAL;
      }
      var index := buf.value;
      if speechConfigRespPend {
        ulbufdesc[index] := ulbufdesc[index].(locked := false);
        LayoutChangeBufferReleased();
        return 0;
      }
      if ulErrors >= MAX_UL_ERRORS_PAUSE {
        res := if ioErrors > 0 then -EIO else -EBUSY;
      } else if protoState == ActiveDlul {
        res := SendUlFrame(index, dataType);
      } else {
        res := -EPIPE;
      }
      ulbufdesc[index] := ulbufdesc[index].(locked := false);
    }

    // ---------- Entry points ----------

    /** cmtspeech_check_pending on the word that read() returned; None is a null pointer for the flags. */
    method CheckPending(readRes: int, cmd: Octets, wantFlags: bool) returns (res: int, flags: Flags)
      requires Valid()
      requires Decode(cmd).Some? ==> !Decode(cmd).value.TestRampPing?
      modifies this, dlbufdesc, ulbufdesc
      ensures wantFlags && readRes >= CTRL_LEN && InputOf(cmd).Some? ==>
                State() == Step(old(State()), InputOf(cmd).value, env) && res == 1
      ensures wantFlags && readRes >= CTRL_LEN && InputOf(cmd).Some? ==>
                match InputOf(cmd).value
                case FrameNotified(hw) => flags == Flags(true, false, NotifyXrun(old(State()), hw))
                case _ => flags == Flags(false, true, false)
      ensures !(wantFlags && readRes >= CTRL_LEN && InputOf(cmd).Some?) ==>
                State() == old(State()) && flags == Flags(false, false, false)
      ensures !wantFlags ==> res == -1
      ensures wantFlags && readRes < CTRL_LEN ==> res == 0
      ensures wantFlags && readRes >= CTRL_LEN && Classified(cmd).Ignored? ==> res == Classified(cmd).res
    {
      hide Classified, Receive, Notify, NotifyXrun, DriverError, Bufs;
      flags := Flags(false, false, false);
      res := 0;
      if !wantFlags {
        return -1, flags;
      }
      if readRes >= CTRL_LEN {
        match Classified(cmd) {
          case FromModem(m) =>
            res := HandleInboundMessage(m);
            flags := flags.(control := true);
          case FrameReady(hw) =>
            var xrun := HandleRxDataReceived(hw);
            flags := flags.(dlData := true, xrun := xrun);
            res := 1;
          case ModemLost =>
            HandleDriverError();
            flags := flags.(control := true);
            res := 1;
          case Ignored(r) =>
            res := r;
        }
      }
    }

    /** cmtspeech_read_event. */
    method ReadEvent() returns (event: Option<Event>)
      requires Valid()
      modifies `evbuf
      ensures State() == Step(old(State()), FetchEvent, env)
      ensures event == if old(evbuf) == [] then None else Some(old(evbuf)[0])
    {
      hide Bc, Bufs;
      event := None;
      if evbuf != [] {
        event := Some(evbuf[0]);
        evbuf := evbuf[1..];
      }
    }

    // ---------- Runs ----------

    /** One thing that happens to an open context: a call of the application, or a word or a frame from the driver. */
    method Perform(input: Input)
      requires Valid() && Legal(input)
      modifies this, dlbufdesc, ulbufdesc
      ensures State() == Step(old(State()), input, env)
    {
      hide Receive, Notify, DriverError, CallStatus, Protocol.SendTimingRequest, Protocol.SendReset, DlAcquire, DlRelease,
        UlAcquire, UlRelease, Bufs, Bc;
      var r;
      match input {
        case Message(m) =>
          if Known(m) {
            r := HandleInboundMessage(m);
          } else {
            UnknownIgnored(State(), m, env);
          }
        case DriverFailure => HandleDriverError();
        case FrameNotified(hw) => var xrun := HandleRxDataReceived(hw);
        case FrameWritten => mmapCfg := mmapCfg.(rxPtr := (mmapCfg.rxPtr + 1) % mmapCfg.boundary);
        case CallChange(up) => StateChangeCallStatus(up);
        case AppTimingRequest => r := SendTimingRequest();
        case AppReset => r := SendReset();
        case AcquireDl(header, isNull) => r := DlBufferAcquire(header, isNull);
        case ReleaseDl(i) => r := DlBufferRelease(i);
        case AcquireUl(isNull) => r := UlBufferAcquire(isNull);
        case ReleaseUl(i, dataType) => r := UlBufferRelease(Some(i), dataType);
        case FetchEvent => var event := ReadEvent();
      }
    }

    /** Whatever happens to the object, its states form a run of the protocol model. */
    method PerformAll(inputs: seq<Input>) returns (ghost states: seq<State>)
      requires Valid() && forall i :: 0 <= i < |inputs| ==> Legal(inputs[i])
      modifies this, dlbufdesc, ulbufdesc
      ensures Run(states, inputs, env)
      ensures states[0] == old(State()) && states[|inputs|] == State()
    {
      hide Step, State;
      states := [State()];
      for k := 0 to |inputs|
        invariant Run(states, inputs[..k], env)
        invariant states[0] == old(State()) && states[k] == State()
      {
        Perform(inputs[k]);
        states := states + [State()];
      }
      assert inputs[..|inputs|] == inputs;
    }
  }
}
