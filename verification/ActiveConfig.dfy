/** While a stream runs, the buffer descriptors match the negotiated sample rate. */
module ActiveConfig {
  import opened Codec
  import opened Model
  import opened Protocol
  import opened StateInvariant
  import opened Wakeline
  import opened Ordering
  import opened Handover
  import opened Owed

  ghost predicate Working(env: Env) {
    Healthy(env) && forall t: nat :: env.config(t) == 0
  }

  /** 20 ms of 16-bit samples behind a four-octet header. */
  predicate RateMatches(b: Buffers) {
    (b.rate == SAMPLE_RATE_8KHZ && b.slotSize == 324) || (b.rate == SAMPLE_RATE_16KHZ && b.slotSize == 644)
  }

  predicate Fits(d: Desc, slotSize: nat) {
    !d.invalid && d.count == slotSize && d.size == slotSize && d.pcount == slotSize - DATA_HEADER_LEN &&
    d.payload == AddrPlus(d.data, DATA_HEADER_LEN)
  }

  predicate AllFit(b: Buffers) {
    && Fits(b.dl[0], b.slotSize) && Fits(b.dl[1], b.slotSize) && Fits(b.dl[2], b.slotSize)
    && Fits(b.ul[0], b.slotSize) && Fits(b.ul[1], b.slotSize)
  }

  predicate Configured(b: Buffers) {
    RateMatches(b) && AllFit(b)
  }

  /** A postponed reply that will start or restart a stream has a supported format to start it with. */
  predicate StreamReady(s: State) {
    if s.bufs.respPend then
      && (s.bc.priv.ConfigActPend? && s.bc.proto.Connected? ==> RateMatches(s.bufs))
      && (IsActive(s.bc) ==> RateMatches(s.bufs) || (s.bufs.slotSize == 0 && s.bc.priv.ConfigDeactPend?))
    else
      IsActive(s.bc) ==> Configured(s.bufs)
  }

  predicate Supported(rate: bv8) {
    rate == SAMPLE_RATE_8KHZ || rate == SAMPLE_RATE_16KHZ
  }

  /** A stop of the active stream, or a request for an unsupported one, is waiting for buffers. */
  predicate Unformatted(b: Buffers) {
    b.respPend && b.slotSize == 0
  }

  /** A stream on an open link has a supported rate, and nothing overwrites a stop that waits for buffers. */
  predicate Expected(s: State, input: Input) {
    match input
    case Message(SpeechConfigReq(stream, _, _, _, rate, _)) => stream == 0 || Supported(rate) || !SsiEnabled(s.bc)
    case Message(UplinkConfigNtf) => !(Unformatted(s.bufs) && s.bc.proto.ActiveDl?)
    case Message(TimingConfigNtf(_, _)) => !(Unformatted(s.bufs) && s.bc.proto.ActiveDl?)
    case AppTimingRequest => !(Unformatted(s.bufs) && IsActive(s.bc))
    case _ => true
  }

  lemma SetupFits(s: State, env: Env)
    requires Working(env)
    ensures var r := SetupConfig(s, env);
            && r.res == 0
            && (if s.bufs.slotSize == 0 then !r.s.bufs.respPend
                else AllFit(r.s.bufs) && r.s.bufs.slotSize == s.bufs.slotSize && r.s.bufs.rate == s.bufs.rate &&
                     r.s.bufs.respPend == s.bufs.respPend)
  {
  }

  lemma ResetReady(s: State, env: Env)
    requires Working(env)
    ensures var t := SendReset(s, env).s; StreamReady(t) && t.bc.proto.Invalid? && !t.bufs.respPend
  {
    hide SetupConfig, AllFit, RateMatches;
    SetupFits(RequestReset(s, env).s.(bufs := s.bufs.(slotSize := 0)), env);
  }

  lemma PeerResetReady(s: State, env: Env)
    requires Working(env)
    ensures StreamReady(AfterPeerReset(s, env))
  {
    hide SetupConfig, AllFit, RateMatches;
    SetupFits(s.(bufs := s.bufs.(slotSize := 0)), env);
  }

  lemma PostReady(s: State, env: Env)
    requires !s.bufs.respPend
    requires s.bc.priv.ConfigActPend? && s.bc.proto.Connected? ==> Configured(s.bufs)
    requires IsActive(s.bc) ==> Configured(s.bufs) || s.bc.priv.ConfigDeactPend?
    ensures StreamReady(PostSpeechResp(s, 0, env))
  {
    hide SendSsi, Configured;
  }

  lemma ReplyReady(s: State, env: Env)
    requires Working(env) && (s.bc.priv.ConfigActPend? && s.bc.proto.Connected? ==> RateMatches(s.bufs))
    requires IsActive(s.bc) ==> RateMatches(s.bufs) || (s.bufs.slotSize == 0 && s.bc.priv.ConfigDeactPend?)
    ensures StreamReady(SetupAndReply(s, env).s) && SetupAndReply(s, env).res == 0
  {
    hide SetupConfig, SendReset, PostSpeechResp, AllFit;
    var s1 := s.(bufs := s.bufs.(respPend := false));
    SetupFits(s1, env);
    var c := SetupConfig(s1, env).s;
    PostReady(Attempted(c, SpeechConfigResp(0), env.write(c.clock), c.bc), env);
  }

  lemma SpeechReady(s: State, stream: bv8, rate: bv8, env: Env)
    requires Working(env) && StreamReady(s) && (stream == 0 || Supported(rate) || !SsiEnabled(s.bc))
    ensures StreamReady(SpeechRequested(s, stream, rate, env))
  {
    hide SetupAndReply, Locked, Configured;
    var s1 := WithPriv(s, if stream != 0 then ConfigActPend else ConfigDeactPend);
    ReplyReady(s1.(bufs := Reconfigured(s1.bufs, stream, rate)), env);
  }

  lemma DataPathReady(s: State, env: Env)
    requires StreamReady(s)
    ensures StreamReady(SsiDataPath(s, env))
  {
    hide ReleaseWakeline, DlData;
  }

  lemma SsiReady(s: State, layout: bv8, result: bv8, env: Env)
    requires Working(env) && StreamReady(s) && Consistent(s.bc)
    ensures StreamReady(SsiResponded(s, layout, result, env))
  {
    hide SendReset, SendSsi, SsiDataPath, Configured, RateMatches;
    ResetReady(s, env);
    ResetReady(WithPriv(s, InSync), env);
    DataPathReady(SsiResponse(s, layout, result, env), env);
  }

  lemma MessageReady(s: State, m: Control, env: Env)
    requires Working(env) && StreamReady(s) && Consistent(s.bc) && Expected(s, Message(m))
    ensures StreamReady(Receive(s, m, env))
  {
    hide SpeechRequested, SsiResponded, ResetConfirmed, AfterPeerReset, Configured, RateMatches;
    match m
    case SpeechConfigReq(stream, _, _, _, rate, _) => SpeechReady(s, stream, rate, env);
    case SsiConfigResp(layout, result) => SsiReady(s, layout, result, env);
    case ResetConnReq => PeerResetReady(WritePlain(s.(bc := Fresh(s.bc)), ResetConnResp, env).s, env);
    case _ =>
  }

  lemma CallReady(s: State, up: bool, env: Env)
    requires Working(env) && StreamReady(s) && Consistent(s.bc)
    ensures StreamReady(CallStatus(s, up, env))
  {
    hide SendSsi, SendReset, Configured, RateMatches;
    ResetReady(s, env);
    if up {} else {}
  }

  lemma NotifyFits(s: State, hw: nat)
    requires AllFit(s.bufs)
    ensures AllFit(Notify(s, hw).bufs)
  {
    hide Overrun;
  }

  lemma AcquireDlFits(s: State, header: Octets, isNull: bool)
    requires AllFit(s.bufs)
    ensures AllFit(DlAcquire(s, header, isNull).s.bufs)
  {
    hide ApplSlot, DlLock, Bump;
    LockFits(s.bufs.dl[0], s.bufs.slotSize, header);
    LockFits(s.bufs.dl[1], s.bufs.slotSize, header);
    LockFits(s.bufs.dl[2], s.bufs.slotSize, header);
    hide Fits;
  }

  lemma LockFits(d: Desc, slotSize: nat, header: Octets)
    ensures Fits(DlLock(d, header), slotSize) == Fits(d, slotSize)
  {
    hide DlLock;
  }

  lemma AcquireUlFits(s: State, isNull: bool)
    requires AllFit(s.bufs)
    ensures AllFit(UlAcquire(s, isNull).s.bufs)
  {
  }

  lemma ReleaseDlReady(s: State, i: nat, env: Env)
    requires Working(env) && StreamReady(s) && i < DL_SLOTS
    ensures StreamReady(DlRelease(s, i, env).s)
  {
    hide SetupAndReply, Locked;
    if s.bufs.respPend {
      hide AllFit, DlUnlocked;
      ReplyReady(s.(bufs := DlUnlocked(s.bufs, i)), env);
    }
  }

  lemma UnlockUlFits(b: Buffers, i: nat, errors: nat)
    requires i < UL_SLOTS && AllFit(b)
    ensures AllFit(UlUnlocked(b.(ulErrors := errors), i))
  {
  }

  lemma ReleaseUlReady(s: State, i: nat, dataType: bv8, env: Env)
    requires Working(env) && StreamReady(s) && i < UL_SLOTS
    ensures StreamReady(UlRelease(s, i, dataType, env).s)
  {
    hide SetupAndReply, Locked, UlSend, AllFit, UlUnlocked;
    if s.bufs.respPend {
      ReplyReady(s.(bufs := UlUnlocked(s.bufs, i)), env);
    } else if AllFit(s.bufs) {
      UnlockUlFits(s.bufs, i, UlSend(s, i, dataType, env).s.bufs.ulErrors);
      UnlockUlFits(s.bufs, i, s.bufs.ulErrors);
    }
  }

  lemma StepReady(s: State, input: Input, env: Env)
    requires Working(env) && Legal(input) && Expected(s, input) && StreamReady(s) && Consistent(s.bc)
    ensures StreamReady(Step(s, input, env))
  {
    hide Receive, CallStatus, Notify, DlAcquire, UlAcquire, DlRelease, UlRelease, SendReset, RequestReset,
      AfterPeerReset, Enqueue, AllFit;
    match input
    case Message(m) => MessageReady(s, m, env);
    case CallChange(up) => CallReady(s, up, env);
    case AppReset => ResetReady(s, env);
    case DriverFailure => PeerResetReady(s, env);
    case FrameNotified(hw) => if AllFit(s.bufs) { NotifyFits(s, hw); }
    case AcquireDl(header, isNull) => if AllFit(s.bufs) { AcquireDlFits(s, header, isNull); }
    case AcquireUl(isNull) => if AllFit(s.bufs) { AcquireUlFits(s, isNull); }
    case ReleaseDl(i) => ReleaseDlReady(s, i, env);
    case ReleaseUl(i, dataType) => ReleaseUlReady(s, i, dataType, env);
    case _ =>
  }

  // ---------- Exactness ----------

  /** The property itself: a stream that runs, with no reply outstanding, has buffers of the negotiated size. */
  predicate Proper(s: State) {
    IsActive(s.bc) && !s.bufs.respPend ==> Configured(s.bufs)
  }

  lemma ReturnsReady(s: State, releases: seq<Input>, env: Env)
    requires Working(env) && StreamReady(s) && Releasing(s, releases, env)
    ensures StreamReady(After(s, releases, env))
    decreases |releases|
  {
    hide Step, StreamReady;
    if releases != [] {
      ReleaseReady(s, releases[0], env);
      ReturnsReady(Step(s, releases[0], env), releases[1..], env);
    }
  }

  lemma ReleaseReady(s: State, input: Input, env: Env)
    requires Working(env) && StreamReady(s) && ReleasesLocked(s, input)
    ensures StreamReady(Step(s, input, env))
  {
    hide DlRelease, UlRelease, StreamReady;
    match input
    case ReleaseDl(i) => ReleaseDlReady(s, i, env);
    case ReleaseUl(i, dataType) => ReleaseUlReady(s, i, dataType, env);
    case _ =>
  }

  /** The reply that is owed will run a stream without any buffers to run it with. */
  predicate Doomed(s: State) {
    && s.bufs.slotSize == 0
    && if IsActive(s.bc) then !s.bc.priv.ConfigDeactPend? else s.bc.proto.Connected? && s.bc.priv.ConfigActPend?
  }

  lemma SetupStops(s: State, env: Env)
    requires Working(env) && s.bufs.slotSize == 0
    ensures SetupConfig(s, env).s.bufs.slotSize == 0
  {
  }

  lemma PostDoomed(s: State, env: Env)
    requires Doomed(s)
    ensures var t := PostSpeechResp(s, 0, env); IsActive(t.bc) && t.bufs == s.bufs
  {
    hide SendSsi;
  }

  lemma ReplyDoomed(s: State, env: Env)
    requires Working(env) && Doomed(s)
    ensures var r := SetupAndReply(s, env);
            r.res == 0 && !Proper(r.s) && !r.s.bufs.respPend && Replied(r.s.log, |s.log|)
  {
    hide SetupConfig, SendReset, PostSpeechResp, AllFit;
    var s1 := s.(bufs := s.bufs.(respPend := false));
    SetupFits(s1, env);
    SetupStops(s1, env);
    var c := SetupConfig(s1, env).s;
    var a := Attempted(c, SpeechConfigResp(0), env.write(c.clock), c.bc);
    PostDoomed(a, env);
    PostMoves(a, 0, env);
  }

  /** A zero-result reply was written as the first message since the log had n entries. */
  predicate Replied(log: seq<Sent>, n: nat) {
    |log| > n && log[n] == Sent(SpeechConfigResp(0), CTRL_LEN)
  }

  predicate Failing(s: State) {
    if s.bufs.respPend then Doomed(s) && Locked(s.bufs) > 0 else !Proper(s)
  }

  lemma OwedFailing(s: State, releases: seq<Input>, env: Env)
    requires Working(env) && Failing(s) && Owes(s, releases, env)
    ensures var t := After(s, releases, env);
            !Proper(t) && if s.bufs.respPend then Replied(t.log, |s.log|) else t == s
  {
    hide SetupAndReply, Proper, Doomed, Locked, Step;
    if s.bufs.respPend {
      hide Owes, Releasing, After;
      var u := OwedReplies(s, releases, env);
      DoomedByState(s, u);
      ReplyDoomed(u, env);
    }
  }

  lemma DoomedByState(s: State, u: State)
    requires Doomed(s) && u.bc == s.bc && u.bufs.slotSize == s.bufs.slotSize
    ensures Doomed(u)
  {
  }

  lemma OwedReady(s: State, releases: seq<Input>, env: Env)
    requires Working(env) && StreamReady(s) && Owes(s, releases, env)
    ensures Proper(After(s, releases, env))
  {
    hide Step, After, Releasing, Configured;
    ReturnsReady(s, releases, env);
  }

  lemma LockedByDescs(a: Buffers, b: Buffers)
    requires a.dl == b.dl && a.ul == b.ul
    ensures Locked(a) == Locked(b)
  {
  }

  lemma SpeechFailing(s: State, stream: bv8, rate: bv8, env: Env)
    requires Working(env) && stream != 0 && !Supported(rate) && SsiEnabled(s.bc)
    ensures var t := SpeechRequested(s, stream, rate, env);
            Failing(t) && if t.bufs.respPend then t.log == s.log else Replied(t.log, |s.log|)
  {
    hide SetupAndReply, Locked, Proper;
    var s1 := WithPriv(s, ConfigActPend);
    var b := Reconfigured(s1.bufs, stream, rate);
    if Locked(b) == 0 {
      ReplyDoomed(s1.(bufs := b), env);
    } else {
      LockedByDescs(b, b.(respPend := true));
      InvalidateAll(b.(respPend := true));
    }
  }

  /** A request with an unsupported rate is answered with success once the buffers are back, and then leaves a
      stream without buffers, exactly if the link is up. */
  lemma UnsupportedExact(s: State, stream: bv8, rate: bv8, releases: seq<Input>, env: Env)
    requires Working(env) && stream != 0 && !Supported(rate) && StreamReady(s)
    requires Owes(SpeechRequested(s, stream, rate, env), releases, env)
    ensures var t := After(SpeechRequested(s, stream, rate, env), releases, env);
            (Proper(t) <==> !SsiEnabled(s.bc)) && (SsiEnabled(s.bc) ==> Replied(t.log, |s.log|))
  {
    hide SpeechRequested, Owes, Releasing, After, Proper, StreamReady, Failing, Supported, Replied;
    if SsiEnabled(s.bc) {
      SpeechFailing(s, stream, rate, env);
      OwedFailing(SpeechRequested(s, stream, rate, env), releases, env);
    } else {
      SpeechReady(s, stream, rate, env);
      OwedReady(SpeechRequested(s, stream, rate, env), releases, env);
    }
  }

  lemma GrantFailing(s: State, m: Control, env: Env)
    requires m.UplinkConfigNtf? || m.TimingConfigNtf?
    requires Unformatted(s.bufs) && s.bc.proto.ActiveDl? && Locked(s.bufs) > 0
    ensures Failing(Receive(s, m, env))
  {
    hide Locked;
  }

  lemma TimingFailing(s: State, env: Env)
    requires Working(env) && Unformatted(s.bufs) && IsActive(s.bc) && Locked(s.bufs) > 0
    ensures Failing(SendTimingRequest(s, env).s)
  {
    hide Locked;
  }

  lemma ReceiveFailing(s: State, m: Control, env: Env)
    requires m.SpeechConfigReq? && Failing(SpeechRequested(s, m.stream, m.rate, env))
    ensures Failing(Receive(s, m, env))
  {
    hide SpeechRequested, Locked, Configured;
  }

  lemma UnexpectedFailing(s: State, input: Input, env: Env)
    requires Working(env) && Legal(input) && !Expected(s, input)
    requires s.bufs.respPend ==> Locked(s.bufs) > 0
    ensures Failing(Step(s, input, env))
  {
    hide SpeechRequested, Receive, SendTimingRequest, Locked, Failing;
    match input
    case Message(m) =>
      if m.SpeechConfigReq? {
        SpeechFailing(s, m.stream, m.rate, env);
        ReceiveFailing(s, m, env);
      } else {
        GrantFailing(s, m, env);
      }
    case _ => TimingFailing(s, env);
  }

  /** The conditions of Expected are exact for the property: with everything that is owed given back, in any order,
      a stream that then runs is properly configured if and only if the step was an expected one. */
  lemma ExpectedExact(s: State, input: Input, releases: seq<Input>, env: Env)
    requires Working(env) && Legal(input) && Consistent(s.bc) && StreamReady(s)
    requires s.bufs.respPend ==> Locked(s.bufs) > 0
    requires Owes(Step(s, input, env), releases, env)
    ensures Proper(After(Step(s, input, env), releases, env)) <==> Expected(s, input)
  {
    hide Step, Expected, Owes, Releasing, After, Proper, StreamReady, Failing;
    if Expected(s, input) {
      StepReady(s, input, env);
      OwedReady(Step(s, input, env), releases, env);
    } else {
      UnexpectedFailing(s, input, env);
      OwedFailing(Step(s, input, env), releases, env);
    }
  }

  ghost predicate ExpectedRun(states: seq<State>, inputs: seq<Input>)
    requires |states| == |inputs| + 1
  {
    forall i :: 0 <= i < |inputs| ==> Expected(states[i], inputs[i])
  }

  lemma {:induction false} AlwaysReady(states: seq<State>, inputs: seq<Input>, env: Env, n: nat)
    requires Working(env) && Run(states, inputs, env) && ExpectedRun(states, inputs) && Opened(states[0])
    requires n < |states|
    ensures StreamReady(states[n])
  {
    hide Step;
    if n > 0 {
      AlwaysReady(states, inputs, env, n - 1);
      AlwaysConsistent(states, inputs, env, n - 1);
      StepReady(states[n - 1], inputs[n - 1], env);
    }
  }

  /** An active stream with no reply outstanding has five valid descriptors of the negotiated size. */
  lemma ActiveIsConfigured(states: seq<State>, inputs: seq<Input>, env: Env, n: nat)
    requires Working(env) && Run(states, inputs, env) && ExpectedRun(states, inputs) && Opened(states[0])
    requires n < |states| && IsActive(states[n].bc) && !states[n].bufs.respPend
    ensures RateMatches(states[n].bufs) && AllFit(states[n].bufs)
  {
    hide Step;
    AlwaysReady(states, inputs, env, n);
  }
  /** Any run of expected steps is spoilt by one more step that is not expected: some releases lead to a stream
      without buffers. */
  lemma UnexpectedBreaks(states: seq<State>, inputs: seq<Input>, env: Env, input: Input) returns (releases: seq<Input>)
    requires Working(env) && Run(states, inputs, env) && ExpectedRun(states, inputs) && NoStray(states, inputs)
    requires Opened(states[0]) && Legal(input) && !Expected(states[|inputs|], input)
    ensures var t := Step(states[|inputs|], input, env);
            Owes(t, releases, env) && !Proper(After(t, releases, env))
  {
    hide Step, Expected, Failing, Proper;
    var s := states[|inputs|];
    AlwaysPostponed(states, inputs, env, |inputs|);
    UnexpectedFailing(s, input, env);
    var t := Step(s, input, env);
    releases := [];
    if t.bufs.respPend {
      FailingHeld(t);
      releases := OwedExists(t, env);
    }
    OwedFailing(t, releases, env);
  }

  lemma FailingHeld(s: State)
    requires Failing(s) && s.bufs.respPend
    ensures Locked(s.bufs) > 0
  {
  }
}
