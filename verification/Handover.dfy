/** Changing the buffer layout while the application still holds buffers. */
module Handover {
  import opened Codec
  import opened Model
  import opened Protocol
  import opened StateInvariant

  /** A postponed reply means that every descriptor is invalid and at least one is still held. */
  predicate Postponed(b: Buffers) {
    b.respPend ==> AllInvalid(b) && Locked(b) > 0
  }

  /** When the answer to a successful SSI_CONFIG_RESP is to let the wakeline go. */
  predicate Closing(bc: Backend) {
    bc.priv.Disconnecting? || (bc.proto.Disconnected? && !bc.priv.Connecting? && !bc.priv.SsiConfigPend?)
  }

  /** The one message that revalidates descriptors behind the application's back. */
  predicate Stray(s: State, input: Input) {
    && input.Message? && input.m.SsiConfigResp? && input.m.result == SSI_CONFIG_RES_SUCCESS
    && s.bufs.respPend && s.bufs.slotSize > 0 && !Closing(s.bc)
  }

  predicate ReleasesLocked(s: State, input: Input) {
    match input
    case ReleaseDl(i) => i < DL_SLOTS && s.bufs.dl[i].locked
    case ReleaseUl(i, _) => i < UL_SLOTS && s.bufs.ul[i].locked
    case _ => false
  }

  /** How many SPEECH_CONFIG_RESP writes were attempted. */
  function Replies(log: seq<Sent>): nat {
    if log == [] then 0
    else Replies(log[..|log| - 1]) + Flag(log[|log| - 1].msg.SpeechConfigResp?)
  }

  lemma RepliesLogged(a: seq<Sent>, b: seq<Sent>, msg: Control)
    requires Logged(a, b, msg) && !msg.SpeechConfigResp?
    ensures Replies(b) == Replies(a)
  {
  }

  lemma SetupUnlocks(s: State, env: Env)
    ensures var b := SetupConfig(s, env).s.bufs;
            && (s.bufs.slotSize == 0 || Locked(s.bufs) == 0 ==> Locked(b) == 0)
            && (s.bufs.slotSize == 0 || !s.bufs.respPend ==> !b.respPend)
            && b.slotSize == s.bufs.slotSize
  {
  }

  lemma ResetUnlocks(s: State, env: Env)
    ensures var t := SendReset(s, env).s;
            && !t.bufs.respPend && t.bufs.slotSize == 0 && Locked(t.bufs) == 0
            && Replies(t.log) == Replies(s.log) && t.tx == s.tx
  {
    hide SetupConfig, RequestReset;
    var r := RequestReset(s, env).s;
    RepliesLogged(s.log, r.log, ResetConnReq);
    SetupUnlocks(r.(bufs := r.bufs.(slotSize := 0)), env);
  }

  lemma PeerResetUnlocks(s: State, env: Env)
    ensures var t := AfterPeerReset(s, env);
            !t.bufs.respPend && Locked(t.bufs) == 0 && t.log == s.log && t.tx == s.tx
  {
    hide SetupConfig;
    SetupUnlocks(s.(bufs := s.bufs.(slotSize := 0)), env);
  }

  lemma PostKeepsBuffers(s: State, result: bv8, env: Env)
    ensures var t := PostSpeechResp(s, result, env);
            t.bufs == s.bufs && t.tx == s.tx && Replies(t.log) == Replies(s.log)
  {
    hide SendSsi;
    RepliesLogged(s.log, PostSpeechResp(s, result, env).log,
      if s.bc.priv.ConfigActPend? then NewTimingConfigReq else SsiRequest(s.bc, false));
  }

  /** A reply is attempted once, leaves nothing pending, and keeps the buffers unlocked. */
  lemma ReplyOnce(s: State, env: Env)
    requires Locked(s.bufs) == 0
    ensures var t := SetupAndReply(s, env).s;
            !t.bufs.respPend && Locked(t.bufs) == 0 && t.tx == s.tx && Replies(t.log) == Replies(s.log) + 1
  {
    hide SetupConfig, SendReset, PostSpeechResp;
    var s1 := s.(bufs := s.bufs.(respPend := false));
    SetupUnlocks(s1, env);
    var c := SetupConfig(s1, env);
    var result: bv8 := if c.res == 0 then 0 else 1;
    var a := Attempted(c.s, SpeechConfigResp(result), env.write(c.s.clock), c.s.bc);
    assert a.log[..|a.log| - 1] == s.log;
    PostKeepsBuffers(a, result, env);
    var w := WriteSpeechResp(c.s, result, env).s;
    ResetUnlocks(w.(bufs := Invalidate(w.bufs)), env);
  }

  /** What one step does to a postponed reply; release tells whether it released a held buffer. */
  predicate Progress(s: State, t: State, release: bool) {
    && Postponed(t.bufs)
    && (s.bufs.respPend ==>
          && t.tx == s.tx
          && (if t.bufs.respPend then
                Replies(t.log) == Replies(s.log) && Locked(t.bufs) + Flag(release) == Locked(s.bufs)
              else if release then
                Replies(t.log) == Replies(s.log) + 1 && Locked(s.bufs) == 1
              else
                Replies(t.log) == Replies(s.log) && Locked(t.bufs) == 0))
  }

  lemma InvalidateAll(b: Buffers)
    ensures AllInvalid(Invalidate(b)) && Locked(Invalidate(b)) == Locked(b) && Invalidate(b).respPend == b.respPend
  {
  }

  lemma ReconfiguredLocked(b: Buffers, stream: bv8, rate: bv8, respPend: bool)
    ensures Locked(Reconfigured(b, stream, rate).(respPend := respPend)) == Locked(b)
    ensures Locked(Reconfigured(b, stream, rate)) == Locked(b)
  {
  }

  /** A speech request is replied to at once, or every descriptor becomes invalid and the reply waits. */
  lemma SpeechProgress(s: State, stream: bv8, rate: bv8, env: Env)
    requires Postponed(s.bufs)
    ensures var t := SpeechRequested(s, stream, rate, env);
            && Progress(s, t, false)
            && (if Locked(s.bufs) == 0 then !t.bufs.respPend && Replies(t.log) == Replies(s.log) + 1
                else t.bufs.respPend && AllInvalid(t.bufs) && Locked(t.bufs) == Locked(s.bufs) && t.log == s.log)
  {
    hide SetupAndReply, Locked, AllInvalid, Replies, Reconfigured, Invalidate;
    var s1 := WithPriv(s, if stream != 0 then ConfigActPend else ConfigDeactPend);
    var b := Reconfigured(s1.bufs, stream, rate);
    ReconfiguredLocked(s.bufs, stream, rate, true);
    if Locked(b) == 0 {
      ReplyOnce(s1.(bufs := b), env);
    } else {
      InvalidateAll(b.(respPend := true));
    }
  }

  lemma SsiResponseProgress(s: State, layout: bv8, result: bv8, env: Env)
    requires Postponed(s.bufs)
    ensures var t := SsiResponse(s, layout, result, env);
            && Progress(s, t, false)
            && (if result == SSI_CONFIG_RES_SUCCESS then t.bufs == s.bufs else t.bufs.slotSize == 0 && !t.bufs.respPend)
  {
    hide SendReset, SendSsi, Locked, AllInvalid, Replies;
    if result == SSI_CONFIG_RES_SUCCESS {
      RepliesLogged(s.log, SendSsi(s, s.bc.serverActive, env).s.log, SsiRequest(s.bc, s.bc.serverActive));
    } else {
      ResetUnlocks(s, env);
      ResetUnlocks(WithPriv(s, InSync), env);
    }
  }

  lemma ClosingExact(s: State, layout: bv8, env: Env)
    requires Consistent(s.bc)
    ensures var t := SsiResponse(s, layout, SSI_CONFIG_RES_SUCCESS, env);
            && t.bufs == s.bufs
            && (t.bc.proto.Disconnected? && !t.bc.priv.Connecting? <==> Closing(s.bc))
  {
    hide SendSsi;
    if s.bc.priv.Connecting? {
    } else if s.bc.priv.Disconnecting? {
    } else if s.bc.priv.SsiConfigPend? {
    } else {
    }
  }

  /** The data path leaves the descriptors alone, unless slots are configured and the link stays. */
  lemma DataPathKeeps(s: State, env: Env)
    requires s.bufs.slotSize == 0 || (s.bc.proto.Disconnected? && !s.bc.priv.Connecting?)
    ensures SsiDataPath(s, env).bufs == s.bufs
  {
    hide ReleaseWakeline;
  }

  lemma SsiProgress(s: State, layout: bv8, result: bv8, env: Env)
    requires Postponed(s.bufs) && Consistent(s.bc) && !Stray(s, Message(SsiConfigResp(layout, result)))
    ensures Progress(s, SsiResponded(s, layout, result, env), false)
  {
    hide SsiResponse, SsiDataPath, Locked, AllInvalid, Replies, Closing;
    var t := SsiResponse(s, layout, result, env);
    SsiResponseProgress(s, layout, result, env);
    if s.bufs.respPend {
      if result == SSI_CONFIG_RES_SUCCESS { ClosingExact(s, layout, env); }
      DataPathKeeps(t, env);
    }
  }

  lemma DataPathExact(s: State, env: Env)
    requires s.bufs.respPend && AllInvalid(s.bufs) && Locked(s.bufs) > 0
    ensures Postponed(SsiDataPath(s, env).bufs) <==>
              s.bufs.slotSize == 0 || (s.bc.proto.Disconnected? && !s.bc.priv.Connecting?)
  {
    hide ReleaseWakeline, DlData;
    if s.bufs.slotSize > 0 && !(s.bc.proto.Disconnected? && !s.bc.priv.Connecting?) {
      assert !SsiDataPath(s, env).bufs.dl[0].invalid;
    } else {
      hide AllInvalid, Locked;
    }
  }

  /** Exactly when a successful SSI_CONFIG_RESP leaves a postponed reply in order. */
  lemma StrayExact(s: State, layout: bv8, env: Env)
    requires s.bufs.respPend && Postponed(s.bufs) && Consistent(s.bc)
    ensures Postponed(SsiResponded(s, layout, SSI_CONFIG_RES_SUCCESS, env).bufs) <==>
              s.bufs.slotSize == 0 || Closing(s.bc)
  {
    hide SsiResponse, SsiDataPath, AllInvalid, Locked;
    ClosingExact(s, layout, env);
    DataPathExact(SsiResponse(s, layout, SSI_CONFIG_RES_SUCCESS, env), env);
  }
  lemma ResetProgress(s: State, env: Env)
    requires Postponed(s.bufs)
    ensures Progress(s, ResetRequested(s, env), false) && Progress(s, ResetConfirmed(s, env), false)
  {
    hide AfterPeerReset, SendSsi, ReleaseWakeline;
    var w := WritePlain(s.(bc := Fresh(s.bc)), ResetConnResp, env).s;
    PeerResetUnlocks(w, env);
    RepliesLogged(s.log, w.log, ResetConnResp);
    var s1 := s.(bc := Fresh(s.bc));
    RepliesLogged(s.log, SendSsi(s1, true, env).s.log, SsiRequest(s1.bc, true));
  }

  lemma MessageProgress(s: State, m: Control, env: Env)
    requires Postponed(s.bufs) && Consistent(s.bc) && !Stray(s, Message(m))
    ensures Progress(s, Receive(s, m, env), false)
  {
    hide SpeechRequested, SsiResponded, ResetRequested, ResetConfirmed, Replies, Locked, AllInvalid, Closing;
    match m
    case SpeechConfigReq(stream, _, _, _, rate, _) => SpeechProgress(s, stream, rate, env);
    case SsiConfigResp(layout, result) => SsiProgress(s, layout, result, env);
    case ResetConnReq => ResetProgress(s, env);
    case ResetConnResp => ResetProgress(s, env);
    case _ =>
  }

  lemma CallProgress(s: State, up: bool, env: Env)
    requires Postponed(s.bufs)
    ensures Progress(s, CallStatus(s, up, env), false)
  {
    hide SendReset, SendSsi, Locked, AllInvalid, Replies;
    ResetUnlocks(s, env);
    RepliesLogged(s.log, SendSsi(s, up, env).s.log, SsiRequest(s.bc, up));
    var s1 := s.(bc := Fresh(s.bc));
    RepliesLogged(s.log, SendSsi(s1, true, env).s.log, SsiRequest(s1.bc, true));
  }

  lemma NotifyProgress(s: State, hw: nat)
    requires Postponed(s.bufs)
    ensures Progress(s, Notify(s, hw), false) && Locked(Notify(s, hw).bufs) == Locked(s.bufs)
  {
    hide Overrun;
  }

  lemma AcquireDlProgress(s: State, header: Octets, isNull: bool)
    requires Postponed(s.bufs)
    ensures Progress(s, DlAcquire(s, header, isNull).s, false)
    ensures s.bufs.respPend ==> DlAcquire(s, header, isNull).res < 0
  {
    hide ApplSlot, DlLock, Replies;
    if !s.bufs.respPend {
      hide Locked, AllInvalid;
    }
  }

  lemma AcquireUlProgress(s: State, isNull: bool)
    requires Postponed(s.bufs)
    ensures Progress(s, UlAcquire(s, isNull).s, false)
    ensures s.bufs.respPend ==> UlAcquire(s, isNull).res < 0
  {
    hide Replies;
    if !s.bufs.respPend {
      hide Locked, AllInvalid;
    }
  }

  lemma UnlockedDl(s: State, i: nat)
    requires Postponed(s.bufs) && i < DL_SLOTS && s.bufs.dl[i].locked
    ensures Locked(DlUnlocked(s.bufs, i)) + 1 == Locked(s.bufs)
    ensures AllInvalid(DlUnlocked(s.bufs, i)) == AllInvalid(s.bufs)
  {
  }

  lemma UnlockedUl(s: State, i: nat)
    requires Postponed(s.bufs) && i < UL_SLOTS
    ensures Locked(UlUnlocked(s.bufs, i)) + Flag(s.bufs.ul[i].locked) == Locked(s.bufs)
    ensures AllInvalid(UlUnlocked(s.bufs, i)) == AllInvalid(s.bufs)
  {
  }

  lemma ReleaseDlProgress(s: State, i: nat, env: Env)
    requires Postponed(s.bufs) && i < DL_SLOTS
    ensures Progress(s, DlRelease(s, i, env).s, s.bufs.dl[i].locked)
  {
    hide SetupAndReply, DlUnlocked, Replies, Locked, AllInvalid;
    if s.bufs.dl[i].locked && s.bufs.respPend {
      UnlockedDl(s, i);
      var s1 := s.(bufs := DlUnlocked(s.bufs, i));
      if Locked(s1.bufs) == 0 {
        ReplyOnce(s1, env);
      }
    }
  }

  lemma ReleaseUlProgress(s: State, i: nat, dataType: bv8, env: Env)
    requires Postponed(s.bufs) && i < UL_SLOTS
    ensures Progress(s, UlRelease(s, i, dataType, env).s, s.bufs.ul[i].locked)
  {
    hide SetupAndReply, UlUnlocked, UlSend, Replies, Locked, AllInvalid;
    if s.bufs.respPend {
      UnlockedUl(s, i);
      var s1 := s.(bufs := UlUnlocked(s.bufs, i));
      if Locked(s1.bufs) == 0 {
        ReplyOnce(s1, env);
      }
    }
  }

  lemma StepProgress(s: State, input: Input, env: Env)
    requires Legal(input) && Consistent(s.bc) && Postponed(s.bufs) && !Stray(s, input)
    ensures Progress(s, Step(s, input, env), ReleasesLocked(s, input))
  {
    hide Receive, CallStatus, Notify, DlAcquire, UlAcquire, DlRelease, UlRelease, SendReset, RequestReset,
      AfterPeerReset, Enqueue, Replies, Locked, AllInvalid;
    match input
    case Message(m) => MessageProgress(s, m, env);
    case CallChange(up) => CallProgress(s, up, env);
    case ReleaseDl(i) => ReleaseDlProgress(s, i, env);
    case ReleaseUl(i, dataType) => ReleaseUlProgress(s, i, dataType, env);
    case AcquireDl(header, isNull) => AcquireDlProgress(s, header, isNull);
    case AcquireUl(isNull) => AcquireUlProgress(s, isNull);
    case FrameNotified(hw) => NotifyProgress(s, hw);
    case AppReset => ResetUnlocks(s, env);
    case DriverFailure => PeerResetUnlocks(s, env);
    case AppTimingRequest => RepliesLogged(s.log, SendTimingRequest(s, env).s.log, NewTimingConfigReq);
    case _ =>
  }

  lemma ReceiveSsi(s: State, m: Control, env: Env)
    requires m.SsiConfigResp?
    ensures Receive(s, m, env).bufs == SsiResponded(s, m.layout, m.result, env).bufs
  {
    hide SsiResponded;
  }

  /** Every other input leaves a postponed reply in order, and a stray answer never does. */
  lemma PostponedExact(s: State, input: Input, env: Env)
    requires Legal(input) && Consistent(s.bc) && Postponed(s.bufs)
    ensures Postponed(Step(s, input, env).bufs) <==> !Stray(s, input)
  {
    hide SsiResponded, Receive, Locked, AllInvalid, Replies, Closing;
    if Stray(s, input) {
      StrayExact(s, input.m.layout, env);
      ReceiveSsi(s, input.m, env);
    } else {
      StepProgress(s, input, env);
      hide Step;
    }
  }

  /** No message of the run revalidates held descriptors. */
  ghost predicate NoStray(states: seq<State>, inputs: seq<Input>)
    requires |states| == |inputs| + 1
  {
    forall i :: 0 <= i < |inputs| ==> !Stray(states[i], inputs[i])
  }

  lemma {:induction false} AlwaysPostponed(states: seq<State>, inputs: seq<Input>, env: Env, n: nat)
    requires Run(states, inputs, env) && NoStray(states, inputs) && Opened(states[0]) && n < |states|
    ensures Postponed(states[n].bufs)
  {
    hide Step;
    if n > 0 {
      AlwaysPostponed(states, inputs, env, n - 1);
      AlwaysConsistent(states, inputs, env, n - 1);
      StepProgress(states[n - 1], inputs[n - 1], env);
    }
  }

  /** Releases of held buffers among the steps from first up to last. */
  function Releases(states: seq<State>, inputs: seq<Input>, first: nat, last: nat): nat
    requires |states| == |inputs| + 1 && first <= last <= |inputs|
    decreases last
  {
    if first == last then 0
    else Releases(states, inputs, first, last - 1) + Flag(ReleasesLocked(states[last - 1], inputs[last - 1]))
  }

  /** While a reply is postponed, held buffers and releases add up, nothing is sent, nothing is replied. */
  lemma {:induction false} WhilePostponed(states: seq<State>, inputs: seq<Input>, env: Env, first: nat, last: nat)
    requires Run(states, inputs, env) && NoStray(states, inputs) && Opened(states[0]) && first <= last <= |inputs|
    requires forall j :: first <= j <= last ==> states[j].bufs.respPend
    ensures Locked(states[last].bufs) + Releases(states, inputs, first, last) == Locked(states[first].bufs)
    ensures Releases(states, inputs, first, last) < UL_SLOTS + DL_SLOTS
    ensures Replies(states[last].log) == Replies(states[first].log) && states[last].tx == states[first].tx
  {
    hide Step, Replies;
    AlwaysPostponed(states, inputs, env, last);
    if first < last {
      WhilePostponed(states, inputs, env, first, last - 1);
      AlwaysPostponed(states, inputs, env, last - 1);
      AlwaysConsistent(states, inputs, env, last - 1);
      StepProgress(states[last - 1], inputs[last - 1], env);
    }
  }

  /** The release that ends the wait is the last one that was owed, and it attempts exactly one reply. */
  lemma HandoverCompletes(states: seq<State>, inputs: seq<Input>, env: Env, first: nat, last: nat)
    requires Run(states, inputs, env) && NoStray(states, inputs) && Opened(states[0]) && first <= last < |inputs|
    requires forall j :: first <= j <= last ==> states[j].bufs.respPend
    requires ReleasesLocked(states[last], inputs[last])
    ensures !states[last + 1].bufs.respPend <==>
              Releases(states, inputs, first, last + 1) == Locked(states[first].bufs)
    ensures Releases(states, inputs, first, last + 1) <= Locked(states[first].bufs) <= UL_SLOTS + DL_SLOTS
    ensures Replies(states[last + 1].log) ==
              Replies(states[first].log) + Flag(!states[last + 1].bufs.respPend)
  {
    hide Step, Replies;
    WhilePostponed(states, inputs, env, first, last);
    AlwaysPostponed(states, inputs, env, last);
    AlwaysConsistent(states, inputs, env, last);
    StepProgress(states[last], inputs[last], env);
  }

  lemma ReplyStopsUnlocked(s: State, env: Env)
    ensures var t := ReleasedDuringChange(s, env);
            IsActive(s.bc) && t.bc.proto.Connected? ==> Locked(t.bufs) == 0
  {
    hide SetupAndReply;
    if Locked(s.bufs) == 0 {
      ReplyOnce(s, env);
    }
  }

  lemma SpeechStopsUnlocked(s: State, stream: bv8, rate: bv8, env: Env)
    ensures var t := SpeechRequested(s, stream, rate, env);
            IsActive(s.bc) && t.bc.proto.Connected? ==> Locked(t.bufs) == 0
  {
    hide SetupAndReply;
    var s1 := WithPriv(s, if stream != 0 then ConfigActPend else ConfigDeactPend);
    var b := Reconfigured(s1.bufs, stream, rate);
    if Locked(b) == 0 {
      ReplyOnce(s1.(bufs := b), env);
    }
  }

  /** A stream that ends, ends with no buffer in the application's hands. */
  lemma StopsUnlocked(s: State, input: Input, env: Env)
    requires Legal(input) && Consistent(s.bc) && IsActive(s.bc)
    ensures var t := Step(s, input, env); t.bc.proto.Connected? ==> Locked(t.bufs) == 0
  {
    hide SpeechRequested, ResetRequested, ResetConfirmed, Notify, DlAcquire, UlAcquire, UlSend, ReleasedDuringChange,
      SendReset, RequestReset, AfterPeerReset, SendSsi, Enqueue, SsiDataPath, Locked;
    match input
    case Message(m) =>
      if m.SpeechConfigReq? { SpeechStopsUnlocked(s, m.stream, m.rate, env); }
    case ReleaseDl(i) => ReplyStopsUnlocked(s.(bufs := DlUnlocked(s.bufs, i)), env);
    case ReleaseUl(i, dataType) => ReplyStopsUnlocked(s.(bufs := UlUnlocked(s.bufs, i)), env);
    case _ =>
  }


}
