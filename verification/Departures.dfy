/** Where the code does something else than its comments say, and exactly when. */
module Departures {
  import opened Codec
  import opened Model
  import opened Protocol
  import opened StateInvariant
  import opened Wakeline
  import opened ActiveConfig
  import opened Handover
  import opened Owed

  lemma StopReplied(s: State, env: Env)
    requires Working(env) && s.bc.priv.ConfigDeactPend?
    ensures SetupAndReply(s, env).s.bc.priv.ConfigDeactPend? <==> !IsActive(s.bc)
  {
    hide SetupConfig, SendReset, SendSsi, Held;
    SetupFits(s.(bufs := s.bufs.(respPend := false)), env);
  }

  /** Stopping a stream that never started leaves the state as if the answer were still owed, also when the answer
      had to wait for buffers. */
  lemma StopWithoutStream(s: State, rate: bv8, releases: seq<Input>, env: Env)
    requires Working(env) && Owes(SpeechRequested(s, 0, rate, env), releases, env)
    ensures After(SpeechRequested(s, 0, rate, env), releases, env).bc.priv.ConfigDeactPend? <==> !IsActive(s.bc)
  {
    hide SetupAndReply, Locked, Step;
    var s1 := WithPriv(s, ConfigDeactPend);
    var b := Reconfigured(s1.bufs, 0, rate);
    var t := SpeechRequested(s, 0, rate, env);
    StopReplied(s1.(bufs := b), env);
    if Locked(b) == 0 {
      StopAnswered(s1.(bufs := b), env);
    } else {
      LockedByDescs(b, b.(respPend := true));
      InvalidateAll(b.(respPend := true));
      hide Owes, Releasing, After, SpeechRequested;
      var u := OwedReplies(t, releases, env);
      StopReplied(u, env);
    }
  }

  lemma StopAnswered(s: State, env: Env)
    requires Working(env) && s.bufs.slotSize == 0
    ensures !SetupAndReply(s, env).s.bufs.respPend
  {
    hide SetupConfig, SendReset, PostSpeechResp;
    var s1 := s.(bufs := s.bufs.(respPend := false));
    SetupFits(s1, env);
    PostKeepsBuffers(Attempted(SetupConfig(s1, env).s, SpeechConfigResp(0), env.write(SetupConfig(s1, env).s.clock),
                               SetupConfig(s1, env).s.bc), 0, env);
  }

  /** In that state the end of the call is counted as an I/O error and no request is sent. */
  lemma CallEndBlocked(s: State, env: Env)
    requires s.bc.proto.Connected? && s.bc.priv.ConfigDeactPend?
    ensures var t := CallStatus(s, false, env);
            t.log == s.log && t.bc == s.bc.(serverActive := false, ioErrors := s.bc.ioErrors + 1)
  {
  }

  /** A call was waiting for a reset, and the link request that follows the confirmation is written. */
  predicate ConnectsAfterReset(s: State, env: Env) {
    s.bc.priv.ResetBeforeConnect? && env.write(s.clock + Flag(s.line.users == {})) == CTRL_LEN
  }

  /** A confirmed reset connects exactly if a call was waiting for it, but forgets that the call is active. */
  lemma ConfirmedResetForgetsCall(s: State, env: Env)
    ensures var t := ResetConfirmed(s, env);
            !t.bc.serverActive && (t.bc.priv.Connecting? <==> ConnectsAfterReset(s, env))
  {
    hide ReleaseWakeline;
  }

  predicate CallKnown(bc: Backend) {
    bc.priv.Connecting? ==> bc.serverActive
  }

  lemma PostKnown(s: State, result: bv8, env: Env)
    requires CallKnown(s.bc)
    ensures CallKnown(PostSpeechResp(s, result, env).bc)
  {
    hide SendSsi;
  }

  lemma ReplyKnown(s: State, env: Env)
    requires CallKnown(s.bc)
    ensures CallKnown(SetupAndReply(s, env).s.bc)
  {
    hide SetupConfig, SendReset, RequestReset, PostSpeechResp;
    var c := SetupConfig(s.(bufs := s.bufs.(respPend := false)), env);
    var result: bv8 := if c.res == 0 then 0 else 1;
    PostKnown(Attempted(c.s, SpeechConfigResp(result), env.write(c.s.clock), c.s.bc), result, env);
  }

  lemma SpeechKnown(s: State, stream: bv8, rate: bv8, env: Env)
    ensures CallKnown(SpeechRequested(s, stream, rate, env).bc)
  {
    hide SetupAndReply, Locked;
    var s1 := WithPriv(s, if stream != 0 then ConfigActPend else ConfigDeactPend);
    ReplyKnown(s1.(bufs := Reconfigured(s1.bufs, stream, rate)), env);
  }

  lemma SsiResponseKnown(s: State, layout: bv8, result: bv8, env: Env)
    requires CallKnown(s.bc)
    ensures CallKnown(SsiResponse(s, layout, result, env).bc)
  {
    hide SendReset, RequestReset, SendSsi;
  }

  lemma SsiKnown(s: State, layout: bv8, result: bv8, env: Env)
    requires CallKnown(s.bc)
    ensures CallKnown(SsiResponded(s, layout, result, env).bc)
  {
    hide SsiResponse, SsiDataPath;
    SsiResponseKnown(s, layout, result, env);
  }

  lemma MessageKnown(s: State, m: Control, env: Env)
    requires CallKnown(s.bc)
    ensures CallKnown(Receive(s, m, env).bc) <==> !(m.ResetConnResp? && ConnectsAfterReset(s, env))
  {
    hide SpeechRequested, SsiResponded, ResetRequested, ResetConfirmed, ConnectsAfterReset;
    match m
    case SpeechConfigReq(stream, _, _, _, rate, _) => SpeechKnown(s, stream, rate, env);
    case SsiConfigResp(layout, result) => SsiKnown(s, layout, result, env);
    case ResetConnResp => ConfirmedResetForgetsCall(s, env);
    case _ =>
  }

  lemma CallChangeKnown(s: State, up: bool, env: Env)
    requires Consistent(s.bc) && CallKnown(s.bc)
    ensures CallKnown(CallStatus(s, up, env).bc)
  {
    hide SendReset, RequestReset, SendSsi;
    if up {} else {}
  }

  lemma ReleaseKnown(s: State, env: Env)
    requires CallKnown(s.bc)
    ensures CallKnown(ReleasedDuringChange(s, env).bc)
  {
    hide SetupAndReply, Locked;
    ReplyKnown(s, env);
  }

  /** That is the only step after which a connection is being set up for a call that is not known to be active. */
  lemma CallKnownExact(s: State, input: Input, env: Env)
    requires Legal(input) && Consistent(s.bc) && CallKnown(s.bc)
    ensures CallKnown(Step(s, input, env).bc) <==>
              !(input.Message? && input.m.ResetConnResp? && ConnectsAfterReset(s, env))
  {
    hide Receive, CallStatus, Notify, DlAcquire, UlAcquire, UlSend, ReleasedDuringChange, SendReset, RequestReset,
      AfterPeerReset, Enqueue, DlUnlocked, UlUnlocked, ConnectsAfterReset;
    match input
    case Message(m) => MessageKnown(s, m, env);
    case CallChange(up) => CallChangeKnown(s, up, env);
    case ReleaseDl(i) => ReleaseKnown(s.(bufs := DlUnlocked(s.bufs, i)), env);
    case ReleaseUl(i, dataType) => ReleaseKnown(s.(bufs := UlUnlocked(s.bufs, i)), env);
    case _ =>
  }

  /** Out of SSI_CONFIG_PEND the next request looks pending whether or not it was written. */
  lemma DeferredRequestMasked(s: State, layout: bv8, env: Env)
    requires s.bc.priv.SsiConfigPend?
    ensures var t := SsiResponse(s, layout, SSI_CONFIG_RES_SUCCESS, env);
            var up := s.bc.serverActive;
            && t.bc.proto == (if up then Disconnected else Connected)
            && t.bc.priv == (if up then Connecting else Disconnecting)
            && |t.log| == |s.log| + 1 && t.log[|s.log|].msg == SsiRequest(s.bc, up)
            && (t.bc.ioErrors == 0 <==> t.log[|s.log|].res == CTRL_LEN)
  {
    hide AcquireWakeline;
  }

  /** A call status change, in contrast, tells the two apart. */
  lemma DirectRequestVisible(s: State, up: bool, env: Env)
    requires Consistent(s.bc) && s.bc.priv.InSync?
    requires if up then s.bc.proto.Disconnected? else s.bc.proto.Connected?
    ensures var t := CallStatus(s, up, env);
            && |t.log| == |s.log| + 1 && t.log[|s.log|].msg == SsiRequest(s.bc, up)
            && (t.bc.priv == InSync <==> t.log[|s.log|].res != CTRL_LEN)
  {
    hide AcquireWakeline, SendReset;
  }

  /** Whether a downlink acquire succeeds does not depend on which slots the application still holds. */
  lemma DlAcquireIgnoresLocks(s: State, k: nat, locked: bool, header: Octets, isNull: bool)
    requires k < DL_SLOTS
    ensures var t := s.(bufs := s.bufs.(dl := s.bufs.dl[k := s.bufs.dl[k].(locked := locked)]));
            DlAcquire(t, header, isNull).res == DlAcquire(s, header, isNull).res
  {
    hide DlLock, RxDistance;
  }

  /** An uplink acquire, in contrast, refuses a held slot. */
  lemma UlAcquireMindsLocks(s: State, isNull: bool)
    requires IsActive(s.bc) && s.bufs.ulSlot >= 0 && s.bufs.ul[s.bufs.ulSlot].locked
    ensures UlAcquire(s, isNull).res < 0 && UlAcquire(s, isNull).s == s
  {
  }

  /** Uplink errors need not be consecutive: an accepted frame leaves the count as it is. */
  lemma AcceptedKeepsErrors(s: State, i: nat, dataType: bv8, env: Env)
    ensures var r := UlSend(s, i, dataType, env);
            r.s.bufs.ulErrors == s.bufs.ulErrors <==>
              r.res == 0 || (s.bufs.ulErrors == MAX_UL_ERRORS_PAUSE && r.res == -EINVAL)
  {
    hide UlHeader;
  }

  lemma RefusedUsers(s: State, layout: bv8, result: bv8, env: Env)
    requires WakeWorks(env) && Consistent(s.bc) && Held(s) && result != SSI_CONFIG_RES_SUCCESS
    ensures var t := SsiResponse(s, layout, result, env);
            && (t.bc.proto.Invalid? && ResetUser !in t.line.users <==> ResetRefused(s, s.clock, env))
            && (t.bc.proto.Disconnected? && t.bc.priv.SsiConfigPend? <==> AnswerAbandoned(s, env))
            && (t.bc.priv.SsiConfigPend? ==> CallUser in t.line.users)
  {
    hide SetupConfig;
  }

  lemma DataPathUsers(s: State, env: Env)
    ensures SsiDataPath(s, env).line.users ==
              if s.bc.proto.Disconnected? && !s.bc.priv.Connecting? then s.line.users - {CallUser} else s.line.users
  {
    hide ReleaseWakeline, UpdateDlDescs;
  }

  /** Which hold a refused SSI answer loses: that of a link request still waiting for its answer, or that of a reset
      still waiting for its confirmation, in each case exactly if the new reset request cannot be written. */
  lemma WakelineDropped(s: State, layout: bv8, result: bv8, env: Env)
    requires WakeWorks(env) && Consistent(s.bc) && Held(s) && result != SSI_CONFIG_RES_SUCCESS
    ensures var t := SsiResponded(s, layout, result, env);
            && (t.bc.proto.Invalid? && ResetUser !in t.line.users <==> ResetRefused(s, s.clock, env))
            && (t.bc.priv.SsiConfigPend? && CallUser !in t.line.users <==> AnswerAbandoned(s, env))
  {
    hide SsiResponse, SsiDataPath, Held, ResetRefused, AnswerAbandoned;
    RefusedUsers(s, layout, result, env);
    DataPathUsers(SsiResponse(s, layout, result, env), env);
  }

  /** One of the two from a freshly opened context: the line is down although the
      modem still owes the confirmation of a reset. */
  lemma SecondResetDropsLine(s: State, env: Env)
    requires WakeWorks(env) && Opened(s) && env.write(1) == CTRL_LEN && env.write(3) < 0
    ensures var t := Step(Step(s, AppReset, env), CallChange(true), env);
            t.bc.proto.Invalid? && t.line == Line({}, 0)
  {
    hide SetupConfig;
    var a := RequestReset(s, env).s;
    SetupTicks(a.(bufs := a.bufs.(slotSize := 0)), env);
  }
}
