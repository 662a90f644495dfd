/** What each operation sends, in which order, and the protocol state that the outcome of each write leads to. */
module FollowUps {
  import opened Codec
  import opened Model
  import opened Protocol
  import opened StateInvariant
  import opened Handover
  import opened Owed
  import opened Setup
  import opened Wakeline

  /** The log grew by exactly these messages, with the outcomes of consecutive writes. */
  predicate Sends(s: State, t: State, msgs: seq<Control>, first: nat, env: Env) {
    && t.log == s.log + seq(|msgs|, i requires 0 <= i < |msgs| => Sent(msgs[i], env.write(first + i)))
  }

  // ---------- After a speech reply ----------

  /** What a written zero-result reply makes the library send: a close of the link if the stream of an ended call stops,
      a timing request if a stream starts, nothing otherwise. */
  function Follow(bc: Backend): seq<Control> {
    if IsActive(bc) && bc.priv == ConfigDeactPend && !bc.serverActive then [SsiConfigReq(2, bc.version, 0)]
    else if bc.proto == Connected && bc.priv == ConfigActPend then [NewTimingConfigReq]
    else []
  }

  /** The protocol state it leads to; ok tells whether what follows the reply was written. */
  function Followed(bc: Backend, ok: bool): (Proto, Priv) {
    if IsActive(bc) && bc.priv == ConfigDeactPend then (Connected, if !bc.serverActive && ok then Disconnecting else InSync)
    else if bc.proto == Connected && bc.priv == ConfigActPend then (ActiveDl, if ok then Timing else InSync)
    else if bc.proto == ActiveDlul && bc.priv == ConfigActPend then (ActiveDl, InSync)
    else (bc.proto, bc.priv)
  }

  lemma PostFollows(s: State, env: Env)
    ensures var t := PostSpeechResp(s, 0, env);
            && Sends(s, t, Follow(s.bc), s.clock, env)
            && (t.bc.proto, t.bc.priv) == Followed(s.bc, env.write(s.clock) == 4)
            && t.bc.serverActive == s.bc.serverActive && t.bc.layout == s.bc.layout && t.bc.version == s.bc.version
            && t.line.users == s.line.users
  {
    hide AcquireWakeline;
  }

  predicate FollowsReply(s: State, t: State, env: Env) {
    && Sends(s, t, [SpeechConfigResp(0)] + Follow(s.bc), s.clock + 1, env)
    && (t.bc.proto, t.bc.priv) == Followed(s.bc, env.write(s.clock + 2) == 4)
    && t.bc == s.bc.(proto := t.bc.proto, priv := t.bc.priv, ioErrors := 0)
  }

  /** After a set-up that succeeds, a zero-result reply that is written is followed by exactly that. */
  lemma ReplyFollows(s: State, env: Env)
    requires env.config(s.clock) == 0 && env.write(s.clock + 1) == 4
    ensures FollowsReply(s, SetupAndReply(s, env).s, env) && SetupAndReply(s, env).res == 0
  {
    hide SetupConfig, SendReset, PostSpeechResp, Followed;
    var s1 := s.(bufs := s.bufs.(respPend := false));
    DriverExact(s1, env);
    var c := SetupConfig(s1, env).s;
    var a := Attempted(c, SpeechConfigResp(0), 4, c.bc);
    PostFollows(a, env);
    SendsAfter(s, a, PostSpeechResp(a, 0, env), SpeechConfigResp(0), Follow(s.bc), s.clock + 1, env);
  }

  lemma SendsAfter(s: State, a: State, t: State, msg: Control, rest: seq<Control>, first: nat, env: Env)
    requires a.log == s.log + [Sent(msg, env.write(first))] && Sends(a, t, rest, first + 1, env)
    ensures Sends(s, t, [msg] + rest, first, env)
  {
  }

  /** A reply that is not written changes nothing but the error count, and nothing follows. */
  lemma ReplyUnwritten(s: State, env: Env)
    requires env.config(s.clock) == 0 && env.write(s.clock + 1) != 4
    ensures var r := SetupAndReply(s, env);
            && Sends(s, r.s, [SpeechConfigResp(0)], s.clock + 1, env)
            && r.s.bc == s.bc.(ioErrors := s.bc.ioErrors + 1) && r.s.line == s.line && r.res == -1
  {
    hide SetupConfig, SendReset, PostSpeechResp;
    DriverExact(s.(bufs := s.bufs.(respPend := false)), env);
  }

  /** After a set-up that fails, the refusal and a reset request are sent; the state is INVALID exactly if the latter
      was written. */
  lemma ReplyRefuses(s: State, env: Env)
    requires env.config(s.clock) != 0 && s.line.users != {}
    ensures var t := SetupAndReply(s, env).s;
            && Sends(s, t, [SpeechConfigResp(1), ResetConnReq], s.clock + 1, env)
            && (if env.write(s.clock + 2) == 4 then t.bc.proto == Invalid && t.bc.priv == InSync
                else t.bc.proto == s.bc.proto && t.bc.priv == if env.write(s.clock + 1) == 4 then InSync else s.bc.priv)
  {
    hide SetupConfig, ReleaseWakeline;
    DriverExact(s.(bufs := s.bufs.(respPend := false)), env);
  }

  /** The backend while the reply to a speech request is owed. */
  function Pending(bc: Backend, stream: bv8): Backend {
    bc.(priv := if stream != 0 then ConfigActPend else ConfigDeactPend)
  }

  predicate FollowsRequest(s: State, t: State, stream: bv8, env: Env) {
    && Sends(s, t, [SpeechConfigResp(0)] + Follow(Pending(s.bc, stream)), s.clock + 1, env)
    && (t.bc.proto, t.bc.priv) == Followed(Pending(s.bc, stream), env.write(s.clock + 2) == 4)
  }

  lemma FollowsByParts(s: State, u: State, t: State, stream: bv8, env: Env)
    requires FollowsReply(u, t, env) && u.bc == Pending(s.bc, stream) && u.log == s.log && u.clock == s.clock
    ensures FollowsRequest(s, t, stream, env)
  {
  }

  /** A speech request is answered and followed up like that, at once or once all held buffers are back. */
  lemma RequestFollowed(s: State, stream: bv8, rate: bv8, releases: seq<Input>, env: Env)
    requires env.config(s.clock) == 0 && env.write(s.clock + 1) == 4
    requires Owes(SpeechRequested(s, stream, rate, env), releases, env)
    ensures FollowsRequest(s, After(SpeechRequested(s, stream, rate, env), releases, env), stream, env)
  {
    hide SetupAndReply, Locked, Step, FollowsReply, FollowsRequest, Reconfigured, Invalidate;
    var s1 := WithPriv(s, if stream != 0 then ConfigActPend else ConfigDeactPend);
    var b := Reconfigured(s1.bufs, stream, rate);
    var t := SpeechRequested(s, stream, rate, env);
    ReconfiguredLocked(s.bufs, stream, rate, true);
    if Locked(b) == 0 {
      var u := s1.(bufs := b);
      ReplyFollows(u, env);
      ReplyOnce(u, env);
      FollowsByParts(s, u, t, stream, env);
    } else {
      InvalidateAll(b.(respPend := true));
      hide Owes, Releasing, After, SpeechRequested;
      var u := OwedReplies(t, releases, env);
      ReplyFollows(u, env);
      FollowsByParts(s, u, After(t, releases, env), stream, env);
    }
  }

  /** The end of an ended call's stream closes the link: exactly one request, and DISCONNECTING exactly if it was
      written. */
  lemma StopClosesLink(s: State, rate: bv8, releases: seq<Input>, env: Env)
    requires env.config(s.clock) == 0 && env.write(s.clock + 1) == 4 && IsActive(s.bc) && !s.bc.serverActive
    requires Owes(SpeechRequested(s, 0, rate, env), releases, env)
    ensures var t := After(SpeechRequested(s, 0, rate, env), releases, env);
            && t.log == s.log + [Sent(SpeechConfigResp(0), 4),
                                 Sent(SsiConfigReq(2, s.bc.version, 0), env.write(s.clock + 2))]
            && t.bc.proto == Connected
            && t.bc.priv == if env.write(s.clock + 2) == 4 then Disconnecting else InSync
  {
    hide SpeechRequested, Owes, Releasing, After;
    RequestFollowed(s, 0, rate, releases, env);
  }

  // ---------- Resets ----------

  /** When the next write happens if the wakeline has to be raised first. */
  function WriteTime(s: State): nat {
    s.clock + Flag(s.line.users == {})
  }

  predicate LineRaised(s: State, env: Env) {
    s.line.users != {} || env.wake(s.clock) == 0
  }

  /** A reset request is written exactly if the wakeline is up or can be raised; the state is INVALID exactly if the
      request was written in full. */
  lemma ResetSends(s: State, env: Env)
    ensures var t := SendReset(s, env).s;
            && (if LineRaised(s, env) then Sends(s, t, [ResetConnReq], WriteTime(s), env) else t.log == s.log)
            && (if LineRaised(s, env) && env.write(WriteTime(s)) == 4 then
                  t.bc == s.bc.(proto := Invalid, priv := InSync, ioErrors := 0)
                else t.bc == s.bc.(ioErrors := s.bc.ioErrors + Flag(LineRaised(s, env))))
  {
    hide SetupConfig, ReleaseWakeline;
  }

  /** What a reset request answers: the error of the wakeline; 4, the octets written, if it was sent; and 0, or the error
      of the wakeline that is let go again, if it was not. */
  lemma ResetAnswers(s: State, env: Env)
    ensures var r := SendReset(s, env);
            var t := WriteTime(s);
            && (!LineRaised(s, env) ==> r.res == env.wake(s.clock) && r.res != 0)
            && (LineRaised(s, env) && env.write(t) >= 0 ==> r.res == env.write(t))
            && (LineRaised(s, env) && env.write(t) < 0 ==>
                  r.res == if s.line.users <= {ResetUser} then env.wake(t + 1) else 0)
  {
    hide SetupConfig, ReleaseWakeline;
    var a := AcquireWakeline(s, ResetUser, env);
    var w := WritePlain(a.s, ResetConnReq, env);
    ReleaseExact(w.s, ResetUser, env);
    assert a.s.line.users == {ResetUser} <==> s.line.users <= {ResetUser};
  }

  /** A reset by the modem is answered once, and whatever becomes of the answer the library is as after opening. */
  lemma PeerResetAnswered(s: State, env: Env)
    ensures var t := ResetRequested(s, env);
            && Sends(s, t, [ResetConnResp], s.clock, env)
            && t.bc == Backend(false, Disconnected, InSync, None, 0, s.bc.version)
            && t.line.users == {} && Cleared(t.bufs)
  {
    hide SetupConfig, ResetWakeline, Cleared;
    ResetClears(WritePlain(s.(bc := Fresh(s.bc)), ResetConnResp, env).s, env);
  }

  lemma DriverErrorResets(s: State, env: Env)
    ensures var t := DriverError(s, env);
            && t.log == s.log && t.bc == Backend(false, Disconnected, InSync, None, 0, s.bc.version)
            && t.line.users == {} && Cleared(t.bufs)
  {
    hide SetupConfig, ResetWakeline, Cleared;
    ResetClears(s, env);
  }

  /** The confirmation of a reset that a call was waiting for asks for the link, with the first write after it. */
  lemma ConfirmationConnects(s: State, env: Env)
    ensures var t := ResetConfirmed(s, env);
            && (if s.bc.priv == ResetBeforeConnect then Sends(s, t, [SsiConfigReq(2, s.bc.version, 1)], WriteTime(s), env)
                else t.log == s.log)
            && t.bc.proto == Disconnected && !t.bc.serverActive && t.bc.layout == None && t.bufs == s.bufs
  {
    hide ReleaseWakeline;
  }

  // ---------- Call status ----------

  predicate AsksForLink(s: State, t: State, up: bool, first: nat, env: Env) {
    && Sends(s, t, [SsiConfigReq(2, s.bc.version, if up then 1 else 0)], first, env)
    && t.bc.priv == if env.write(first) == 4 then (if up then Connecting else Disconnecting) else InSync
  }

  predicate Recovers(bc: Backend) {
    IsActive(bc) && !bc.serverActive && bc.ioErrors > 0
  }

  lemma SsiAsks(s: State, up: bool, env: Env)
    requires up || s.bc.priv != Disconnecting
    ensures var r := SendSsi(s, up, env);
            var first := if up then WriteTime(s) else s.clock;
            AsksForLink(s, r.s, up, first, env) && r.res == if env.write(first) == 4 then 0 else -1
  {
  }

  /** A close is not asked for twice. */
  lemma SsiAlreadyClosing(s: State, env: Env)
    requires s.bc.priv == Disconnecting
    ensures SendSsi(s, false, env) == Ret(s, -1)
  {
  }

  /** The step asked for the link, as a reported call does. */
  predicate AskedForCall(s: State, t: State, env: Env) {
    AsksForLink(s, t, true, WriteTime(s), env) && t.bc.proto == Disconnected && CallUser in t.line.users
  }

  lemma AskedBy(s: State, r: State, u: State, t: State, env: Env)
    requires AsksForLink(r, u, true, WriteTime(r), env) && CallUser in u.line.users && u.bc.proto == Disconnected
    requires r.log == s.log && r.clock == s.clock && r.line == s.line && r.bc.version == s.bc.version
    requires t.log == u.log && t.bc.priv == u.bc.priv && t.bc.proto == u.bc.proto && t.line == u.line
    ensures AskedForCall(s, t, env)
  {
  }

  lemma CallUpAsks(s: State, env: Env)
    requires s.bc.proto == Disconnected || Recovers(s.bc)
    ensures var t := CallStatus(s, true, env); t.bc.serverActive && AskedForCall(s, t, env)
  {
    hide SendReset, RequestReset, SendSsi, AsksForLink, AskedForCall;
    var r := if s.bc.proto == Disconnected then s else s.(bc := Fresh(s.bc));
    SsiAsks(r, true, env);
    AskedBy(s, r, SendSsi(r, true, env).s, CallStatus(s, true, env), env);
  }

  lemma CallUpResets(s: State, env: Env)
    requires s.bc.proto == Invalid || s.bc.proto == TestRampPingActive
    ensures var t := CallStatus(s, true, env);
            t.bc.serverActive && t.log == SendReset(s, env).s.log && t.bc.priv == ResetBeforeConnect
  {
    hide SendReset, RequestReset, SendSsi;
  }

  lemma CallUpWaits(s: State, env: Env)
    requires !(s.bc.proto == Disconnected || Recovers(s.bc) || s.bc.proto == Invalid || s.bc.proto == TestRampPingActive)
    ensures CallStatus(s, true, env) ==
              s.(bc := s.bc.(serverActive := true,
                             priv := if s.bc.proto == Connected && s.bc.priv == Disconnecting then SsiConfigPend
                                     else s.bc.priv))
  {
    hide SendReset, RequestReset, SendSsi;
  }

  /** An active call asks for the link when there is none, turns round a close under way, asks for a reset when the state
      is unknown, starts over after errors of an ended call, and changes nothing otherwise. */
  lemma CallUpSends(s: State, env: Env)
    ensures var t := CallStatus(s, true, env);
            && t.bc.serverActive
            && (if s.bc.proto == Disconnected || Recovers(s.bc) then AskedForCall(s, t, env)
                else if s.bc.proto == Connected && s.bc.priv == Disconnecting then
                  t.log == s.log && t.bc == s.bc.(serverActive := true, priv := SsiConfigPend)
                else if s.bc.proto == Invalid || s.bc.proto == TestRampPingActive then
                  t.log == SendReset(s, env).s.log && t.bc.priv == ResetBeforeConnect
                else t.log == s.log && t.bc == s.bc.(serverActive := true))
  {
    hide CallStatus, SendReset, AskedForCall;
    if s.bc.proto == Disconnected || Recovers(s.bc) {
      CallUpAsks(s, env);
    } else if s.bc.proto == Invalid || s.bc.proto == TestRampPingActive {
      CallUpResets(s, env);
    } else {
      CallUpWaits(s, env);
    }
  }

  lemma AskedDown(s: State, u: State, t: State, env: Env)
    requires AsksForLink(s, u, false, s.clock, env) && t.log == u.log && t.bc.priv == u.bc.priv
    ensures AsksForLink(s, t, false, s.clock, env)
  {
  }

  lemma CallDownAsks(s: State, env: Env)
    requires s.bc.priv != ConfigDeactPend && s.bc.proto == Connected && s.bc.priv != Disconnecting
    ensures var t := CallStatus(s, false, env);
            && !t.bc.serverActive && t.bc.proto == s.bc.proto && t.line.users == s.line.users && t.bufs == s.bufs
            && AsksForLink(s, t, false, s.clock, env)
  {
    hide AsksForLink, SendSsi;
    SsiAsks(s, false, env);
    AskedDown(s, SendSsi(s, false, env).s, CallStatus(s, false, env), env);
  }

  lemma CallDownWaits(s: State, env: Env)
    requires Consistent(s.bc) && !(s.bc.priv != ConfigDeactPend && s.bc.proto == Connected && s.bc.priv != Disconnecting)
    ensures CallStatus(s, false, env) ==
              s.(bc := s.bc.(serverActive := false,
                             ioErrors := s.bc.ioErrors + Flag(s.bc.priv == ConfigDeactPend),
                             priv := if s.bc.priv == Connecting then SsiConfigPend else s.bc.priv))
  {
    hide AcquireWakeline;
  }

  /** An ended call asks for a close of an idle link, lets a request under way finish first, and otherwise waits. */
  lemma CallDownSends(s: State, env: Env)
    requires Consistent(s.bc)
    ensures var t := CallStatus(s, false, env);
            && !t.bc.serverActive && t.bc.proto == s.bc.proto && t.line.users == s.line.users && t.bufs == s.bufs
            && (if s.bc.priv == ConfigDeactPend then
                  t.log == s.log && t.bc == s.bc.(serverActive := false, ioErrors := s.bc.ioErrors + 1)
                else if s.bc.proto == Connected && s.bc.priv != Disconnecting then
                  AsksForLink(s, t, false, s.clock, env)
                else if s.bc.priv == Connecting then
                  t.log == s.log && t.bc == s.bc.(serverActive := false, priv := SsiConfigPend)
                else t.log == s.log && t.bc == s.bc.(serverActive := false))
  {
    hide CallStatus, AsksForLink;
    if s.bc.priv != ConfigDeactPend && s.bc.proto == Connected && s.bc.priv != Disconnecting {
      CallDownAsks(s, env);
    } else {
      CallDownWaits(s, env);
    }
  }

  // ---------- Answers and grants ----------

  /** A successful answer opens the link with the layout of the modem (swapped, 1, if it has none), or closes it, or
      sends the request that was put off; it changes nothing if none is awaited. */
  lemma AnswerAccepted(s: State, layout: bv8, env: Env)
    ensures var t := SsiResponse(s, layout, 0, env);
            && (s.bc.priv == Connecting ==>
                  t == s.(bc := s.bc.(proto := Connected, priv := InSync,
                                      layout := Some(if layout == 0 then 1 else layout))))
            && (s.bc.priv == Disconnecting ==>
                  t == s.(bc := Backend(false, Disconnected, InSync, None, 0, s.bc.version)))
            && (s.bc.priv == SsiConfigPend ==>
                  Sends(s, t, [SsiConfigReq(2, s.bc.version, if s.bc.serverActive then 1 else 0)],
                        if s.bc.serverActive then WriteTime(s) else s.clock, env))
            && (s.bc.priv != Connecting && s.bc.priv != Disconnecting && s.bc.priv != SsiConfigPend ==> t == s)
  {
  }

  /** A refused answer asks for a reset, after giving up the request that it refuses. */
  lemma AnswerRefused(s: State, layout: bv8, result: bv8, env: Env)
    requires result != 0
    ensures var given := s.bc.priv == Connecting || s.bc.priv == Disconnecting;
            SsiResponse(s, layout, result, env) == SendReset(if given then s.(bc := s.bc.(priv := InSync)) else s, env).s
  {
    hide SendReset;
  }

  /** An uplink grant starts the uplink of a running downlink and does nothing else; a timing message does the same for
      old modems, and ends the wait for one. */
  lemma GrantExact(s: State, msec: bv16, usec: bv16, env: Env)
    ensures var t := Handled(s, UplinkConfigNtf, env);
            t == s.(bc := if s.bc.proto == ActiveDl then s.bc.(proto := ActiveDlul, priv := InSync) else s.bc)
    ensures var t := Handled(s, TimingConfigNtf(msec, usec), env);
            t == s.(bc := if s.bc.proto == ActiveDl then s.bc.(proto := ActiveDlul, priv := InSync)
                          else if s.bc.priv == Timing then s.bc.(priv := InSync) else s.bc)
  {
  }

  /** A timing request is sent once, and awaited exactly if it was written. */
  lemma TimingRequested(s: State, env: Env)
    ensures var r := SendTimingRequest(s, env);
            && Sends(s, r.s, [NewTimingConfigReq], s.clock, env)
            && r.s.bc == (if env.write(s.clock) == 4 then s.bc.(priv := Timing, ioErrors := 0)
                          else s.bc.(ioErrors := s.bc.ioErrors + 1))
            && r.res == if env.write(s.clock) == 4 then 0 else -1
  {
  }

  // ---------- Errors ----------

  /** A write clears or raises the error count; what a written reply triggers is not counted, even if it fails. */
  lemma ErrorsCounted(s: State, msg: Control, result: bv8, env: Env)
    requires !msg.SpeechConfigResp?
    ensures WritePlain(s, msg, env).s.bc.ioErrors == if env.write(s.clock) == 4 then 0 else s.bc.ioErrors + 1
    ensures WriteSpeechResp(s, result, env).s.bc.ioErrors == if env.write(s.clock) == 4 then 0 else s.bc.ioErrors + 1
  {
    hide PostSpeechResp;
  }

  /** If a delayed reply cannot be written, the descriptors that were just prepared are invalid again. */
  lemma DelayedReplyLost(s: State, env: Env)
    requires Locked(s.bufs) == 0 && env.write(s.clock + 1) != 4
    ensures AllInvalid(ReleasedDuringChange(s, env).bufs)
  {
    DelayedSetup(s, env);
    hide ReleasedDuringChange;
  }
}
