/** In which order the protocol states follow each other, over every run. */
module Ordering {
  import opened Codec
  import opened Model
  import opened Protocol
  import opened StateInvariant

  predicate LinkAccepted(input: Input) {
    input.Message? && input.m.SsiConfigResp? && input.m.result == SSI_CONFIG_RES_SUCCESS
  }

  predicate StreamRequest(input: Input, on: bool) {
    input.Message? && input.m.SpeechConfigReq? && (input.m.stream != 0 <==> on)
  }

  predicate UplinkGrant(input: Input) {
    input.Message? && (input.m.UplinkConfigNtf? || input.m.TimingConfigNtf?)
  }

  /** The first message of this step is a zero-result SPEECH_CONFIG_RESP, and it was written. */
  predicate Accepted(a: State, b: State) {
    |a.log| < |b.log| && b.log[|a.log|] == Sent(SpeechConfigResp(0), CTRL_LEN)
  }

  /** How one step may change the protocol state; on and off tell whether it received a stream request. */
  predicate Moves(a: State, b: State, link: bool, on: bool, off: bool, grant: bool) {
    && (SsiEnabled(b.bc) ==> SsiEnabled(a.bc) || link)
    && (b.bc.proto.ActiveDl? && !a.bc.proto.ActiveDl? ==>
          && Accepted(a, b)
          && (a.bc.proto.ActiveDlul? || a.bc.proto.Connected?)
          && (on || a.bc.priv.ConfigActPend?))
    && (b.bc.proto.ActiveDlul? ==> a.bc.proto.ActiveDlul? || (a.bc.proto.ActiveDl? && grant))
    && (b.bc.proto.Connected? && b.bc.priv.ConfigActPend? ==>
          a.bc.proto.Connected? && (on || a.bc.priv.ConfigActPend?))
    && (b.bc.proto.Connected? && IsActive(a.bc) ==> Accepted(a, b) && (off || a.bc.priv.ConfigDeactPend?))
  }

  lemma PostMoves(s: State, result: bv8, env: Env)
    ensures var t := PostSpeechResp(s, result, env);
            && s.log <= t.log
            && (t.bc.proto == s.bc.proto ==> t.bc.priv == s.bc.priv || !t.bc.priv.ConfigActPend?)
            && (t.bc.proto != s.bc.proto ==>
                 && result & 0x1 == 0
                 && ((t.bc.proto == ActiveDl && s.bc.priv == ConfigActPend
                      && (s.bc.proto == Connected || s.bc.proto == ActiveDlul))
                  || (t.bc.proto == Connected && s.bc.priv == ConfigDeactPend && IsActive(s.bc)
                      && !t.bc.priv.ConfigActPend?)))
  {
    hide SendSsi;
  }

  lemma ReplyMoves(s: State, env: Env)
    ensures Moves(s, SetupAndReply(s, env).s, false, false, false, false)
  {
    hide SetupConfig, SendReset, RequestReset, PostSpeechResp;
    var s1 := SetupConfig(s.(bufs := s.bufs.(respPend := false)), env);
    var result: bv8 := if s1.res == 0 then 0 else 1;
    PostMoves(Attempted(s1.s, SpeechConfigResp(result), env.write(s1.s.clock), s1.s.bc), result, env);
  }

  lemma SpeechMoves(s: State, stream: bv8, rate: bv8, env: Env)
    ensures Moves(s, SpeechRequested(s, stream, rate, env), false, stream != 0, stream == 0, false)
  {
    hide SetupAndReply;
    var s1 := WithPriv(s, if stream != 0 then ConfigActPend else ConfigDeactPend);
    ReplyMoves(s1.(bufs := Reconfigured(s1.bufs, stream, rate)), env);
  }

  lemma SsiMoves(s: State, layout: bv8, result: bv8, env: Env)
    requires Consistent(s.bc)
    ensures Moves(s, SsiResponded(s, layout, result, env), result == SSI_CONFIG_RES_SUCCESS, false, false, false)
  {
    hide SendReset, RequestReset, SendSsi, SsiDataPath;
    if result == SSI_CONFIG_RES_SUCCESS {
      if s.bc.priv.SsiConfigPend? {
        if s.bc.serverActive {} else {}
      }
    }
  }

  lemma MessageMoves(s: State, m: Control, env: Env)
    requires Consistent(s.bc)
    ensures Moves(s, Receive(s, m, env), LinkAccepted(Message(m)), StreamRequest(Message(m), true),
                  StreamRequest(Message(m), false), UplinkGrant(Message(m)))
  {
    hide SpeechRequested, SsiResponded, ResetRequested, ResetConfirmed;
    match m
    case SpeechConfigReq(stream, _, _, _, rate, _) => SpeechMoves(s, stream, rate, env);
    case SsiConfigResp(layout, result) => SsiMoves(s, layout, result, env);
    case _ =>
  }

  lemma ReleaseMoves(s: State, env: Env)
    ensures Moves(s, ReleasedDuringChange(s, env), false, false, false, false)
  {
    hide SetupAndReply;
    ReplyMoves(s, env);
  }

  lemma CallUpMoves(s: State, env: Env)
    requires Consistent(s.bc)
    ensures Moves(s, CallUp(s, env), false, false, false, false)
  {
    hide SendSsi, SendReset, RequestReset;
    if s.bc.proto.Disconnected? {
    } else if s.bc.proto.Connected? {
    } else if IsActive(s.bc) {
    } else {
    }
  }

  lemma CallDownMoves(s: State, env: Env)
    requires Consistent(s.bc)
    ensures Moves(s, CallDown(s, env), false, false, false, false)
  {
    hide SendSsi;
  }

  lemma CallMoves(s: State, up: bool, env: Env)
    requires Consistent(s.bc)
    ensures Moves(s, CallStatus(s, up, env), false, false, false, false)
  {
    hide CallUp, CallDown, Consistent;
    CallUpMoves(s, env);
    CallDownMoves(s, env);
  }

  lemma StepMoves(s: State, input: Input, env: Env)
    requires Legal(input) && Consistent(s.bc)
    ensures Moves(s, Step(s, input, env), LinkAccepted(input), StreamRequest(input, true), StreamRequest(input, false),
                  UplinkGrant(input))
  {
    hide Receive, CallStatus, Notify, DlAcquire, UlAcquire, UlSend, ReleasedDuringChange, SendReset, RequestReset,
      AfterPeerReset, Enqueue;
    match input
    case Message(m) => MessageMoves(s, m, env);
    case CallChange(up) => CallMoves(s, up, env);
    case ReleaseDl(i) => ReleaseMoves(s.(bufs := DlUnlocked(s.bufs, i)), env);
    case ReleaseUl(i, dataType) => ReleaseMoves(s.(bufs := UlUnlocked(s.bufs, i)), env);
    case _ =>
  }

  lemma RunMoves(states: seq<State>, inputs: seq<Input>, env: Env, n: nat)
    requires Run(states, inputs, env) && Opened(states[0]) && n < |inputs|
    ensures Moves(states[n], states[n + 1], LinkAccepted(inputs[n]), StreamRequest(inputs[n], true),
                  StreamRequest(inputs[n], false), UplinkGrant(inputs[n]))
  {
    hide Step, Moves;
    AlwaysConsistent(states, inputs, env, n);
    StepMoves(states[n], inputs[n], env);
  }

  /** The SSI link is up only since a successful SSI_CONFIG_RESP, and stayed up from then on. */
  lemma {:induction false} LinkOrigin(states: seq<State>, inputs: seq<Input>, env: Env, n: nat) returns (k: nat)
    requires Run(states, inputs, env) && Opened(states[0]) && n < |states|
    requires SsiEnabled(states[n].bc)
    ensures k < n && LinkAccepted(inputs[k])
    ensures forall j :: k < j <= n ==> SsiEnabled(states[j].bc)
  {
    hide Step;
    RunMoves(states, inputs, env, n - 1);
    if LinkAccepted(inputs[n - 1]) {
      k := n - 1;
    } else {
      k := LinkOrigin(states, inputs, env, n - 1);
    }
  }

  /** An activation waiting in CONNECTED was requested since CONNECTED was entered. */
  lemma {:induction false} PendingOrigin(states: seq<State>, inputs: seq<Input>, env: Env, n: nat) returns (k: nat)
    requires Run(states, inputs, env) && Opened(states[0]) && n < |states|
    requires states[n].bc.proto == Connected && states[n].bc.priv == ConfigActPend
    ensures k < n && StreamRequest(inputs[k], true)
    ensures forall j :: k <= j <= n ==> states[j].bc.proto == Connected
  {
    hide Step;
    RunMoves(states, inputs, env, n - 1);
    if StreamRequest(inputs[n - 1], true) {
      k := n - 1;
    } else {
      k := PendingOrigin(states, inputs, env, n - 1);
    }
  }

  predicate Enters(a: State, b: State, proto: Proto) {
    a.bc.proto != proto && b.bc.proto == proto
  }

  /** ACTIVE_DL is entered by an accepted stream request, from CONNECTED or from ACTIVE_DLUL. */
  lemma DownlinkOrigin(states: seq<State>, inputs: seq<Input>, env: Env, n: nat) returns (k: nat)
    requires Run(states, inputs, env) && Opened(states[0]) && n < |inputs|
    ensures Enters(states[n], states[n + 1], ActiveDl) ==>
              && Accepted(states[n], states[n + 1])
              && (states[n].bc.proto == ActiveDlul || (
                    && states[n].bc.proto == Connected
                    && k <= n && StreamRequest(inputs[k], true)
                    && forall j :: k <= j <= n ==> states[j].bc.proto == Connected))
  {
    hide Step;
    RunMoves(states, inputs, env, n);
    k := n;
    var entered := Enters(states[n], states[n + 1], ActiveDl);
    if entered && states[n].bc.proto == Connected && !StreamRequest(inputs[n], true) {
      k := PendingOrigin(states, inputs, env, n);
    }
  }

  /** ACTIVE_DLUL is entered only from ACTIVE_DL, on a grant by the modem. */
  lemma UplinkOrigin(states: seq<State>, inputs: seq<Input>, env: Env, n: nat)
    requires Run(states, inputs, env) && Opened(states[0]) && n < |inputs|
    ensures Enters(states[n], states[n + 1], ActiveDlul) ==> states[n].bc.proto == ActiveDl && UplinkGrant(inputs[n])
  {
    hide Step;
    RunMoves(states, inputs, env, n);
  }
}
