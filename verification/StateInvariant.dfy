/** What every step keeps about the protocol state, its private extension and the call server flag. */
module StateInvariant {
  import opened Codec
  import opened Model
  import opened Protocol

  predicate Consistent(bc: Backend) {
    && (bc.priv.Connecting? ==> bc.proto.Disconnected?)
    && (bc.priv.Disconnecting? ==> bc.proto.Connected? && !bc.serverActive)
    && (bc.priv.SsiConfigPend? ==>
          (bc.proto.Disconnected? && !bc.serverActive) || (bc.proto.Connected? && bc.serverActive))
    && (bc.priv.ResetBeforeConnect? ==> bc.proto.Invalid? || bc.proto.TestRampPingActive?)
  }

  lemma CallStatusKeeps(s: State, up: bool, env: Env)
    requires Consistent(s.bc)
    ensures Consistent(CallStatus(s, up, env).bc)
  {
    hide SendSsi, SendReset, RequestReset;
    if up {
      if s.bc.proto.Disconnected? {
      } else if s.bc.proto.Connected? && s.bc.priv.Disconnecting? {
      } else if s.bc.proto.Invalid? || s.bc.proto.TestRampPingActive? {
      } else {
      }
    } else {
      if s.bc.priv.ConfigDeactPend? {
      } else if s.bc.proto.Connected? {
      } else {
      }
    }
  }

  lemma PostKeeps(s: State, result: bv8, env: Env)
    requires Consistent(s.bc)
    ensures Consistent(PostSpeechResp(s, result, env).bc)
  {
    hide SendSsi;
  }

  lemma ReplyKeeps(s: State, env: Env)
    requires Consistent(s.bc)
    ensures Consistent(SetupAndReply(s, env).s.bc)
  {
    hide SetupConfig, SendReset, RequestReset, PostSpeechResp;
    var s1 := SetupConfig(s.(bufs := s.bufs.(respPend := false)), env);
    var result: bv8 := if s1.res == 0 then 0 else 1;
    PostKeeps(Attempted(s1.s, SpeechConfigResp(result), env.write(s1.s.clock), s1.s.bc), result, env);
  }

  lemma SpeechRequestedKeeps(s: State, stream: bv8, rate: bv8, env: Env)
    requires Consistent(s.bc)
    ensures Consistent(SpeechRequested(s, stream, rate, env).bc)
  {
    hide SetupAndReply;
    var s1 := WithPriv(s, if stream != 0 then ConfigActPend else ConfigDeactPend);
    ReplyKeeps(s1.(bufs := Reconfigured(s1.bufs, stream, rate)), env);
  }

  lemma SsiRespondedKeeps(s: State, layout: bv8, result: bv8, env: Env)
    requires Consistent(s.bc)
    ensures Consistent(SsiResponded(s, layout, result, env).bc)
  {
    hide SendReset, RequestReset, SendSsi, SsiDataPath;
    if result == SSI_CONFIG_RES_SUCCESS {
      if s.bc.priv.SsiConfigPend? {
        if s.bc.serverActive {} else {}
      } else {
      }
    } else {
    }
  }

  lemma MessageKeeps(s: State, m: Control, env: Env)
    requires Consistent(s.bc)
    ensures Consistent(Receive(s, m, env).bc)
  {
    hide SpeechRequested, SsiResponded, ResetRequested, ResetConfirmed;
    match m
    case SpeechConfigReq(stream, _, _, _, rate, _) => SpeechRequestedKeeps(s, stream, rate, env);
    case SsiConfigResp(layout, result) => SsiRespondedKeeps(s, layout, result, env);
    case _ =>
  }

  lemma ReleaseKeeps(s: State, env: Env)
    requires Consistent(s.bc)
    ensures Consistent(ReleasedDuringChange(s, env).bc)
  {
    hide SetupAndReply;
    ReplyKeeps(s, env);
  }

  lemma StepKeeps(s: State, input: Input, env: Env)
    requires Legal(input) && Consistent(s.bc)
    ensures Consistent(Step(s, input, env).bc)
  {
    hide Receive, CallStatus, Notify, DlAcquire, UlAcquire, UlSend, ReleasedDuringChange, SendReset, RequestReset,
      AfterPeerReset, Enqueue;
    match input
    case Message(m) => MessageKeeps(s, m, env);
    case CallChange(up) => CallStatusKeeps(s, up, env);
    case ReleaseDl(i) => ReleaseKeeps(s.(bufs := DlUnlocked(s.bufs, i)), env);
    case ReleaseUl(i, dataType) => ReleaseKeeps(s.(bufs := UlUnlocked(s.bufs, i)), env);
    case _ =>
  }

  lemma {:induction false} AlwaysConsistent(states: seq<State>, inputs: seq<Input>, env: Env, n: nat)
    requires Run(states, inputs, env) && Opened(states[0]) && n < |states|
    ensures Consistent(states[n].bc)
  {
    if n > 0 {
      hide Step;
      AlwaysConsistent(states, inputs, env, n - 1);
      StepKeeps(states[n - 1], inputs[n - 1], env);
    }
  }
}
