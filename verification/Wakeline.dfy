/** The wakeline across both layers: who must hold it in which protocol state. */
module Wakeline {
  import opened Codec
  import opened Model
  import opened Protocol
  import opened StateInvariant

  ghost predicate WakeWorks(env: Env) {
    forall t: nat :: env.wake(t) == 0
  }

  /** Every write of a control message and every wakeline ioctl succeeds. */
  ghost predicate Healthy(env: Env) {
    WakeWorks(env) && forall t: nat :: env.write(t) == CTRL_LEN
  }

  /** The driver's line is up exactly while somebody holds it. */
  predicate LineFollowsUsers(s: State) {
    s.line.level == if s.line.users == {} then 0 else 1
  }

  predicate NeedsCall(bc: Backend) {
    SsiEnabled(bc) || bc.priv.Connecting? || bc.priv.Disconnecting? || bc.priv.SsiConfigPend?
  }

  predicate Held(s: State) {
    && LineFollowsUsers(s)
    && (NeedsCall(s.bc) ==> CallUser in s.line.users)
    && (s.bc.proto.Invalid? ==> ResetUser in s.line.users)
  }

  // ---------- The single operations, whatever the ioctl answers ----------

  /** The first user raises the line, if the driver lets it; whoever asks becomes a user in any case. */
  lemma AcquireExact(s: State, user: User, env: Env)
    ensures var r := AcquireWakeline(s, user, env);
            && r.s.line.users == s.line.users + {user}
            && (if s.line.users == {} then
                  r.res == env.wake(s.clock) && r.s.clock == s.clock + 1 &&
                  r.s.line.level == if env.wake(s.clock) == 0 then 1 else s.line.level
                else r.res == 0 && r.s.clock == s.clock && r.s.line.level == s.line.level)
  {
  }

  /** The last user drops the line, if the driver lets it; a release without any user does nothing. */
  lemma ReleaseExact(s: State, user: User, env: Env)
    ensures var r := ReleaseWakeline(s, user, env);
            && r.s.line.users == s.line.users - {user}
            && (if s.line.users == {user} then
                  r.res == env.wake(s.clock) && r.s.clock == s.clock + 1 &&
                  r.s.line.level == if env.wake(s.clock) == 0 then 0 else s.line.level
                else r.res == 0 && r.s.clock == s.clock && r.s.line.level == s.line.level)
  {
    if s.line.users - {user} == {} && s.line.users != {} {
      assert s.line.users == {user};
    }
  }

  /** A reset of the line drops it, if the driver lets it, and forgets all users. */
  lemma ResetExact(s: State, env: Env)
    ensures var t := ResetWakeline(s, env);
            && t.line.users == {} && t.clock == s.clock + 1
            && t.line.level == if env.wake(s.clock) == 0 then 0 else s.line.level
  {
  }

  // ---------- When a step lets the line go ----------

  /** A reset is requested once more, and this time the request cannot be written. */
  predicate ResetRefused(s: State, t: nat, env: Env) {
    s.bc.proto.Invalid? && env.write(t) < 0
  }

  /** A link request still waits for its answer, and the reset that would replace it is not written in full. */
  predicate AnswerAbandoned(s: State, env: Env) {
    s.bc.proto.Disconnected? && s.bc.priv.SsiConfigPend? && env.write(s.clock) != CTRL_LEN
  }

  predicate Drops(s: State, input: Input, env: Env) {
    match input
    case AppReset => ResetRefused(s, s.clock, env)
    case CallChange(up) => up && ResetRefused(s, s.clock, env)
    case Message(SsiConfigResp(_, result)) =>
      result != SSI_CONFIG_RES_SUCCESS && (ResetRefused(s, s.clock, env) || AnswerAbandoned(s, env))
    case _ => RepliesNow(s, input) && env.config(s.clock) != 0 && ResetRefused(s, s.clock + 2, env)
  }

  lemma AcquireFollows(s: State, user: User, env: Env)
    requires WakeWorks(env) && LineFollowsUsers(s)
    ensures LineFollowsUsers(AcquireWakeline(s, user, env).s)
    ensures AcquireWakeline(s, user, env).res == 0
    ensures s.line.users != {} ==> AcquireWakeline(s, user, env).s.clock == s.clock
  {
  }

  lemma ReleaseFollows(s: State, user: User, env: Env)
    requires WakeWorks(env) && LineFollowsUsers(s)
    ensures LineFollowsUsers(ReleaseWakeline(s, user, env).s)
  {
  }

  lemma SsiHeld(s: State, up: bool, env: Env)
    requires WakeWorks(env) && LineFollowsUsers(s)
    ensures LineFollowsUsers(SendSsi(s, up, env).s)
  {
    hide AcquireWakeline;
    AcquireFollows(s, CallUser, env);
  }

  /** A reset request keeps the line as it must be, unless it is a second one that cannot be written. */
  lemma ResetHeld(s: State, env: Env)
    requires WakeWorks(env) && Held(s)
    ensures var t := SendReset(s, env).s;
            && (Held(t) <==> !ResetRefused(s, s.clock, env))
            && LineFollowsUsers(t)
            && (s.line.users != {} && env.write(s.clock) == CTRL_LEN ==> t.bc.proto.Invalid?)
            && (s.line.users != {} && env.write(s.clock) != CTRL_LEN ==>
                  t.bc.proto == s.bc.proto && t.bc.priv == s.bc.priv)
  {
    hide AcquireWakeline, ReleaseWakeline, SetupConfig;
    AcquireFollows(s, ResetUser, env);
    var a := AcquireWakeline(s, ResetUser, env);
    ReleaseFollows(WritePlain(a.s, ResetConnReq, env).s, ResetUser, env);
  }

  lemma AfterPeerResetHeld(s: State, env: Env)
    requires WakeWorks(env)
    ensures Held(AfterPeerReset(s, env))
  {
    hide SetupConfig;
  }

  lemma CallHeld(s: State, up: bool, env: Env)
    requires WakeWorks(env) && Consistent(s.bc) && Held(s)
    ensures Held(CallStatus(s, up, env)) <==> !(up && ResetRefused(s, s.clock, env))
  {
    hide SendSsi, SendReset, RequestReset;
    if up {
      SsiHeld(s, true, env);
      SsiHeld(s.(bc := Fresh(s.bc)), true, env);
      ResetHeld(s, env);
    } else {
      SsiHeld(s, false, env);
    }
  }

  lemma PostHeld(s: State, result: bv8, env: Env)
    requires WakeWorks(env) && Held(s)
    ensures Held(PostSpeechResp(s, result, env))
  {
    hide SendSsi;
    SsiHeld(s.(bc := To(s.bc, Connected, InSync)), false, env);
  }

  lemma SetupTicks(s: State, env: Env)
    ensures SetupConfig(s, env).s.clock == s.clock + 1 && SetupConfig(s, env).res == env.config(s.clock)
  {
  }

  /** A reply that follows a successful set-up keeps the line. */
  lemma ReplyHeld(s: State, env: Env)
    requires WakeWorks(env) && Held(s) && env.config(s.clock) == 0
    ensures Held(SetupAndReply(s, env).s)
  {
    hide SetupConfig, SendReset, RequestReset, PostSpeechResp;
    var s1 := s.(bufs := s.bufs.(respPend := false));
    SetupTicks(s1, env);
    var c := SetupConfig(s1, env);
    PostHeld(Attempted(c.s, SpeechConfigResp(0), env.write(c.s.clock), c.s.bc), 0, env);
  }

  /** After a failed set-up the refusal is written, and a reset follows. */
  lemma RefusalHeld(s: State, env: Env)
    requires WakeWorks(env) && Held(s) && env.config(s.clock) != 0
    ensures Held(SetupAndReply(s, env).s) <==> !ResetRefused(s, s.clock + 2, env)
  {
    hide SetupConfig, SendReset, RequestReset;
    var s1 := s.(bufs := s.bufs.(respPend := false));
    SetupTicks(s1, env);
    var c := SetupConfig(s1, env);
    var w := WriteSpeechResp(c.s, 1, env).s;
    ResetHeld(w.(bufs := Invalidate(w.bufs)), env);
  }

  predicate ReplyDrops(s: State, env: Env) {
    env.config(s.clock) != 0 && ResetRefused(s, s.clock + 2, env)
  }

  lemma ReplyExact(s: State, env: Env)
    requires WakeWorks(env) && Held(s)
    ensures Held(SetupAndReply(s, env).s) <==> !ReplyDrops(s, env)
  {
    hide SetupAndReply, Held;
    if env.config(s.clock) == 0 { ReplyHeld(s, env); } else { RefusalHeld(s, env); }
  }

  lemma SpeechHeld(s: State, stream: bv8, rate: bv8, env: Env)
    requires WakeWorks(env) && Held(s)
    ensures Held(SpeechRequested(s, stream, rate, env)) <==> !(Locked(s.bufs) == 0 && ReplyDrops(s, env))
  {
    hide SetupAndReply;
    var s1 := WithPriv(s, if stream != 0 then ConfigActPend else ConfigDeactPend);
    ReplyExact(s1.(bufs := Reconfigured(s1.bufs, stream, rate)), env);
  }

  /** A state in which the data path may let the wakeline go if it wants to. */
  predicate Decided(bc: Backend) {
    bc.proto.Disconnected? ==> !bc.priv.Disconnecting? && !bc.priv.SsiConfigPend?
  }

  lemma SsiAcceptedHeld(s: State, layout: bv8, env: Env)
    requires WakeWorks(env) && Consistent(s.bc) && Held(s)
    ensures var t := SsiResponse(s, layout, SSI_CONFIG_RES_SUCCESS, env); Held(t) && Decided(t.bc)
  {
    hide SendSsi;
    SsiHeld(s, s.bc.serverActive, env);
  }

  lemma SsiRefusedHeld(s: State, layout: bv8, result: bv8, env: Env)
    requires WakeWorks(env) && Consistent(s.bc) && Held(s) && result != SSI_CONFIG_RES_SUCCESS
    ensures var t := SsiResponse(s, layout, result, env);
            && (Held(t) <==> !ResetRefused(s, s.clock, env))
            && (Decided(t.bc) <==> !AnswerAbandoned(s, env))
  {
    hide SendReset, RequestReset;
    ResetHeld(s, env);
    ResetHeld(WithPriv(s, InSync), env);
  }

  /** What the data path does to the line: it stays as it must be exactly if no answer is awaited any more. */
  lemma DataPathHeld(s: State, env: Env)
    requires WakeWorks(env) && LineFollowsUsers(s) && !(s.bc.proto.Disconnected? && s.bc.priv.Disconnecting?)
    ensures Held(SsiDataPath(s, env)) <==> Held(s) && Decided(s.bc)
  {
    hide ReleaseWakeline, UpdateDlDescs;
    ReleaseFollows(s, CallUser, env);
  }
  lemma RefusedDecides(s: State, layout: bv8, result: bv8, env: Env)
    requires WakeWorks(env) && Consistent(s.bc) && Held(s) && result != SSI_CONFIG_RES_SUCCESS
    ensures var t := SsiResponse(s, layout, result, env);
            LineFollowsUsers(t) && !(t.bc.proto.Disconnected? && t.bc.priv.Disconnecting?)
  {
    hide SendReset, RequestReset;
    ResetHeld(s, env);
    ResetHeld(WithPriv(s, InSync), env);
  }

  lemma SsiRespondedHeld(s: State, layout: bv8, result: bv8, env: Env)
    requires WakeWorks(env) && Consistent(s.bc) && Held(s)
    ensures Held(SsiResponded(s, layout, result, env)) <==>
              !(result != SSI_CONFIG_RES_SUCCESS && (ResetRefused(s, s.clock, env) || AnswerAbandoned(s, env)))
  {
    var t := SsiResponse(s, layout, result, env);
    if result == SSI_CONFIG_RES_SUCCESS {
      hide SsiResponse, SsiDataPath;
      SsiAcceptedHeld(s, layout, env);
      DataPathHeld(t, env);
    } else {
      hide SsiResponse, SsiDataPath, Held, Decided, ResetRefused, AnswerAbandoned;
      SsiRefusedHeld(s, layout, result, env);
      RefusedDecides(s, layout, result, env);
      DataPathHeld(t, env);
    }
  }

  /** A confirmed reset lets its own user go, and adds the CALL user exactly if a call was waiting. */
  lemma ResetConfirmedHeld(s: State, env: Env)
    requires WakeWorks(env) && Held(s)
    ensures var t := ResetConfirmed(s, env);
            && Held(t)
            && t.line.users == s.line.users - {ResetUser} + (if s.bc.priv.ResetBeforeConnect? then {CallUser} else {})
  {
    hide SendSsi, ReleaseWakeline;
    var s1 := s.(bc := Fresh(s.bc));
    SsiHeld(s1, true, env);
    ReleaseFollows(if s.bc.priv == ResetBeforeConnect then SendSsi(s1, true, env).s else s1, ResetUser, env);
  }

  lemma MessageHeld(s: State, m: Control, env: Env)
    requires WakeWorks(env) && Consistent(s.bc) && Held(s)
    ensures Held(Receive(s, m, env)) <==> !Drops(s, Message(m), env)
  {
    hide SpeechRequested, SsiResponded, AfterPeerReset, ResetConfirmed, ResetRefused, AnswerAbandoned;
    match m
    case SpeechConfigReq(stream, _, _, _, rate, _) => SpeechHeld(s, stream, rate, env);
    case SsiConfigResp(layout, result) => SsiRespondedHeld(s, layout, result, env);
    case ResetConnReq => AfterPeerResetHeld(WritePlain(s.(bc := Fresh(s.bc)), ResetConnResp, env).s, env);
    case ResetConnResp => ResetConfirmedHeld(s, env);
    case _ =>
  }

  lemma ReleaseHeld(s: State, env: Env)
    requires WakeWorks(env) && Held(s)
    ensures Held(ReleasedDuringChange(s, env)) <==> !(Locked(s.bufs) == 0 && ReplyDrops(s, env))
  {
    hide SetupAndReply;
    ReplyExact(s, env);
  }

  /** With working wakeline calls, and writes that succeed or fail at will, every step keeps the line exactly as the
      protocol state needs it, except for the resets that Drops lists. */
  lemma StepHeld(s: State, input: Input, env: Env)
    requires WakeWorks(env) && Legal(input) && Consistent(s.bc) && Held(s)
    ensures Held(Step(s, input, env)) <==> !Drops(s, input, env)
  {
    hide Receive, CallStatus, Notify, DlAcquire, UlAcquire, UlSend, ReleasedDuringChange, SendReset, RequestReset,
      AfterPeerReset, Enqueue, Locked, DlUnlocked, UlUnlocked;
    match input
    case Message(m) => MessageHeld(s, m, env);
    case CallChange(up) => CallHeld(s, up, env);
    case ReleaseDl(i) => ReleaseHeld(s.(bufs := DlUnlocked(s.bufs, i)), env);
    case ReleaseUl(i, dataType) => ReleaseHeld(s.(bufs := UlUnlocked(s.bufs, i)), env);
    case AppReset => ResetHeld(s, env);
    case DriverFailure => AfterPeerResetHeld(s, env);
    case _ =>
  }

  ghost predicate NeverDrops(states: seq<State>, inputs: seq<Input>, env: Env)
    requires |states| == |inputs| + 1
  {
    forall i :: 0 <= i < |inputs| ==> !Drops(states[i], inputs[i], env)
  }

  lemma {:induction false} AlwaysHeld(states: seq<State>, inputs: seq<Input>, env: Env, n: nat)
    requires WakeWorks(env) && Run(states, inputs, env) && NeverDrops(states, inputs, env) && Opened(states[0])
    requires n < |states|
    ensures Held(states[n])
  {
    if n > 0 {
      hide Step, Drops;
      AlwaysHeld(states, inputs, env, n - 1);
      AlwaysConsistent(states, inputs, env, n - 1);
      StepHeld(states[n - 1], inputs[n - 1], env);
    }
  }

  /** Control writes that all succeed never drop the line, whatever happens to uplink frames and configurations. */
  lemma HealthyNeverDrops(states: seq<State>, inputs: seq<Input>, env: Env)
    requires Healthy(env) && |states| == |inputs| + 1
    ensures NeverDrops(states, inputs, env)
  {
    hide RepliesNow;
    forall i | 0 <= i < |inputs|
      ensures !Drops(states[i], inputs[i], env)
    {
      HealthyStep(states[i], inputs[i], env);
    }
  }

  lemma HealthyStep(s: State, input: Input, env: Env)
    requires Healthy(env)
    ensures !Drops(s, input, env)
  {
    hide RepliesNow;
    assert env.write(s.clock) == CTRL_LEN && env.write(s.clock + 2) == CTRL_LEN;
  }
}
