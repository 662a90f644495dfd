/** What control handling leaves alone: the event queue and the uplink. */
module Traffic {
  import opened Codec
  import opened Model
  import opened Protocol

  predicate SameTraffic(s: State, t: State) {
    t.events == s.events && t.tx == s.tx && t.ulCounter == s.ulCounter && t.staleRxOffsets == s.staleRxOffsets
  }

  lemma ReplyTraffic(s: State, env: Env)
    ensures SameTraffic(s, SetupAndReply(s, env).s)
  {
    hide SetupConfig, SendReset, SendSsi;
  }

  lemma SpeechTraffic(s: State, stream: bv8, rate: bv8, env: Env)
    ensures SameTraffic(s, SpeechRequested(s, stream, rate, env))
  {
    hide SetupAndReply, Locked;
    var s1 := WithPriv(s, if stream != 0 then ConfigActPend else ConfigDeactPend);
    ReplyTraffic(s1.(bufs := Reconfigured(s1.bufs, stream, rate)), env);
  }

  lemma SsiTraffic(s: State, layout: bv8, result: bv8, env: Env)
    ensures SameTraffic(s, SsiResponded(s, layout, result, env))
  {
    hide SendReset, SendSsi, SsiDataPath;
  }

  lemma MessageTraffic(s: State, m: Control, env: Env)
    ensures SameTraffic(s, Handled(s, m, env))
  {
    hide SpeechRequested, SsiResponded, ResetRequested, ResetConfirmed;
    match m
    case SpeechConfigReq(stream, _, _, _, rate, _) => SpeechTraffic(s, stream, rate, env);
    case SsiConfigResp(layout, result) => SsiTraffic(s, layout, result, env);
    case _ =>
  }

  lemma CallTraffic(s: State, up: bool, env: Env)
    ensures SameTraffic(s, CallStatus(s, up, env))
  {
    hide SendReset, SendSsi;
  }

  lemma ReleaseTraffic(s: State, env: Env)
    ensures SameTraffic(s, ReleasedDuringChange(s, env))
  {
    hide SetupAndReply;
    ReplyTraffic(s, env);
  }

  /** Only a received message or a driver failure adds events, and only an uplink release sends a frame. */
  lemma StepTraffic(s: State, input: Input, env: Env)
    requires Legal(input)
    ensures var t := Step(s, input, env);
            && t.staleRxOffsets == s.staleRxOffsets
            && (!input.ReleaseUl? ==> t.tx == s.tx && t.ulCounter == s.ulCounter)
            && (match input
                case Message(m) =>
                  t.events == if Known(m) then Enqueue(s, EventOf(m, s, Handled(s, m, env))).events else s.events
                case DriverFailure =>
                  t.events == Enqueue(s, Event(ResetEvent(false), s.bc.proto, Disconnected, false)).events
                case FetchEvent => t.events == if s.events == [] then [] else s.events[1..]
                case _ => t.events == s.events)
  {
    hide Handled, CallStatus, Notify, DlAcquire, UlAcquire, UlSend, ReleasedDuringChange, SendReset, RequestReset,
      AfterPeerReset, DlUnlocked, UlUnlocked;
    match input
    case Message(m) => MessageTraffic(s, m, env);
    case CallChange(up) => CallTraffic(s, up, env);
    case ReleaseDl(i) => ReleaseTraffic(s.(bufs := DlUnlocked(s.bufs, i)), env);
    case ReleaseUl(i, dataType) => ReleaseTraffic(s.(bufs := UlUnlocked(s.bufs, i)), env);
    case _ =>
  }
}
