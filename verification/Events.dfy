/** Control events and the transitions reported for them. */
module Events {
  import opened Codec
  import opened Model
  import opened Protocol
  import opened StateInvariant
  import opened Ordering
  import opened Traffic

  /** enum cmtspeech_state_tr. */
  datatype Transition =
    | Tr1Connected | Tr2Disconnected | Tr3DlStart | Tr4DlulStop | Tr5ParamUpdate
    | Tr6TimingUpdate | Tr10Reset | Tr11UlStop | Tr12UlStart | TrInvalid

  /** cmtspeech_event_to_state_transition. */
  function TransitionOf(e: Event): Transition {
    if e.prev == Disconnected && e.state == Connected then Tr1Connected
    else if e.prev == Connected && e.state == Disconnected then Tr2Disconnected
    else if e.prev == Connected && e.state == ActiveDl then Tr3DlStart
    else if (e.prev == ActiveDl || e.prev == ActiveDlul) && e.state == Connected then Tr4DlulStop
    else if e.prev == ActiveDl && e.state == ActiveDl then Tr5ParamUpdate
    else if e.kind.MessageEvent? && e.kind.msg.TimingConfigNtf? then Tr6TimingUpdate
    else if e.kind.ResetEvent? then Tr10Reset
    else if e.prev == ActiveDlul && e.state == ActiveDl then Tr11UlStop
    else if e.prev == ActiveDl && e.state == ActiveDlul then Tr12UlStart
    else TrInvalid
  }

  /** The message that the API documentation names as the trigger of a transition. */
  predicate Trigger(tr: Transition, kind: EventKind) {
    match tr
    case Tr10Reset => kind.ResetEvent?
    case Tr1Connected => kind.MessageEvent? && kind.msg.SsiConfigResp?
    case Tr2Disconnected => kind.MessageEvent? && kind.msg.SsiConfigResp?
    case Tr6TimingUpdate => kind.MessageEvent? && kind.msg.TimingConfigNtf?
    case Tr12UlStart => kind.MessageEvent? && kind.msg.UplinkConfigNtf?
    case TrInvalid => true
    case _ => kind.MessageEvent? && kind.msg.SpeechConfigReq?
  }

  /** Everything the trigger list does not cover: a reset from CONNECTED, and an SSI answer in ACTIVE_DL. */
  predicate Exception(e: Event) {
    || (e.kind.ResetEvent? && e.prev == Connected)
    || (e.kind.MessageEvent? && e.kind.msg.SsiConfigResp? && e.prev == ActiveDl && e.state == ActiveDl)
  }

  predicate Explained(e: Event) {
    && (Trigger(TransitionOf(e), e.kind) <==> !Exception(e))
    && (e.kind.ResetEvent? ==> TransitionOf(e) == if e.prev == Connected then Tr2Disconnected else Tr10Reset)
  }

  predicate OnSsiResp(e: Event) {
    e.kind.MessageEvent? && e.kind.msg.SsiConfigResp?
  }

  predicate OnSpeechReq(e: Event) {
    e.kind.MessageEvent? && e.kind.msg.SpeechConfigReq?
  }

  predicate OnTimingNtf(e: Event) {
    e.kind.MessageEvent? && e.kind.msg.TimingConfigNtf?
  }

  predicate OnUplinkNtf(e: Event) {
    e.kind.MessageEvent? && e.kind.msg.UplinkConfigNtf?
  }

  /** What the API documentation says of each transition: the message that triggers it and what the protocol state was
      and is. A reset out of CONNECTED and an SSI answer in ACTIVE_DL are the two cases beyond it. */
  predicate Documented(e: Event) {
    var tr := TransitionOf(e);
    var ssi, speech := OnSsiResp(e), OnSpeechReq(e);
    && (tr == Tr1Connected <==> ssi && e.prev == Disconnected && e.state == Connected)
    && (tr == Tr2Disconnected <==> (ssi || e.kind.ResetEvent?) && e.prev == Connected && e.state == Disconnected)
    && (tr == Tr3DlStart <==> speech && e.prev == Connected && e.state == ActiveDl)
    && (tr == Tr4DlulStop <==> speech && (e.prev == ActiveDl || e.prev == ActiveDlul) && e.state == Connected)
    && (tr == Tr5ParamUpdate <==> (speech || ssi) && e.prev == ActiveDl && e.state == ActiveDl)
    && (tr == Tr6TimingUpdate <==> OnTimingNtf(e))
    && (tr == Tr10Reset <==> e.kind.ResetEvent? && e.prev != Connected)
    && (tr == Tr11UlStop <==> speech && e.prev == ActiveDlul && e.state == ActiveDl)
    && (tr == Tr12UlStart <==> OnUplinkNtf(e) && e.prev == ActiveDl && e.state == ActiveDlul)
  }

  /** The states around an event are such as the message can lead to. */
  predicate Plausible(e: Event) {
    match e.kind
    case ResetEvent(_) => e.state == Disconnected
    case MessageEvent(SpeechConfigReq(_, _, _, _, _, _)) =>
      && (e.state == Disconnected ==> e.prev == Disconnected)
      && (e.state == ActiveDlul ==> e.prev == ActiveDlul)
      && (e.state == Connected ==> e.prev == Connected || e.prev == ActiveDl || e.prev == ActiveDlul)
      && (e.state == ActiveDl ==> e.prev == Connected || e.prev == ActiveDl || e.prev == ActiveDlul)
    case MessageEvent(SsiConfigResp(_, _)) =>
      || e.state == e.prev || e.state == Invalid
      || (e.prev == Disconnected && e.state == Connected) || (e.prev == Connected && e.state == Disconnected)
    case MessageEvent(UplinkConfigNtf) => e.state == if e.prev == ActiveDl then ActiveDlul else e.prev
    case MessageEvent(TimingConfigNtf(_, _)) => e.state == if e.prev == ActiveDl then ActiveDlul else e.prev
    case _ => false
  }

  lemma PlausibleDocumented(e: Event)
    requires Plausible(e)
    ensures Documented(e)
  {
  }

  lemma MessagePlausible(s: State, m: Control, env: Env)
    requires Consistent(s.bc) && Known(m)
    ensures Plausible(EventOf(m, s, Handled(s, m, env)))
  {
    hide SpeechRequested, SsiResponded, ResetRequested, ResetConfirmed, Accepted;
    match m
    case SpeechConfigReq(stream, _, _, _, rate, _) =>
      SpeechMoves(s, stream, rate, env);
      SpeechProtos(s, stream, rate, env);
    case SsiConfigResp(layout, result) => SsiProtos(s, layout, result, env);
    case _ =>
  }

  predicate AllDocumented(events: seq<Event>) {
    forall i :: 0 <= i < |events| ==> Documented(events[i])
  }

  lemma DriverDocumented(prev: Proto)
    ensures Documented(Event(ResetEvent(false), prev, Disconnected, false))
  {
    PlausibleDocumented(Event(ResetEvent(false), prev, Disconnected, false));
    hide Documented;
  }

  lemma StepDocumented(s: State, input: Input, env: Env)
    requires Legal(input) && Consistent(s.bc) && AllDocumented(s.events)
    ensures AllDocumented(Step(s, input, env).events)
  {
    hide Step, Handled, Documented, Plausible;
    StepTraffic(s, input, env);
    match input
    case Message(m) =>
      if Known(m) {
        MessagePlausible(s, m, env);
        PlausibleDocumented(EventOf(m, s, Handled(s, m, env)));
      }
    case DriverFailure => DriverDocumented(s.bc.proto);
    case _ =>
  }

  /** Over every run, each event's transition is exactly the one documented for its message and its states. */
  lemma {:induction false} AlwaysDocumented(states: seq<State>, inputs: seq<Input>, env: Env, n: nat)
    requires Run(states, inputs, env) && Opened(states[0]) && n < |states|
    ensures AllDocumented(states[n].events)
  {
    hide Step, Documented;
    if n > 0 {
      AlwaysDocumented(states, inputs, env, n - 1);
      AlwaysConsistent(states, inputs, env, n - 1);
      StepDocumented(states[n - 1], inputs[n - 1], env);
    }
  }

  /** A known message adds one event, the newest, which tells the message and the states around it; a full queue of 63
      loses its oldest. */
  lemma EventExact(s: State, m: Control, env: Env)
    requires Known(m)
    ensures var t := Receive(s, m, env);
            var last := t.events[|t.events| - 1];
            && t.events == (if |s.events| < 63 then s.events else s.events[1..]) + [last]
            && last.prev == s.bc.proto && last.state == t.bc.proto && (last.layoutChanged <==> m.SpeechConfigReq?)
            && last.kind == (if m == ResetConnReq then ResetEvent(true)
                             else if m == ResetConnResp then ResetEvent(false) else MessageEvent(m))
  {
    MessageTraffic(s, m, env);
    hide Handled;
  }

  lemma SpeechProtos(s: State, stream: bv8, rate: bv8, env: Env)
    ensures var t := SpeechRequested(s, stream, rate, env);
            t.bc.proto.Disconnected? ==> s.bc.proto.Disconnected?
  {
    hide SetupConfig, SendReset, RequestReset, PostSpeechResp, Locked;
    var s1 := WithPriv(s, if stream != 0 then ConfigActPend else ConfigDeactPend);
    ReplyProtos(s1.(bufs := Reconfigured(s1.bufs, stream, rate)), env);
  }

  lemma ReplyProtos(s: State, env: Env)
    ensures var t := SetupAndReply(s, env).s;
            t.bc.proto.Disconnected? ==> s.bc.proto.Disconnected?
  {
    hide SetupConfig, SendReset, RequestReset, PostSpeechResp;
    var c := SetupConfig(s.(bufs := s.bufs.(respPend := false)), env);
    var result: bv8 := if c.res == 0 then 0 else 1;
    PostMoves(Attempted(c.s, SpeechConfigResp(result), env.write(c.s.clock), c.s.bc), result, env);
  }

  lemma SsiProtos(s: State, layout: bv8, result: bv8, env: Env)
    requires Consistent(s.bc)
    ensures var t := SsiResponded(s, layout, result, env);
            && (t.bc.proto == s.bc.proto || t.bc.proto.Invalid?
                || (s.bc.proto.Disconnected? && t.bc.proto.Connected?)
                || (s.bc.proto.Connected? && t.bc.proto.Disconnected?))
  {
    hide SendReset, RequestReset, SendSsi, SsiDataPath;
    if result == SSI_CONFIG_RES_SUCCESS {
      if s.bc.priv.SsiConfigPend? {
        if s.bc.serverActive {} else {}
      }
    }
  }

  lemma MessageExplained(s: State, m: Control, env: Env)
    requires Consistent(s.bc) && Known(m)
    ensures Explained(EventOf(m, s, Handled(s, m, env)))
  {
    hide SpeechRequested, SsiResponded, ResetRequested, ResetConfirmed, Accepted;
    match m
    case SpeechConfigReq(stream, _, _, _, rate, _) =>
      SpeechMoves(s, stream, rate, env);
      SpeechProtos(s, stream, rate, env);
    case SsiConfigResp(layout, result) => SsiProtos(s, layout, result, env);
    case _ =>
  }

  predicate AllExplained(events: seq<Event>) {
    forall i :: 0 <= i < |events| ==> Explained(events[i])
  }

  lemma StepExplained(s: State, input: Input, env: Env)
    requires Legal(input) && Consistent(s.bc) && AllExplained(s.events)
    ensures AllExplained(Step(s, input, env).events)
  {
    hide Step, Handled, Explained;
    StepTraffic(s, input, env);
    match input
    case Message(m) => if Known(m) { MessageExplained(s, m, env); }
    case DriverFailure => DriverExplained(s.bc.proto);
    case _ =>
  }

  lemma DriverExplained(prev: Proto)
    ensures Explained(Event(ResetEvent(false), prev, Disconnected, false))
  {
  }

  /** Over every run, an event's transition has its documented trigger, with exactly the two exceptions. */
  lemma {:induction false} AlwaysExplained(states: seq<State>, inputs: seq<Input>, env: Env, n: nat)
    requires Run(states, inputs, env) && Opened(states[0]) && n < |states|
    ensures AllExplained(states[n].events)
  {
    hide Step, AllExplained;
    if n == 0 {
      assert AllExplained([]) by { EmptyExplained(); }
    } else {
      AlwaysExplained(states, inputs, env, n - 1);
      AlwaysConsistent(states, inputs, env, n - 1);
      StepExplained(states[n - 1], inputs[n - 1], env);
    }
  }

  lemma EmptyExplained()
    ensures AllExplained([])
  {
  }
}
