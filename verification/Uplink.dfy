/** Numbering of the uplink frames that the driver accepts, and the pause after uplink errors. */
module Uplink {
  import opened Codec
  import opened Model
  import opened Protocol
  import opened Setup
  import opened Modular
  import opened Traffic

  // ---------- The frame counter ----------

  function Value(b: bv16): nat {
    b as int
  }

  function NextCounter(b: bv16): bv16 {
    b + 4
  }

  lemma AddFourFirst(b: bv16)
    requires b < 0x4000
    ensures (b + 4) as int == b as int + 4
  {
    assert b + 4 >= 4;
  }

  lemma AddFourSecond(b: bv16)
    requires 0x4000 <= b < 0x8000
    ensures (b + 4) as int == b as int + 4
  {
    assert b + 4 >= 4;
  }

  lemma AddFourThird(b: bv16)
    requires 0x8000 <= b < 0xc000
    ensures (b + 4) as int == b as int + 4
  {
    assert b + 4 >= 4;
  }

  lemma AddFourFourth(b: bv16)
    requires 0xc000 <= b < 0xfffc
    ensures (b + 4) as int == b as int + 4
  {
    assert b + 4 >= 4;
  }

  lemma AddFour(b: bv16)
    ensures Value(NextCounter(b)) == (Value(b) + 4) % 0x1_0000
  {
    if b < 0x4000 {
      AddFourFirst(b);
    } else if b < 0x8000 {
      AddFourSecond(b);
    } else if b < 0xc000 {
      AddFourThird(b);
    } else if b < 0xfffc {
      AddFourFourth(b);
    }
  }

  lemma ValueRange(b: bv16)
    ensures Value(b) < 0x1_0000
  {
  }

  /** The frame counter before the k-th accepted frame, from its first value on. */
  function CounterOf(first: bv16, k: nat): bv16 {
    if k == 0 then first else NextCounter(CounterOf(first, k - 1))
  }

  lemma {:induction false} CounterValue(first: bv16, k: nat)
    ensures Value(CounterOf(first, k)) == (Value(first) + 4 * k) % 0x1_0000
  {
    hide Value, NextCounter;
    if k == 0 {
      ValueRange(first);
    } else {
      CounterValue(first, k - 1);
      AddFour(CounterOf(first, k - 1));
      AddModulo(Value(first) + 4 * (k - 1), 4, 0x1_0000);
    }
  }

  // ---------- Numbering ----------

  /** The headers of the frames that the driver took, oldest first. */
  function Taken(tx: seq<Frame>): seq<Octets> {
    if tx == [] then []
    else
      var f := tx[|tx| - 1];
      Taken(tx[..|tx| - 1]) + (if f.accepted then [f.header] else [])
  }

  predicate Numbered(s: State, first: bv16) {
    && s.ulCounter == CounterOf(first, |Taken(s.tx)|)
    && forall k :: 0 <= k < |Taken(s.tx)| ==> Counter(Taken(s.tx)[k]) == CounterOf(first, k)
  }

  lemma SendNumbered(s: State, first: bv16, i: nat, dataType: bv8, env: Env)
    requires Numbered(s, first)
    ensures Numbered(UlSend(s, i, dataType, env).s, first)
  {
    hide UlHeader, Counter;
    var t := UlSend(s, i, dataType, env).s;
    var ok := env.data(s.clock) == CTRL_LEN;
    var frame := Frame(i, UlHeader(s.ulCounter, s.bufs.length, s.bufs.rate, dataType), ok);
    assert t.tx == s.tx + [frame] && t.tx[..|t.tx| - 1] == s.tx;
    UlHeaderCounter(s.ulCounter, s.bufs.length, s.bufs.rate, dataType);
  }

  lemma StepNumbered(s: State, first: bv16, input: Input, env: Env)
    requires Legal(input) && Numbered(s, first)
    ensures Numbered(Step(s, input, env), first)
  {
    StepTraffic(s, input, env);
    if input.ReleaseUl? {
      hide UlSend, Numbered, ReleasedDuringChange, UlUnlocked;
      ReleaseNumbered(s, first, input.i, input.dataType, env);
    } else {
      hide Step;
    }
  }

  lemma ReleaseNumbered(s: State, first: bv16, i: nat, dataType: bv8, env: Env)
    requires i < UL_SLOTS && Numbered(s, first)
    ensures Numbered(UlRelease(s, i, dataType, env).s, first)
  {
    hide UlSend, ReleasedDuringChange, UlUnlocked, CounterOf, Counter;
    ReleaseTraffic(s.(bufs := UlUnlocked(s.bufs, i)), env);
    SendNumbered(s, first, i, dataType, env);
  }

  lemma {:induction false} AlwaysNumbered(states: seq<State>, inputs: seq<Input>, env: Env, n: nat)
    requires Run(states, inputs, env) && Opened(states[0]) && n < |states|
    ensures Numbered(states[n], states[0].ulCounter)
  {
    hide Step;
    if n > 0 {
      AlwaysNumbered(states, inputs, env, n - 1);
      StepNumbered(states[n - 1], states[0].ulCounter, inputs[n - 1], env);
    }
  }

  /** The k-th frame that the driver takes carries the first number plus 4k modulo 65536; refused frames use none. */
  lemma FrameNumbers(states: seq<State>, inputs: seq<Input>, env: Env, n: nat, k: nat)
    requires Run(states, inputs, env) && Opened(states[0]) && n < |states|
    requires k < |Taken(states[n].tx)|
    ensures UlHeaderFields(Taken(states[n].tx)[k]).counter as int == (states[0].ulCounter as int + 4 * k) % 0x1_0000
  {
    hide Step, Counter;
    AlwaysNumbered(states, inputs, env, n);
    CounterValue(states[0].ulCounter, k);
  }

  // ---------- The pause ----------

  /** The step resets the buffer state or sets the buffers up anew. */
  predicate Reconfigures(s: State, input: Input) {
    Clears(s, input) || RepliesNow(s, input)
  }

  /** The step offers an uplink frame to the driver. */
  predicate Offers(s: State, input: Input) {
    input.ReleaseUl? && !s.bufs.respPend && s.bufs.ulErrors < MAX_UL_ERRORS_PAUSE && s.bc.proto.ActiveDlul?
  }

  function Counted(errors: nat, res: int, busy: bool): nat {
    if res == CTRL_LEN then errors else if res < 0 && busy then errors + 1 else MAX_UL_ERRORS_PAUSE
  }

  /** The error count after a step: a downlink frame or a new buffer setup clears it, a refused frame raises it. */
  function ErrorsAfter(s: State, input: Input, env: Env): nat {
    if input.FrameNotified? || Reconfigures(s, input) then 0
    else if Offers(s, input) then Counted(s.bufs.ulErrors, env.data(s.clock), env.busy(s.clock))
    else s.bufs.ulErrors
  }

  lemma SetupErrors(s: State, env: Env)
    ensures SetupConfig(s, env).s.bufs.ulErrors == 0
  {
  }

  lemma ResetErrors(s: State, env: Env)
    ensures SendReset(s, env).s.bufs.ulErrors == 0 && AfterPeerReset(s, env).bufs.ulErrors == 0
  {
    hide SetupConfig, RequestReset;
    SetupErrors(RequestReset(s, env).s.(bufs := s.bufs.(slotSize := 0)), env);
    SetupErrors(s.(bufs := s.bufs.(slotSize := 0)), env);
  }

  lemma ReplyErrors(s: State, env: Env)
    ensures SetupAndReply(s, env).s.bufs.ulErrors == 0
  {
    hide SetupConfig, SendReset, SendSsi;
    var c := SetupConfig(s.(bufs := s.bufs.(respPend := false)), env);
    SetupErrors(s.(bufs := s.bufs.(respPend := false)), env);
    var w := WriteSpeechResp(c.s, if c.res == 0 then 0 else 1, env).s;
    ResetErrors(w.(bufs := Invalidate(w.bufs)), env);
  }

  lemma SpeechErrors(s: State, stream: bv8, rate: bv8, env: Env)
    ensures SpeechRequested(s, stream, rate, env).bufs.ulErrors == if Locked(s.bufs) == 0 then 0 else s.bufs.ulErrors
  {
    hide SetupAndReply;
    var s1 := WithPriv(s, if stream != 0 then ConfigActPend else ConfigDeactPend);
    ReplyErrors(s1.(bufs := Reconfigured(s1.bufs, stream, rate)), env);
  }

  lemma SsiErrors(s: State, layout: bv8, result: bv8, env: Env)
    ensures SsiResponded(s, layout, result, env).bufs.ulErrors ==
              if result == SSI_CONFIG_RES_SUCCESS then s.bufs.ulErrors else 0
  {
    hide SendReset, SendSsi, SsiDataPath;
    ResetErrors(s, env);
    ResetErrors(WithPriv(s, InSync), env);
  }

  lemma MessageErrors(s: State, m: Control, env: Env)
    ensures Receive(s, m, env).bufs.ulErrors == if Reconfigures(s, Message(m)) then 0 else s.bufs.ulErrors
  {
    hide SpeechRequested, SsiResponded, SendSsi, ReleaseWakeline, AfterPeerReset;
    match m
    case SpeechConfigReq(stream, _, _, _, rate, _) => SpeechErrors(s, stream, rate, env);
    case SsiConfigResp(layout, result) => SsiErrors(s, layout, result, env);
    case ResetConnReq => ResetErrors(WritePlain(s.(bc := Fresh(s.bc)), ResetConnResp, env).s, env);
    case _ =>
  }

  lemma CallErrors(s: State, up: bool, env: Env)
    ensures CallStatus(s, up, env).bufs.ulErrors == if Reconfigures(s, CallChange(up)) then 0 else s.bufs.ulErrors
  {
    hide SendReset, SendSsi;
    ResetErrors(s, env);
  }

  lemma ReleaseErrors(s: State, env: Env)
    ensures ReleasedDuringChange(s, env).bufs.ulErrors == if Locked(s.bufs) == 0 then 0 else s.bufs.ulErrors
  {
    hide SetupAndReply, Locked;
    ReplyErrors(s, env);
  }

  /** The error count and the offered frames after a step are the expected ones. */
  predicate ErrorsExact(s: State, t: State, input: Input, env: Env) {
    && t.bufs.ulErrors == ErrorsAfter(s, input, env)
    && (if Offers(s, input) then |t.tx| == |s.tx| + 1 && t.tx[..|s.tx|] == s.tx else t.tx == s.tx)
  }

  lemma ReleaseDlErrors(s: State, i: nat, env: Env)
    requires i < DL_SLOTS
    ensures ErrorsExact(s, DlRelease(s, i, env).s, ReleaseDl(i), env)
  {
    hide ReleasedDuringChange, DlUnlocked, Locked;
    ReleaseErrors(s.(bufs := DlUnlocked(s.bufs, i)), env);
    ReleaseTraffic(s.(bufs := DlUnlocked(s.bufs, i)), env);
  }

  lemma SendErrors(s: State, i: nat, dataType: bv8, env: Env)
    ensures var t := UlSend(s, i, dataType, env).s;
            && t.bufs.ulErrors == Counted(s.bufs.ulErrors, env.data(s.clock), env.busy(s.clock))
            && |t.tx| == |s.tx| + 1 && t.tx[..|s.tx|] == s.tx
  {
    hide UlHeader;
  }

  lemma ReleaseUlErrors(s: State, i: nat, dataType: bv8, env: Env)
    requires i < UL_SLOTS
    ensures ErrorsExact(s, UlRelease(s, i, dataType, env).s, ReleaseUl(i, dataType), env)
  {
    hide ReleasedDuringChange, UlUnlocked, Locked, UlSend, Counted, Clears;
    NoReset(s, ReleaseUl(i, dataType));
    if s.bufs.respPend {
      ReleaseErrors(s.(bufs := UlUnlocked(s.bufs, i)), env);
      ReleaseTraffic(s.(bufs := UlUnlocked(s.bufs, i)), env);
    } else {
      SendErrors(s, i, dataType, env);
    }
  }

  lemma NoReset(s: State, input: Input)
    ensures input.ReleaseDl? || input.ReleaseUl? ==> !Clears(s, input)
  {
  }

  /** The exact error count after every step, and that only an offer adds a frame. */
  lemma StepErrors(s: State, input: Input, env: Env)
    requires Legal(input)
    ensures ErrorsExact(s, Step(s, input, env), input, env)
  {
    hide Receive, CallStatus, Notify, DlAcquire, UlAcquire, DlRelease, UlRelease, SendReset, RequestReset,
      AfterPeerReset, Locked;
    if input.ReleaseDl? {
      ReleaseDlErrors(s, input.i, env);
      hide ErrorsExact;
    } else if input.ReleaseUl? {
      ReleaseUlErrors(s, input.i, input.dataType, env);
      hide ErrorsExact;
    } else {
      StepTraffic(s, input, env);
      match input
      case Message(m) => MessageErrors(s, m, env);
      case CallChange(up) => CallErrors(s, up, env);
      case AppReset => ResetErrors(s, env);
      case DriverFailure => ResetErrors(s, env);
      case _ =>
    }
  }

  lemma {:induction false} AlwaysBounded(states: seq<State>, inputs: seq<Input>, env: Env, n: nat)
    requires Run(states, inputs, env) && Opened(states[0]) && n < |states|
    ensures states[n].bufs.ulErrors <= MAX_UL_ERRORS_PAUSE
  {
    hide Step;
    if n > 0 {
      AlwaysBounded(states, inputs, env, n - 1);
      hide Reconfigures;
      StepErrors(states[n - 1], inputs[n - 1], env);
    }
  }

  /** Paused: nothing is offered until a downlink frame is announced or the buffers are reset or set up anew. */
  lemma {:induction false} PausedSilent(states: seq<State>, inputs: seq<Input>, env: Env, first: nat, last: nat)
    requires Run(states, inputs, env) && first <= last < |states|
    requires states[first].bufs.ulErrors == MAX_UL_ERRORS_PAUSE
    requires forall j :: first <= j < last ==> !inputs[j].FrameNotified? && !Reconfigures(states[j], inputs[j])
    ensures states[last].bufs.ulErrors == MAX_UL_ERRORS_PAUSE && states[last].tx == states[first].tx
    decreases last
  {
    hide Step, Reconfigures;
    if first < last {
      PausedSilent(states, inputs, env, first, last - 1);
      StepErrors(states[last - 1], inputs[last - 1], env);
    }
  }
}
