/** The stream that runs is the one that was asked for, in the slots that the driver assigned. */
module StreamFormat {
  import opened Codec
  import opened Model
  import opened Protocol
  import opened StateInvariant
  import opened Handover
  import opened Owed
  import opened Wakeline
  import opened ActiveConfig
  import opened Setup
  import opened Uplink

  // ---------- The format ----------

  /** The sample rate of the last SPEECH_CONFIG_REQ(1) among the first n inputs. */
  function LastRate(inputs: seq<Input>, n: nat): Option<bv8>
    requires n <= |inputs|
  {
    if n == 0 then None
    else
      var input := inputs[n - 1];
      if input.Message? && input.m.SpeechConfigReq? && input.m.stream != 0 then Some(input.m.rate)
      else LastRate(inputs, n - 1)
  }

  /** Octets of a slot: 160 samples at 8 kHz (rate 1), 320 at 16 kHz (rate 2), with four octets of header. */
  function SlotSizeOf(rate: bv8): nat {
    if rate == 1 then 324 else if rate == 2 then 644 else 0
  }

  /** Either nothing was negotiated, or the format is that of the last request, as a running or as an ended stream. */
  predicate FormatKnown(f: Format, last: Option<bv8>) {
    f == Format(0, 0xff, 0xff) ||
    (last.Some? && f.rate == last.value && f.length == 2 && (f.slotSize == 0 || f.slotSize == SlotSizeOf(last.value)))
  }

  function RateAfter(last: Option<bv8>, input: Input): Option<bv8> {
    if input.Message? && input.m.SpeechConfigReq? && input.m.stream != 0 then Some(input.m.rate) else last
  }

  lemma AskedKnown(s: State, input: Input, last: Option<bv8>)
    requires FormatKnown(FormatOf(s.bufs), last)
    ensures FormatKnown(Asked(s, input), RateAfter(last, input))
  {
  }

  lemma StepFormat(s: State, input: Input, env: Env, last: Option<bv8>)
    requires Legal(input) && Consistent(s.bc) && FormatKnown(FormatOf(s.bufs), last)
    ensures FormatKnown(FormatOf(Step(s, input, env).bufs), RateAfter(last, input))
  {
    StepSetup(s, input, env);
    AskedKnown(s, input, last);
    hide Step, Clears, RepliesNow, Closing, LastRelease, Ready, Unused, SameDescs, LaidOut, SlotSizeOf;
    if !(input.Message? && input.m.SpeechConfigReq?) { hide Negotiated; }
  }

  lemma {:induction false} AlwaysKnown(states: seq<State>, inputs: seq<Input>, env: Env, n: nat)
    requires Run(states, inputs, env) && Opened(states[0]) && n < |states|
    ensures FormatKnown(FormatOf(states[n].bufs), LastRate(inputs, n))
  {
    hide Step;
    if n > 0 {
      AlwaysKnown(states, inputs, env, n - 1);
      AlwaysConsistent(states, inputs, env, n - 1);
      StepFormat(states[n - 1], inputs[n - 1], env, LastRate(inputs, n - 1));
    }
  }

  /** An active stream with no reply outstanding has the rate, the frame length and the slot size of the last request. */
  lemma ActiveAsRequested(states: seq<State>, inputs: seq<Input>, env: Env, n: nat)
    requires Working(env) && Run(states, inputs, env) && ExpectedRun(states, inputs) && Opened(states[0])
    requires n < |states| && IsActive(states[n].bc) && !states[n].bufs.respPend
    ensures var last := LastRate(inputs, n);
            && last.Some? && (last.value == 1 || last.value == 2)
            && FormatOf(states[n].bufs) == Format(SlotSizeOf(last.value), last.value, 2)
  {
    hide Step, AllFit, LastRate;
    ActiveIsConfigured(states, inputs, env, n);
    AlwaysKnown(states, inputs, env, n);
  }

  /** A frame that is offered then says so in its header. */
  lemma FrameDescribesStream(states: seq<State>, inputs: seq<Input>, env: Env, n: nat)
    requires Working(env) && Run(states, inputs, env) && ExpectedRun(states, inputs) && Opened(states[0])
    requires n < |inputs| && Offers(states[n], inputs[n])
    ensures var tx := states[n + 1].tx;
            && |tx| == |states[n].tx| + 1 && LastRate(inputs, n).Some?
            && tx[|tx| - 1].slot == inputs[n].i
            && UlHeaderFields(tx[|tx| - 1].header) ==
                 UlFields(states[n].ulCounter, 2, LastRate(inputs, n).value, inputs[n].dataType & 0x3)
  {
    ActiveAsRequested(states, inputs, env, n);
    hide LastRate, UlUnlocked, UlHeader, UlHeaderFields;
    var s := states[n];
    UlHeaderCut(s.ulCounter, 2, s.bufs.rate, inputs[n].dataType);
  }

  lemma UlHeaderCut(counter: bv16, length: bv8, rate: bv8, dataType: bv8)
    requires length <= 3 && rate <= 3
    ensures UlHeaderFields(UlHeader(counter, length, rate, dataType)) == UlFields(counter, length, rate, dataType & 0x3)
  {
  }

  lemma ReplyPrepares(s: State, env: Env)
    requires Working(env) && s.bufs.slotSize > 0
    ensures var r := SetupAndReply(s, env); Prepared(r.s.bufs, r.s.block, FormatOf(s.bufs), false) && r.res == 0
  {
    ReplySetup(s, env);
    DriverExact(s.(bufs := s.bufs.(respPend := false)), env);
    hide SetupConfig, SendReset, PostSpeechResp, Prepared, Cleared;
  }

  /** A stream request with a supported rate prepares exactly that stream, at once or once all buffers are back. */
  lemma RequestPrepares(s: State, stream: bv8, rate: bv8, releases: seq<Input>, env: Env)
    requires Working(env) && stream != 0 && (rate == 1 || rate == 2)
    requires Owes(SpeechRequested(s, stream, rate, env), releases, env)
    ensures var t := After(SpeechRequested(s, stream, rate, env), releases, env);
            Prepared(t.bufs, t.block, Format(SlotSizeOf(rate), rate, 2), false)
  {
    hide SetupAndReply, Locked, Prepared, Step, Reconfigured, Invalidate;
    var s1 := WithPriv(s, ConfigActPend);
    var b := Reconfigured(s1.bufs, stream, rate);
    ReconfiguredFormat(s.bufs, stream, rate);
    var t := SpeechRequested(s, stream, rate, env);
    if Locked(b) == 0 {
      ReplyPrepares(s1.(bufs := b), env);
      PreparedNotPending(SetupAndReply(s1.(bufs := b), env).s, FormatOf(b));
    } else {
      LockedByDescs(b, b.(respPend := true));
      InvalidateAll(b.(respPend := true));
      InvalidateWaits(s.bufs, b.(respPend := true), FormatOf(b));
      hide Owes, Releasing, After, SpeechRequested, Waits;
      WaitsFormat(s.bufs, t.bufs, FormatOf(b));
      var u := OwedReplies(t, releases, env);
      ReplyPrepares(u, env);
    }
  }

  lemma PreparedNotPending(t: State, f: Format)
    requires Prepared(t.bufs, t.block, f, false)
    ensures !t.bufs.respPend
  {
  }

  lemma WaitsFormat(b: Buffers, t: Buffers, f: Format)
    requires Waits(b, t, f)
    ensures t.respPend && FormatOf(t) == f
  {
  }
}
