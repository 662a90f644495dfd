/** The library against a modem that answers every SSI_CONFIG_REQ, over two octet channels. */
module TwoParty {
  import opened Codec
  import opened Model
  import opened Protocol
  import opened StateInvariant
  import opened Wakeline

  /** The library, the two channels (oldest word first), the modem's link and the last call status. */
  datatype World = World(ape: State, up: seq<Octets>, down: seq<Octets>, link: bool, call: bool)

  datatype Action = ReportCall(active: bool) | ModemAnswers(layout: bv8) | LibraryReads

  /** The words that reached the modem among the writes logged after the first n. */
  function Wire(log: seq<Sent>, n: nat): seq<Octets> {
    if |log| <= n then []
    else
      var last := log[|log| - 1];
      Wire(log[..|log| - 1], n) + (if last.res == CTRL_LEN then [Encode(last.msg)] else [])
  }

  predicate IsRequest(x: Octets) {
    Decode(x).Some? && Decode(x).value.SsiConfigReq?
  }

  predicate Wants(x: Octets) {
    IsRequest(x) && Decode(x).value.state == 1
  }

  predicate IsSuccess(x: Octets) {
    Decode(x).Some? && Decode(x).value.SsiConfigResp? && Decode(x).value.result == SSI_CONFIG_RES_SUCCESS
  }

  predicate Enabled(w: World, a: Action) {
    match a
    case ReportCall(_) => true
    case ModemAnswers(_) => w.up != [] && IsRequest(w.up[0])
    case LibraryReads => w.down != [] && Decode(w.down[0]).Some? && !Decode(w.down[0]).value.TestRampPing?
  }

  function Library(w: World, input: Input, env: Env): World
    requires Legal(input)
  {
    var t := Step(w.ape, input, env);
    w.(ape := t, up := w.up + Wire(t.log, |w.ape.log|))
  }

  function Act(w: World, a: Action, env: Env): World
    requires Enabled(w, a)
  {
    match a
    case ReportCall(active) => Library(w.(call := active), CallChange(active), env)
    case ModemAnswers(layout) =>
      w.(up := w.up[1..], link := Wants(w.up[0]),
         down := w.down + [Encode(SsiConfigResp(layout, SSI_CONFIG_RES_SUCCESS))])
    case LibraryReads =>
      Library(w.(down := w.down[1..]), Message(Decode(w.down[0]).value), env)
  }

  /** The link state once the modem has answered everything under way. */
  predicate FinalLink(w: World) {
    if w.up == [] then w.link else Wants(w.up[|w.up| - 1])
  }

  predicate Channels(w: World) {
    && (forall i :: 0 <= i < |w.up| ==> IsRequest(w.up[i]))
    && (forall i :: 0 <= i < |w.down| ==> IsSuccess(w.down[i]))
  }

  predicate Negotiation(bc: Backend, final: bool) {
    match bc.priv
    case InSync => final == bc.serverActive && bc.proto == if bc.serverActive then Connected else Disconnected
    case Connecting => bc.proto == Disconnected && bc.serverActive && final
    case Disconnecting => bc.proto == Connected && !bc.serverActive && !final
    case SsiConfigPend => final != bc.serverActive && bc.proto == if bc.serverActive then Connected else Disconnected
    case _ => false
  }

  predicate Good(w: World) {
    && Channels(w)
    && w.ape.bufs.slotSize == 0
    && w.ape.bc.serverActive == w.call
    && Negotiation(w.ape.bc, FinalLink(w))
    && (w.ape.bc.priv != InSync ==> |w.up| + |w.down| > 0)
  }

  lemma RequestOnWire(layout: bv8, version: bv8, state: bv8)
    requires state <= 1
    ensures var x := Encode(SsiConfigReq(layout, version, state)); IsRequest(x) && (Wants(x) <==> state == 1)
  {
    DecodeEncode(SsiConfigReq(layout, version, state));
  }

  lemma SuccessOnWire(layout: bv8)
    ensures IsSuccess(Encode(SsiConfigResp(layout, SSI_CONFIG_RES_SUCCESS)))
  {
    DecodeEncode(SsiConfigResp(layout, SSI_CONFIG_RES_SUCCESS));
  }

  /** Under a healthy driver, a request is written once and nothing else is. */
  lemma SsiOnWire(s: State, up: bool, env: Env)
    requires Healthy(env)
    ensures var r := SendSsi(s, up, env);
            if !up && s.bc.priv == Disconnecting then r.s == s
            else Wire(r.s.log, |s.log|) == [Encode(SsiRequest(s.bc, up))] && r.res == 0
  {
    hide AcquireWakeline, Encode;
    var r := SendSsi(s, up, env);
    if up || s.bc.priv != Disconnecting {
      assert r.s.log[..|r.s.log| - 1] == s.log;
    }
  }

  /** At most one request is written, and the negotiation then waits for the outcome of the last one. */
  predicate Renegotiated(s: State, t: State, final: bool) {
    var x := Wire(t.log, |s.log|);
    && t.bufs == s.bufs
    && (if x == [] then Negotiation(t.bc, final)
        else |x| == 1 && IsRequest(x[0]) && Negotiation(t.bc, Wants(x[0])))
  }

  lemma NoWire(log: seq<Sent>)
    ensures Wire(log, |log|) == []
  {
  }

  lemma CallNegotiates(s: State, active: bool, env: Env, final: bool)
    requires Healthy(env) && Negotiation(s.bc, final)
    ensures var t := CallStatus(s, active, env);
            && Renegotiated(s, t, final) && t.bc.serverActive == active
            && (t.bc.priv != InSync && s.bc.priv == InSync ==> Wire(t.log, |s.log|) != [])
  {
    hide SendSsi, SendReset, RequestReset, Wire, Encode, IsRequest, Wants;
    NoWire(s.log);
    SsiOnWire(s, active, env);
    RequestOnWire(SAMPLE_LAYOUT_INORDER_LE, s.bc.version, if active then 1 else 0);
    if active {
      if s.bc.proto.Disconnected? {} else {}
    } else {
      if s.bc.proto.Connected? {} else {}
    }
  }

  lemma AnswerNegotiates(s: State, layout: bv8, env: Env, final: bool)
    requires Healthy(env) && Negotiation(s.bc, final) && s.bufs.slotSize == 0
    ensures var t := SsiResponded(s, layout, SSI_CONFIG_RES_SUCCESS, env);
            && Renegotiated(s, t, final) && t.bc.serverActive == s.bc.serverActive
            && (if s.bc.priv == SsiConfigPend then t.bc.priv != SsiConfigPend && Wire(t.log, |s.log|) != []
                else t.bc.priv == InSync && Wire(t.log, |s.log|) == [])
  {
    hide SendSsi, ReleaseWakeline, Wire, Encode, IsRequest, Wants, UpdateDlDescs;
    NoWire(s.log);
    SsiOnWire(s, s.bc.serverActive, env);
    RequestOnWire(SAMPLE_LAYOUT_INORDER_LE, s.bc.version, if s.bc.serverActive then 1 else 0);
  }

  lemma LibraryGood(w: World, t: State)
    requires Channels(w) && w.ape.bufs.slotSize == 0 && Renegotiated(w.ape, t, FinalLink(w))
    requires t.bc.serverActive == w.call
    requires t.bc.priv != InSync ==> |w.up| + |w.down| + |Wire(t.log, |w.ape.log|)| > 0
    ensures Good(w.(ape := t, up := w.up + Wire(t.log, |w.ape.log|)))
  {
    hide Wire, IsRequest, Wants, IsSuccess, Negotiation;
  }

  lemma ReportGood(w: World, active: bool, env: Env)
    requires Healthy(env) && Good(w)
    ensures Good(Act(w, ReportCall(active), env))
  {
    hide CallStatus, Wire, IsRequest, Wants, IsSuccess, Negotiation;
    CallNegotiates(w.ape, active, env, FinalLink(w));
    LibraryGood(w.(call := active), CallStatus(w.ape, active, env));
  }

  lemma ReceiveAnswer(s: State, x: Octets, env: Env)
    requires IsSuccess(x)
    ensures var m := Decode(x).value;
            var t := Step(s, Message(m), env);
            var u := SsiResponded(s, m.layout, SSI_CONFIG_RES_SUCCESS, env);
            t.bc == u.bc && t.bufs == u.bufs && t.log == u.log
  {
    hide SsiResponded, Decode;
  }

  lemma ReadGood(w: World, env: Env)
    requires Healthy(env) && Good(w) && Enabled(w, LibraryReads)
    ensures Good(Act(w, LibraryReads, env))
  {
    hide SsiResponded, Step, Wire, Decode, Negotiation, IsRequest, Wants;
    assert IsSuccess(w.down[0]);
    var m := Decode(w.down[0]).value;
    ReceiveAnswer(w.ape, w.down[0], env);
    AnswerNegotiates(w.ape, m.layout, env, FinalLink(w));
    var w1 := w.(down := w.down[1..]);
    assert Channels(w1) && FinalLink(w1) == FinalLink(w);
    LibraryGood(w1, Step(w.ape, Message(m), env));
  }

  lemma AnswerGood(w: World, layout: bv8, env: Env)
    requires Good(w) && Enabled(w, ModemAnswers(layout))
    ensures Good(Act(w, ModemAnswers(layout), env))
  {
    hide Step, Negotiation, IsSuccess, Encode, Decode;
    SuccessOnWire(layout);
  }

  lemma ActGood(w: World, a: Action, env: Env)
    requires Healthy(env) && Good(w) && Enabled(w, a)
    ensures Good(Act(w, a, env))
  {
    hide Act, Good;
    match a
    case ReportCall(active) => ReportGood(w, active, env);
    case ModemAnswers(layout) => AnswerGood(w, layout, env);
    case LibraryReads => ReadGood(w, env);
  }

  /** A freshly opened library, a closed link, empty channels and no call. */
  predicate Initial(w: World) {
    Opened(w.ape) && w.up == [] && w.down == [] && !w.link && !w.call
  }

  ghost predicate History(worlds: seq<World>, actions: seq<Action>, env: Env) {
    && |worlds| == |actions| + 1
    && forall i :: 0 <= i < |actions| ==> Enabled(worlds[i], actions[i]) && worlds[i + 1] == Act(worlds[i], actions[i], env)
  }

  lemma {:induction false} AlwaysGood(worlds: seq<World>, actions: seq<Action>, env: Env, n: nat)
    requires Healthy(env) && History(worlds, actions, env) && Good(worlds[0]) && n < |worlds|
    ensures Good(worlds[n])
  {
    hide Act, Good;
    if n > 0 {
      AlwaysGood(worlds, actions, env, n - 1);
      ActGood(worlds[n - 1], actions[n - 1], env);
    }
  }

  predicate Settled(w: World) {
    w.up == [] && w.down == []
  }

  /** Both sides and the last reported call status agree. */
  predicate Agreed(w: World) {
    && w.ape.bc.priv == InSync
    && (w.ape.bc.proto == Connected <==> w.link)
    && (w.ape.bc.proto == Connected <==> w.call)
  }

  /** Whenever both channels are empty, the library, the modem and the call status agree. */
  lemma Agreement(worlds: seq<World>, actions: seq<Action>, env: Env, n: nat)
    requires Healthy(env) && History(worlds, actions, env) && Initial(worlds[0]) && n < |worlds|
    requires Settled(worlds[n])
    ensures Agreed(worlds[n])
  {
    hide Act;
    AlwaysGood(worlds, actions, env, n);
  }

  // ---------- Draining ----------

  /** Deliveries still to come: two per request, one per answer, and two for a deferred request. */
  function Outstanding(w: World): nat {
    2 * |w.up| + |w.down| + (if w.ape.bc.priv == SsiConfigPend then 2 else 0)
  }

  lemma DeliveryCounts(w: World, a: Action, env: Env)
    requires Healthy(env) && Good(w) && Enabled(w, a) && !a.ReportCall?
    ensures Outstanding(Act(w, a, env)) + 1 == Outstanding(w)
  {
    match a
    case ModemAnswers(layout) => hide Step, Decode, Encode;
    case LibraryReads =>
      assert IsSuccess(w.down[0]);
      ReceiveAnswer(w.ape, w.down[0], env);
      AnswerNegotiates(w.ape, Decode(w.down[0]).value.layout, env, FinalLink(w));
      hide SsiResponded, Step, Wire, Decode, Negotiation, IsRequest, Wants, IsSuccess;
  }

  /** While anything is outstanding, some delivery can happen. */
  lemma DeliveryEnabled(w: World)
    requires Good(w) && Outstanding(w) > 0
    ensures Enabled(w, LibraryReads) || forall layout :: Enabled(w, ModemAnswers(layout))
  {
    hide Decode, Negotiation;
  }

  /** Once the call status stops changing, every run takes exactly the outstanding number of deliveries to settle. */
  lemma {:induction false} Drains(worlds: seq<World>, actions: seq<Action>, env: Env, first: nat, n: nat)
    requires Healthy(env) && History(worlds, actions, env) && Initial(worlds[0]) && first <= n < |worlds|
    requires forall i :: first <= i < n ==> !actions[i].ReportCall?
    ensures Outstanding(worlds[n]) + (n - first) == Outstanding(worlds[first])
    ensures n - first == Outstanding(worlds[first]) <==> Settled(worlds[n])
    ensures Settled(worlds[n]) ==> Agreed(worlds[n])
    decreases n
  {
    hide Act, Enabled;
    AlwaysGood(worlds, actions, env, n);
    if first < n {
      Drains(worlds, actions, env, first, n - 1);
      AlwaysGood(worlds, actions, env, n - 1);
      DeliveryCounts(worlds[n - 1], actions[n - 1], env);
    }
  }
}
