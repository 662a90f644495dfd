/** Which buffers the application holds: exactly those it acquired and did not give back since the last set-up. */
module Locks {
  import opened Codec
  import opened Model
  import opened Protocol
  import opened StateInvariant
  import opened Handover
  import opened Setup

  /** The held buffers, uplink slots first. */
  function LocksOf(b: Buffers): (r: seq<bool>)
    ensures |r| == UL_SLOTS + DL_SLOTS
  {
    [b.ul[0].locked, b.ul[1].locked, b.dl[0].locked, b.dl[1].locked, b.dl[2].locked]
  }

  // ---------- Single operations ----------

  /** Outside the wait, a downlink release frees its slot, mark included, and touches nothing else. */
  lemma DlReleaseExact(s: State, i: nat, env: Env)
    requires i < DL_SLOTS && !s.bufs.respPend
    ensures var d := s.bufs.dl[i];
            var r := DlRelease(s, i, env);
            && r.s == s.(bufs := s.bufs.(dl := r.s.bufs.dl))
            && (forall k :: 0 <= k < DL_SLOTS && k != i ==> r.s.bufs.dl[k] == s.bufs.dl[k])
            && !r.s.bufs.dl[i].locked
            && (d.locked ==> r.s.bufs.dl[i] == d.(locked := false, xrun := false))
            && (!d.locked ==> r.s.bufs.dl[i] == d)
            && r.res == (if !d.locked then -2 else if d.xrun then -32 else 0)
  {
  }

  /** A slot that is released twice running answers -ENOENT, and one that is acquired in between and was not overrun
      since answers 0. */
  lemma ReleaseTwice(s: State, i: nat, env: Env)
    requires i < DL_SLOTS && !s.bufs.respPend
    ensures var t := DlRelease(s, i, env).s;
            && DlRelease(t, i, env).res == -2 && DlRelease(t, i, env).s == t
            && (s.bufs.dl[i].locked ==>
                  DlRelease(t.(bufs := t.bufs.(dl := t.bufs.dl[i := t.bufs.dl[i].(locked := true)])), i, env).res == 0)
  {
    hide DlUnlocked, DlRelease;
    DlReleaseExact(s, i, env);
    var t := DlRelease(s, i, env).s;
    DlReleaseExact(t, i, env);
    assert DlRelease(t, i, env).s.bufs.dl == t.bufs.dl;
    DlReleaseExact(t.(bufs := t.bufs.(dl := t.bufs.dl[i := t.bufs.dl[i].(locked := true)])), i, env);
  }

  /** What an uplink release answers. */
  function UlAnswer(s: State, res: int, busy: bool): int {
    if s.bufs.ulErrors >= 5 then (if s.bc.ioErrors > 0 then -5 else -16)
    else if s.bc.proto != ActiveDlul then -32
    else if res == 4 then 0
    else if res < 0 && busy then -16
    else -22
  }

  lemma UlSendExact(s: State, i: nat, dataType: bv8, env: Env)
    requires s.bufs.ulErrors < 5 && s.bc.proto == ActiveDlul
    ensures var r := UlSend(s, i, dataType, env);
            && r.res == UlAnswer(s, env.data(s.clock), env.busy(s.clock)) && r.s.clock == s.clock + 1
            && |r.s.tx| == |s.tx| + 1 && r.s.tx[..|s.tx|] == s.tx
            && r.s.tx[|s.tx|].slot == i && (r.s.tx[|s.tx|].accepted <==> r.res == 0)
  {
    hide UlHeader;
  }

  lemma UlUnlockedExact(b: Buffers, i: nat)
    requires i < UL_SLOTS
    ensures var r := UlUnlocked(b, i);
            && r.ul[i] == b.ul[i].(locked := false)
            && (forall k :: 0 <= k < UL_SLOTS && k != i ==> r.ul[k] == b.ul[k])
  {
  }

  /** Outside the wait, an uplink release frees its slot whatever becomes of the frame, and touches no other slot. */
  lemma UlReleaseExact(s: State, i: nat, dataType: bv8, env: Env)
    requires i < UL_SLOTS && !s.bufs.respPend
    ensures var r := UlRelease(s, i, dataType, env);
            var offered := s.bufs.ulErrors < 5 && s.bc.proto == ActiveDlul;
            && r.s.bufs == s.bufs.(ul := r.s.bufs.ul, ulErrors := r.s.bufs.ulErrors)
            && (forall k :: 0 <= k < UL_SLOTS && k != i ==> r.s.bufs.ul[k] == s.bufs.ul[k])
            && r.s.bufs.ul[i] == s.bufs.ul[i].(locked := false)
            && r.s.bc == s.bc && r.s.log == s.log && r.s.line == s.line && r.s.events == s.events
            && r.res == UlAnswer(s, env.data(s.clock), env.busy(s.clock))
            && r.s.clock == s.clock + Flag(offered)
            && |r.s.tx| == |s.tx| + Flag(offered) && r.s.tx[..|s.tx|] == s.tx
            && (offered ==> r.s.tx[|s.tx|].slot == i && (r.s.tx[|s.tx|].accepted <==> r.res == 0))
  {
    hide UlSend, UlUnlocked;
    UlUnlockedExact(s.bufs, i);
    UlUnlockedExact(UlSend(s, i, dataType, env).s.bufs, i);
    if s.bufs.ulErrors < 5 && s.bc.proto == ActiveDlul {
      UlSendExact(s, i, dataType, env);
      hide UlAnswer;
    }
  }

  /** An uplink acquire succeeds exactly for a valid free slot of an active stream, hands out the slot at the cursor,
      locks that slot alone and moves the cursor to the other one. */
  lemma UlAcquireExact(s: State, isNull: bool)
    ensures var b := s.bufs;
            var r := UlAcquire(s, isNull);
            && (r.res == 0 <==>
                  IsActive(s.bc) && b.ulSlot >= 0 && !b.ul[b.ulSlot].invalid && !b.ul[b.ulSlot].locked && !isNull)
            && (r.res != 0 ==> r.s == s && r.res < 0)
            && (r.res == -105 <==> IsActive(s.bc) && b.ulSlot >= 0 && !b.ul[b.ulSlot].invalid && b.ul[b.ulSlot].locked)
            && (r.res == 0 ==>
                  && r.s == s.(bufs := b.(ul := r.s.bufs.ul, ulSlot := 1 - b.ulSlot))
                  && r.s.bufs.ul[b.ulSlot] == b.ul[b.ulSlot].(frameFlags := 0, locked := true)
                  && r.s.bufs.ul[1 - b.ulSlot] == b.ul[1 - b.ulSlot])
  {
  }

  /** The downlink slot at the application's pointer, after a resync if the driver has lapped it. */
  function DlSlot(s: State): (k: nat)
    ensures k < DL_SLOTS
  {
    (if Overrun(s) then s.bufs.rxHw else s.bufs.rxAppl) % DL_SLOTS
  }

  /** A downlink acquire that succeeds locks exactly the slot at the pointer and marks it as a valid frame (2); one that
      fails locks nothing. In a ramp test the first frame ends the test. */
  lemma DlAcquireExact(s: State, header: Octets, isNull: bool)
    ensures var k := DlSlot(s);
            var r := DlAcquire(s, header, isNull);
            && (r.res != 0 ==> r.res < 0 && r.s.bufs.dl == s.bufs.dl && r.s.bc == s.bc)
            && (r.res == 0 ==>
                  && r.s.bufs.dl[k].locked && r.s.bufs.dl[k].frameFlags == 2 && !s.bufs.dl[k].invalid
                  && r.s.bufs.dl[k] == s.bufs.dl[k].(frameFlags := 2, spcFlags := r.s.bufs.dl[k].spcFlags,
                                                     rateInfo := r.s.bufs.dl[k].rateInfo, locked := true)
                  && (forall j :: 0 <= j < DL_SLOTS && j != k ==> r.s.bufs.dl[j] == s.bufs.dl[j])
                  && r.s.bc == if s.bc.proto == TestRampPingActive then s.bc.(proto := Disconnected, priv := InSync)
                               else s.bc)
  {
    hide RxDelay, RxAvail, DlFields;
  }
  /** Without the driver's rolling pointers there is no test of availability: the slots are handed out in turn. */
  lemma NonRollingAcquire(s: State, header: Octets, isNull: bool)
    requires !s.bufs.rolling && s.bufs.rxAppl >= 0
    ensures var r := DlAcquire(s, header, isNull);
            && DlSlot(s) == s.bufs.rxAppl % 3 && r.s.bufs.rxAppl == (s.bufs.rxAppl + 1) % 3
            && (r.res == 0 <==> !s.bufs.dl[s.bufs.rxAppl % 3].invalid && !isNull)
  {
    hide RxDelay, RxAvail, DlLock;
  }

  // ---------- Steps ----------

  predicate AcquiredDl(s: State, input: Input) {
    input.AcquireDl? && DlAcquire(s, input.header, input.isNull).res == 0
  }

  predicate AcquiredUl(s: State, input: Input) {
    input.AcquireUl? && UlAcquire(s, input.isNull).res == 0
  }

  const NONE_HELD := [false, false, false, false, false]

  /** What a step does to the held buffers: acquires lock, releases unlock, set-ups and resets unlock all, and a new
      sample layout unlocks the downlink. */
  function LocksAfter(s: State, input: Input): seq<bool>
    requires Legal(input)
  {
    var l := LocksOf(s.bufs);
    if Clears(s, input) || RepliesNow(s, input) then NONE_HELD
    else if Revalidates(s, input) then [l[0], l[1], false, false, false]
    else if AcquiredDl(s, input) then l[2 + DlSlot(s) := true]
    else if AcquiredUl(s, input) then (if s.bufs.ulSlot < 0 then l else l[s.bufs.ulSlot := true])
    else
      match input
      case ReleaseDl(i) => l[2 + i := false]
      case ReleaseUl(i, _) => l[i := false]
      case _ => l
  }

  lemma SetupLocks(s: State, t: State, input: Input, env: Env)
    requires Legal(input) && SetupStep(s, t, input, env)
    requires Clears(s, input) || RepliesNow(s, input) || input.Message? || input.CallChange? || input.AppTimingRequest? ||
             input.FetchEvent? || input.FrameWritten?
    ensures LocksOf(t.bufs) == LocksAfter(s, input)
  {
    hide Closing, LastRelease, Locked;
    if Clears(s, input) {
    } else if RepliesNow(s, input) {
    } else {
    }
  }

  lemma AcquireDlLocks(s: State, header: Octets, isNull: bool)
    ensures LocksOf(DlAcquire(s, header, isNull).s.bufs) == LocksAfter(s, AcquireDl(header, isNull))
  {
    hide DlAcquire, DlSlot;
    DlAcquireExact(s, header, isNull);
  }

  lemma AcquireUlLocks(s: State, isNull: bool)
    ensures LocksOf(UlAcquire(s, isNull).s.bufs) == LocksAfter(s, AcquireUl(isNull))
  {
    hide UlAcquire;
    UlAcquireExact(s, isNull);
  }

  lemma ReleaseDlLocks(s: State, i: nat, env: Env)
    requires i < DL_SLOTS && !LastRelease(s, ReleaseDl(i))
    ensures LocksOf(DlRelease(s, i, env).s.bufs) == LocksAfter(s, ReleaseDl(i))
  {
    if s.bufs.respPend {
      hide SetupAndReply, Locked, Clears, RepliesNow, Revalidates;
    } else {
      hide DlRelease, LastRelease;
      DlReleaseExact(s, i, env);
    }
  }

  lemma UlUnlockedLocks(b: Buffers, i: nat)
    requires i < UL_SLOTS
    ensures LocksOf(UlUnlocked(b, i)) == LocksOf(b)[i := false]
  {
  }

  lemma ReleaseUlLocks(s: State, i: nat, dataType: bv8, env: Env)
    requires i < UL_SLOTS && !LastRelease(s, ReleaseUl(i, dataType))
    ensures LocksOf(UlRelease(s, i, dataType, env).s.bufs) == LocksAfter(s, ReleaseUl(i, dataType))
  {
    hide SetupAndReply, Locked, UlUnlocked, UlSend, LocksOf;
    var b := UlSend(s, i, dataType, env).s.bufs;
    UlUnlockedLocks(s.bufs, i);
    UlUnlockedLocks(b, i);
    LocksByDescs(s.bufs, b);
  }

  lemma LocksByDescs(a: Buffers, b: Buffers)
    requires a.dl == b.dl && a.ul == b.ul
    ensures LocksOf(a) == LocksOf(b)
  {
  }

  lemma NotifyLocks(s: State, hw: nat)
    ensures LocksOf(Notify(s, hw).bufs) == LocksOf(s.bufs)
  {
    hide Overrun;
  }

  /** After every step the held buffers are exactly those. */
  lemma StepLocks(s: State, input: Input, env: Env)
    requires Legal(input) && Consistent(s.bc)
    ensures LocksOf(Step(s, input, env).bufs) == LocksAfter(s, input)
  {
    hide SetupStep, Receive, CallStatus, Notify, DlAcquire, UlAcquire, DlRelease, UlRelease, SendReset, AfterPeerReset,
      LocksOf, LocksAfter, LastRelease, Clears, Locked;
    if input.AcquireDl? {
      AcquireDlLocks(s, input.header, input.isNull);
    } else if input.AcquireUl? {
      AcquireUlLocks(s, input.isNull);
    } else if input.FrameNotified? {
      NotifyLocks(s, input.hw);
      NotifyKeepsLocks(s, input.hw);
    } else if input.ReleaseDl? && !LastRelease(s, input) {
      ReleaseDlLocks(s, input.i, env);
    } else if input.ReleaseUl? && !LastRelease(s, input) {
      ReleaseUlLocks(s, input.i, input.dataType, env);
    } else {
      hide Step;
      ResetKinds(s, input);
      StepSetup(s, input, env);
      SetupLocks(s, Step(s, input, env), input, env);
    }
  }

  lemma ResetKinds(s: State, input: Input)
    ensures input.DriverFailure? || input.AppReset? ==> Clears(s, input)
  {
  }

  lemma NotifyKeepsLocks(s: State, hw: nat)
    requires hw < 0x100_0000
    ensures LocksAfter(s, FrameNotified(hw)) == LocksOf(s.bufs)
  {
  }

  // ---------- Runs ----------

  predicate SetsUp(s: State, input: Input) {
    Clears(s, input) || RepliesNow(s, input) || Revalidates(s, input)
  }

  /** The step acquires a buffer that was free. */
  predicate Takes(s: State, input: Input) {
    AcquiredUl(s, input) || (AcquiredDl(s, input) && !s.bufs.dl[DlSlot(s)].locked)
  }

  function Total(l: seq<bool>): nat
    requires |l| == UL_SLOTS + DL_SLOTS
  {
    Flag(l[0]) + Flag(l[1]) + Flag(l[2]) + Flag(l[3]) + Flag(l[4])
  }

  lemma CountLocks(b: Buffers)
    ensures Locked(b) == Total(LocksOf(b))
  {
  }

  lemma LockAt(b: Buffers, k: nat)
    ensures k < UL_SLOTS ==> LocksOf(b)[k] == b.ul[k].locked
    ensures k < DL_SLOTS ==> LocksOf(b)[2 + k] == b.dl[k].locked
  {
  }

  lemma TotalUpdate(l: seq<bool>, i: nat, v: bool)
    requires |l| == UL_SLOTS + DL_SLOTS && i < |l|
    ensures Total(l[i := v]) + Flag(l[i]) == Total(l) + Flag(v)
  {
  }

  lemma LocksAfterTotal(s: State, input: Input)
    requires Legal(input) && !SetsUp(s, input)
    ensures Total(LocksAfter(s, input)) + Flag(ReleasesLocked(s, input)) == Total(LocksOf(s.bufs)) + Flag(Takes(s, input))
  {
    hide Clears, RepliesNow, Revalidates, DlSlot, DlAcquire, UlAcquire, LocksOf, Total;
    var l := LocksOf(s.bufs);
    match input
    case AcquireDl(_, _) =>
      LockAt(s.bufs, DlSlot(s));
      TotalUpdate(l, 2 + DlSlot(s), true);
    case AcquireUl(isNull) =>
      UlAcquireExact(s, isNull);
      if s.bufs.ulSlot >= 0 {
        LockAt(s.bufs, s.bufs.ulSlot);
        TotalUpdate(l, s.bufs.ulSlot, true);
      }
    case ReleaseDl(i) =>
      LockAt(s.bufs, i);
      TotalUpdate(l, 2 + i, false);
    case ReleaseUl(i, _) =>
      LockAt(s.bufs, i);
      TotalUpdate(l, i, false);
    case _ =>
  }

  lemma StepCount(s: State, input: Input, env: Env)
    requires Legal(input) && Consistent(s.bc) && !SetsUp(s, input)
    ensures Locked(Step(s, input, env).bufs) + Flag(ReleasesLocked(s, input)) == Locked(s.bufs) + Flag(Takes(s, input))
  {
    hide Step, Locked, SetsUp, Takes, ReleasesLocked, LocksOf, LocksAfter, Total;
    StepLocks(s, input, env);
    CountLocks(s.bufs);
    CountLocks(Step(s, input, env).bufs);
    LocksAfterTotal(s, input);
  }

  /** Acquires of free buffers minus releases of held ones. */
  function Balance(states: seq<State>, inputs: seq<Input>, first: nat, last: nat): int
    requires |states| == |inputs| + 1 && first <= last <= |inputs|
    decreases last
  {
    if first == last then 0
    else
      Balance(states, inputs, first, last - 1)
      + Flag(Takes(states[last - 1], inputs[last - 1])) - Flag(ReleasesLocked(states[last - 1], inputs[last - 1]))
  }

  /** Between set-ups the number of held buffers follows the acquires and releases. */
  lemma {:induction false} HeldBuffers(states: seq<State>, inputs: seq<Input>, env: Env, first: nat, last: nat)
    requires Run(states, inputs, env) && Opened(states[0]) && first <= last <= |inputs|
    requires forall j :: first <= j < last ==> !SetsUp(states[j], inputs[j])
    ensures Locked(states[last].bufs) == Locked(states[first].bufs) + Balance(states, inputs, first, last)
    decreases last
  {
    hide Step, Locked, SetsUp, Takes, ReleasesLocked;
    if first < last {
      HeldBuffers(states, inputs, env, first, last - 1);
      AlwaysConsistent(states, inputs, env, last - 1);
      StepCount(states[last - 1], inputs[last - 1], env);
    }
  }

  /** Since a set-up or reset, the held buffers are the acquires of free buffers minus the releases. */
  lemma HeldSinceSetup(states: seq<State>, inputs: seq<Input>, env: Env, setup: nat, last: nat)
    requires Run(states, inputs, env) && Opened(states[0]) && setup < last <= |inputs|
    requires Clears(states[setup], inputs[setup]) || RepliesNow(states[setup], inputs[setup])
    requires forall j :: setup < j < last ==> !SetsUp(states[j], inputs[j])
    ensures Locked(states[last].bufs) == Balance(states, inputs, setup + 1, last)
  {
    AlwaysConsistent(states, inputs, env, setup);
    StepLocks(states[setup], inputs[setup], env);
    CountLocks(states[setup + 1].bufs);
    hide Step, Locked, SetsUp, Takes, ReleasesLocked, Clears, RepliesNow;
    HeldBuffers(states, inputs, env, setup + 1, last);
  }

  // ---------- The uplink cursor ----------

  /** Uplink buffers handed out since the last set-up or reset. */
  function HandedOut(states: seq<State>, inputs: seq<Input>, n: nat): nat
    requires |states| == |inputs| + 1 && n <= |inputs|
  {
    if n == 0 then 0
    else if Clears(states[n - 1], inputs[n - 1]) || RepliesNow(states[n - 1], inputs[n - 1]) then 0
    else HandedOut(states, inputs, n - 1) + Flag(AcquiredUl(states[n - 1], inputs[n - 1]))
  }

  lemma StepCursor(s: State, input: Input, env: Env)
    requires Legal(input) && Consistent(s.bc)
    ensures var c := Step(s, input, env).bufs.ulSlot;
            if Clears(s, input) || RepliesNow(s, input) then c == -1 || c == 0
            else if AcquiredUl(s, input) then s.bufs.ulSlot >= 0 && c == 1 - s.bufs.ulSlot
            else c == s.bufs.ulSlot
  {
    StepSetup(s, input, env);
    if input.AcquireUl? {
      UlAcquireExact(s, input.isNull);
      hide UlAcquire, Clears;
    } else {
      hide Step, Clears, RepliesNow, LastRelease, Closing, SameSlot, LaidOut, Ready, Unused;
    }
  }

  /** The k-th uplink buffer after a set-up is slot k modulo 2. */
  lemma {:induction false} CursorAlternates(states: seq<State>, inputs: seq<Input>, env: Env, n: nat)
    requires Run(states, inputs, env) && Opened(states[0]) && n < |states|
    ensures states[n].bufs.ulSlot == -1 || states[n].bufs.ulSlot == HandedOut(states, inputs, n) % 2
  {
    hide Step, Clears, RepliesNow, AcquiredUl;
    if n > 0 {
      CursorAlternates(states, inputs, env, n - 1);
      AlwaysConsistent(states, inputs, env, n - 1);
      StepCursor(states[n - 1], inputs[n - 1], env);
    }
  }
}
