/** What the releases that a postponed reply waits for lead to, in whatever order they come. */
module Owed {
  import opened Codec
  import opened Model
  import opened Protocol
  import opened Handover

  function Freed(b: Buffers, input: Input): Buffers {
    match input
    case ReleaseDl(i) => if i < DL_SLOTS then DlUnlocked(b, i) else b
    case ReleaseUl(i, _) => if i < UL_SLOTS then UlUnlocked(b, i) else b
    case _ => b
  }

  lemma FreedOne(s: State, input: Input)
    requires ReleasesLocked(s, input)
    ensures var b := Freed(s.bufs, input);
            && Locked(b) + 1 == Locked(s.bufs)
            && b == s.bufs.(dl := b.dl, ul := b.ul)
  {
  }

  /** A release during the wait gives back one buffer, and the last one replies. */
  lemma OneRelease(s: State, input: Input, env: Env)
    requires s.bufs.respPend && ReleasesLocked(s, input)
    ensures Step(s, input, env) == ReleasedDuringChange(s.(bufs := Freed(s.bufs, input)), env)
  {
    hide ReleasedDuringChange, DlUnlocked, UlUnlocked;
  }

  /** A release during the wait answers 0, whatever becomes of the reply and whatever mark the descriptor has; only a
      downlink slot that is not held is refused with -ENOENT (-2). */
  lemma WaitAnswers(s: State, i: nat, dataType: bv8, env: Env)
    requires s.bufs.respPend
    ensures i < DL_SLOTS ==> DlRelease(s, i, env).res == if s.bufs.dl[i].locked then 0 else -2
    ensures i < UL_SLOTS ==> UlRelease(s, i, dataType, env).res == 0
  {
    hide ReleasedDuringChange, DlUnlocked, UlUnlocked;
  }

  /** The inputs release a held buffer each. */
  predicate Releasing(s: State, inputs: seq<Input>, env: Env)
    decreases |inputs|
  {
    inputs == [] || (ReleasesLocked(s, inputs[0]) && Releasing(Step(s, inputs[0], env), inputs[1..], env))
  }

  function After(s: State, inputs: seq<Input>, env: Env): State
    requires Releasing(s, inputs, env)
    decreases |inputs|
  {
    if inputs == [] then s else After(Step(s, inputs[0], env), inputs[1..], env)
  }

  /** The inputs are what a postponed reply still waits for; nothing if none is postponed. */
  predicate Owes(s: State, inputs: seq<Input>, env: Env) {
    Releasing(s, inputs, env) && |inputs| == if s.bufs.respPend then Locked(s.bufs) else 0
  }

  /** However the held buffers come back, in the end the reply is attempted on the state as it was, all unlocked. */
  lemma {:induction false} OwedReplies(s: State, inputs: seq<Input>, env: Env) returns (u: State)
    requires s.bufs.respPend && Locked(s.bufs) > 0 && Owes(s, inputs, env)
    ensures Locked(u.bufs) == 0 && u == s.(bufs := s.bufs.(dl := u.bufs.dl, ul := u.bufs.ul))
    ensures After(s, inputs, env) == SetupAndReply(u, env).s ||
            After(s, inputs, env) == (var r := SetupAndReply(u, env).s; r.(bufs := Invalidate(r.bufs)))
    ensures SetupAndReply(u, env).res == 0 ==> After(s, inputs, env) == SetupAndReply(u, env).s
    decreases |inputs|
  {
    hide Step, SetupAndReply, Locked, Freed, ReleasesLocked, Invalidate;
    OneRelease(s, inputs[0], env);
    FreedOne(s, inputs[0]);
    var t := s.(bufs := Freed(s.bufs, inputs[0]));
    if Locked(t.bufs) == 0 {
      u := t;
    } else {
      u := OwedReplies(t, inputs[1..], env);
    }
  }

  lemma SomeHeld(s: State) returns (input: Input)
    requires Locked(s.bufs) > 0
    ensures ReleasesLocked(s, input)
  {
    input := if s.bufs.ul[0].locked then ReleaseUl(0, 0) else if s.bufs.ul[1].locked then ReleaseUl(1, 0)
             else if s.bufs.dl[0].locked then ReleaseDl(0) else if s.bufs.dl[1].locked then ReleaseDl(1)
             else ReleaseDl(2);
  }

  lemma ReleasingFirst(s: State, input: Input, rest: seq<Input>, env: Env)
    requires ReleasesLocked(s, input) && Releasing(Step(s, input, env), rest, env)
    ensures Releasing(s, [input] + rest, env)
  {
    hide Step, ReleasesLocked;
    assert ([input] + rest)[1..] == rest;
  }

  /** There is always a way to give everything back. */
  lemma {:induction false} OwedExists(s: State, env: Env) returns (inputs: seq<Input>)
    requires s.bufs.respPend && Locked(s.bufs) > 0
    ensures Owes(s, inputs, env)
    decreases Locked(s.bufs)
  {
    hide Step, SetupAndReply, Locked, Freed, ReleasesLocked;
    var input := SomeHeld(s);
    OneRelease(s, input, env);
    FreedOne(s, input);
    var t := s.(bufs := Freed(s.bufs, input));
    var rest := [];
    if Locked(t.bufs) > 0 {
      rest := OwedExists(t, env);
    }
    ReleasingFirst(s, input, rest, env);
    inputs := [input] + rest;
  }
}
