/** Where the descriptors point, in every state of every run. */
module Placement {
  import opened Codec
  import opened Model
  import opened Protocol
  import opened StateInvariant
  import opened Handover
  import opened Setup
  import opened Traffic

  /** The descriptor is the one of its slot, and its payload starts four octets into its data. */
  predicate At(d: Desc, index: nat, data: Addr) {
    && d.index == index && d.data == data
    && (match data
        case Null => false
        case Mmap(o) => d.payload == Mmap(o + 4)
        case SwapBuffer(o) => d.payload == SwapBuffer(o + 4))
  }

  predicate UlPlaced(d: Desc, index: nat, k: Block)
    requires index < UL_SLOTS
  {
    d.invalid || At(d, index, Mmap(k.txOffsets[index]))
  }

  /** A downlink slot is the driver's, until an SSI answer moves it for the sample layout. */
  predicate DlPlaced(d: Desc, index: nat, k: Block, stale: DlOffsets)
    requires index < DL_SLOTS
  {
    || d.invalid
    || At(d, index, Mmap(k.rxOffsets[index]))
    || At(d, index, SwapBuffer(index * d.count))
    || At(d, index, Mmap(stale[index]))
  }

  /** Every valid descriptor points to its own slot. */
  predicate Placed(s: State) {
    && UlPlaced(s.bufs.ul[0], 0, s.block) && UlPlaced(s.bufs.ul[1], 1, s.block)
    && DlPlaced(s.bufs.dl[0], 0, s.block, s.staleRxOffsets) && DlPlaced(s.bufs.dl[1], 1, s.block, s.staleRxOffsets)
    && DlPlaced(s.bufs.dl[2], 2, s.block, s.staleRxOffsets)
  }

  lemma SetupPlaced(t: State, f: Format, invalid: bool)
    requires Cleared(t.bufs) || Prepared(t.bufs, t.block, f, invalid)
    ensures Placed(t)
  {
  }

  lemma SlotsPlaced(s: State, t: State)
    requires Placed(s) && SameDescs(s.bufs, t.bufs) && t.staleRxOffsets == s.staleRxOffsets
    requires t.block.rxOffsets == s.block.rxOffsets && t.block.txOffsets == s.block.txOffsets
    ensures Placed(t)
  {
  }

  lemma WaitPlaced(s: State, t: State, f: Format)
    requires Waits(s.bufs, t.bufs, f)
    ensures Placed(t)
  {
  }

  lemma RelaidPlaced(s: State, t: State)
    requires Placed(s) && Relaid(s, t) && t.block == s.block && t.staleRxOffsets == s.staleRxOffsets
    ensures Placed(t)
  {
  }

  lemma DescsAlike(b: Buffers)
    ensures SameDescs(b, b)
  {
  }

  lemma StepPlaced(s: State, input: Input, env: Env)
    requires Legal(input) && Consistent(s.bc) && Placed(s)
    ensures Placed(Step(s, input, env))
  {
    hide Step, Clears, RepliesNow, Closing, LastRelease, Cleared, Prepared, SameDescs, Placed, Revalidates, Waits, Relaid;
    StepSetup(s, input, env);
    StepTraffic(s, input, env);
    var t := Step(s, input, env);
    DescsAlike(s.bufs);
    if Cleared(t.bufs) {
      SetupPlaced(t, Asked(s, input), false);
    } else if Prepared(t.bufs, t.block, Asked(s, input), false) {
      SetupPlaced(t, Asked(s, input), false);
    } else if Prepared(t.bufs, t.block, Asked(s, input), true) {
      SetupPlaced(t, Asked(s, input), true);
    } else if Waits(s.bufs, t.bufs, Asked(s, input)) {
      WaitPlaced(s, t, Asked(s, input));
    } else if t.block == s.block && Relaid(s, t) {
      RelaidPlaced(s, t);
    } else {
      if input.AcquireUl? {
        SameDescsAlone(s.bufs, t.bufs.(ulSlot := s.bufs.ulSlot), t.bufs);
      }
      SlotsPlaced(s, t);
    }
  }

  /** Over every run, with whatever fails, every valid descriptor points to its own slot. */
  lemma {:induction false} AlwaysPlaced(states: seq<State>, inputs: seq<Input>, env: Env, n: nat)
    requires Run(states, inputs, env) && Opened(states[0]) && n < |states|
    ensures Placed(states[n])
  {
    hide Step;
    if n > 0 {
      AlwaysPlaced(states, inputs, env, n - 1);
      AlwaysConsistent(states, inputs, env, n - 1);
      StepPlaced(states[n - 1], inputs[n - 1], env);
    }
  }
}
