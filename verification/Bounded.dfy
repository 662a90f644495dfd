/** Bounded queues. */
module Bounded {
  /** A queue that forgets its oldest entry when it is full. */
  function Pushed<T>(q: seq<T>, e: T, capacity: nat): (r: seq<T>)
    requires capacity > 0
    ensures |q| <= capacity ==> |r| <= capacity
  {
    if |q| < capacity then q + [e] else q[1..] + [e]
  }
}
