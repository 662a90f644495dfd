/** The in-place halfword swap of nokiamodem's swapped sample layout. */
module HalfwordSwap {

  /** A little-endian 32-bit word from four octets. */
  function Load(b0: bv8, b1: bv8, b2: bv8, b3: bv8): bv32 {
    (b0 as bv32) | ((b1 as bv32) << 8) | ((b2 as bv32) << 16) | ((b3 as bv32) << 24)
  }

  function Octet(w: bv32, shift: nat): bv8
    requires shift <= 24
  {
    ((w >> shift) & 0xff) as bv8
  }

  function Rotated(w: bv32): bv32 {
    (w << 16) | (w >> 16)
  }

  lemma RotationSwapsHalves(b0: bv8, b1: bv8, b2: bv8, b3: bv8)
    ensures var w := Rotated(Load(b0, b1, b2, b3));
            Octet(w, 0) == b2 && Octet(w, 8) == b3 && Octet(w, 16) == b0 && Octet(w, 24) == b1
  {
  }

  /** The octet that ends up at index i: its counterpart in the other sample of the pair. */
  function Partner(i: nat): nat
  {
    if i % 4 < 2 then i + 2 else i - 2
  }

  function Swapped(s: seq<bv8>): (r: seq<bv8>)
    requires |s| % 4 == 0
    ensures |r| == |s|
  {
    seq(|s|, i requires 0 <= i < |s| => s[Partner(i)])
  }

  /** Samples 2k and 2k + 1 trade places, octet order within a sample kept. */
  lemma SamplesTradePlaces(s: seq<bv8>, k: nat)
    requires |s| % 4 == 0 && 4 * k + 4 <= |s|
    ensures Swapped(s)[4 * k..4 * k + 2] == s[4 * k + 2..4 * k + 4]
    ensures Swapped(s)[4 * k + 2..4 * k + 4] == s[4 * k..4 * k + 2]
  {
  }

  lemma SwappedTwice(s: seq<bv8>)
    requires |s| % 4 == 0
    ensures Swapped(Swapped(s)) == s
  {
  }

  /** One round of the loop: rotates the word at an octet index by half its width. */
  method SwapWord(buf: array<bv8>, at: nat)
    requires at % 4 == 0 && at + 4 <= buf.Length
    modifies buf
    ensures forall j :: at <= j < at + 4 ==> at <= Partner(j) < at + 4 && buf[j] == old(buf[Partner(j)])
    ensures forall j :: 0 <= j < buf.Length && !(at <= j < at + 4) ==> buf[j] == old(buf[j])
  {
    var tmp := Load(buf[at], buf[at + 1], buf[at + 2], buf[at + 3]);
    RotationSwapsHalves(buf[at], buf[at + 1], buf[at + 2], buf[at + 3]);
    var rotated := Rotated(tmp);
    hide Load, Rotated, Octet;
    buf[at], buf[at + 1] := Octet(rotated, 0), Octet(rotated, 8);
    buf[at + 2], buf[at + 3] := Octet(rotated, 16), Octet(rotated, 24);
  }

  /** priv_inplace_halfword_swap. */
  method InplaceHalfwordSwap(buf: array<bv8>, n: nat)
    requires n % 4 == 0 && n <= buf.Length
    modifies buf
    ensures buf[..n] == Swapped(old(buf[..n])) && buf[n..] == old(buf[n..])
  {
    hide Partner;
    var wbuf := 0;
    for i := 0 to n / 4
      invariant wbuf == 4 * i
      invariant forall j :: 0 <= j < wbuf ==> Partner(j) < wbuf && buf[j] == old(buf[Partner(j)])
      invariant forall j :: wbuf <= j < buf.Length ==> buf[j] == old(buf[j])
    {
      SwapWord(buf, wbuf);
      wbuf := wbuf + 4;
    }
  }
}
