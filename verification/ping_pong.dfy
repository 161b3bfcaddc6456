/**
 A double-buffered field: two render targets `FBOs[0]` and `FBOs[1]`, an
 integer `flag`, and the indices of the target currently read (`src`) and
 the one currently written (`dst`). Targets are named by their index; what
 they hold is not part of this module.
 */
module PingPong {

  datatype Buffer = Buffer(flag: nat, src: nat, dst: nat, diss: real)

  /** The relation between `flag`, `src` and `dst` that the two operations below maintain. */
  predicate Valid(b: Buffer) {
    b.flag >= 1 && b.src == (b.flag - 1) % 2 && b.dst == b.flag % 2
  }

  /**
   Set up a field: `flag` starts at 0, `src` is `FBOs[flag % 2]`, then `flag`
   is pre-incremented and `dst` is `FBOs[flag % 2]`.
   */
  function InitBuffer(dissipation: real): (b: Buffer)
    ensures Valid(b)
    ensures b.src == 0 && b.dst == 1 && b.diss == dissipation
  {
    var flag := 0;
    var src := flag % 2;
    var flag' := flag + 1;
    Buffer(flag', src, flag' % 2, dissipation)
  }

  /** Same two assignments as set-up, from the current `flag`. */
  function SwapBuffer(b: Buffer): (r: Buffer)
    ensures Valid(b) ==> Valid(r) && r.src == b.dst && r.dst == b.src
    ensures r.diss == b.diss
  {
    var src := b.flag % 2;
    var flag' := b.flag + 1;
    b.(flag := flag', src := src, dst := flag' % 2)
  }

  /** A valid buffer never reads and writes the same target, and both indices address `FBOs`. */
  lemma ValidIsDisjoint(b: Buffer)
    requires Valid(b)
    ensures b.src != b.dst && b.src < 2 && b.dst < 2
  {
  }

  /** `n` consecutive swaps. */
  function Swaps(b: Buffer, n: nat): (r: Buffer)
    ensures Valid(b) ==> Valid(r)
    ensures Valid(b) && n % 2 == 0 ==> r.src == b.src && r.dst == b.dst
    ensures Valid(b) && n % 2 == 1 ==> r.src == b.dst && r.dst == b.src
    ensures r.flag == b.flag + n && r.diss == b.diss
    decreases n
  {
    if n == 0 then b else SwapBuffer(Swaps(b, n - 1))
  }

  /**
   After set-up and `n` swaps the field reads `FBOs[n mod 2]`, writes
   `FBOs[(n+1) mod 2]`, and the two are different.
   */
  lemma {:induction false} ParityAfterSwaps(dissipation: real, n: nat)
    ensures Swaps(InitBuffer(dissipation), n).src == n % 2
    ensures Swaps(InitBuffer(dissipation), n).dst == (n + 1) % 2
    ensures Swaps(InitBuffer(dissipation), n).src != Swaps(InitBuffer(dissipation), n).dst
  {
    var b := Swaps(InitBuffer(dissipation), n);
    ValidIsDisjoint(b);
  }

  /** Two swaps restore the targets a field reads and writes. */
  lemma SwapTwiceRestores(b: Buffer)
    requires Valid(b)
    ensures SwapBuffer(SwapBuffer(b)).src == b.src && SwapBuffer(SwapBuffer(b)).dst == b.dst
  {
  }
}
