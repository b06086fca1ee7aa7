// The platform helpers of the developer-driver layer that carry logic: the
// linear congruential generator behind Random (Generate, Reseed) and the
// alignment clamp of the allocator callback (AllocCb::Alloc).
module DdcPlatform {
  import opened Common

  type u64 = x: nat | x < TWO_64

  // ---- Random ----

  /** `(s * a + c) % m`, with the product and sum taken in 64-bit unsigned arithmetic. */
  function NextState(s: u64, modulus: u64, multiplier: u64, increment: u64): (r: u64)
    requires modulus > 0
    ensures r < modulus
  {
    ((s * multiplier + increment) % TWO_64) % modulus
  }

  /**
   * The value Generate returns for state `s`: bits 32..47 of the state
   * shifted up by 15, or-ed with bits 16..31 shifted down by 1. The two
   * parts occupy disjoint bits (15..30 and 0..14), so the or is a sum.
   */
  function Output(s: u64): (r: u32)
  {
    var part1 := (s / 0x1_0000) % 0x1_0000;
    var part2 := (s / 0x1_0000_0000) % 0x1_0000;
    part2 * 0x8000 + part1 / 2
  }

  /** In 32-bit words, or-ing the two shifted 16-bit parts is their sum: the bits they occupy are disjoint. */
  lemma PartsAreDisjoint(part1: bv32, part2: bv32)
    requires part1 <= 0xFFFF && part2 <= 0xFFFF
    ensures (part2 << 15) | (part1 >> 1) == (part2 << 15) + (part1 >> 1)
    ensures (part2 << 15) & (part1 >> 1) == 0
  {
  }

  /** Generate returns bits 17..47 of the new state: a 31-bit value. */
  lemma OutputIsStateBits(s: u64)
    ensures Output(s) == (s / 0x2_0000) % 0x8000_0000
    ensures Output(s) < 0x8000_0000
  {
    var q := s / 0x2_0000;
    var b := (s / 0x1_0000) % 2;
    assert s / 0x1_0000 == 2 * q + b;
    assert (s / 0x1_0000) % 0x1_0000 == 2 * (q % 0x8000) + b;
    assert s / 0x1_0000_0000 == q / 0x8000;
    assert q % 0x8000_0000 == ((q / 0x8000) % 0x1_0000) * 0x8000 + q % 0x8000;
  }

  /**
   * A linear congruential generator over a 64-bit state, consistent across
   * platforms. The platform constructor that seeds it (from the clock) is
   * not part of this model: the constructor here takes the generator's
   * constants and its first state as they are, with no reduction.
   */
  class Random {
    const modulus: u64
    const multiplier: u64
    const increment: u64
    var prevState: u64

    constructor (modulus: u64, multiplier: u64, increment: u64, state: u64)
      ensures this.modulus == modulus && this.multiplier == multiplier && this.increment == increment
      ensures prevState == state
    {
      this.modulus := modulus;
      this.multiplier := multiplier;
      this.increment := increment;
      prevState := state;
    }

    /** The state is below the modulus: after any Generate or Reseed, whatever the state before. */
    ghost predicate Valid()
      reads this
    {
      0 < modulus && prevState < modulus
    }

    /**
     * Advances the state one step and returns bits 17..47 of the new state.
     * The result depends on the previous state alone, so the same starting
     * state always yields the same sequence.
     */
    method Generate() returns (r: u32)
      requires 0 < modulus
      modifies this
      ensures Valid()
      ensures prevState == NextState(old(prevState), modulus, multiplier, increment)
      ensures r == Output(prevState) && r < 0x8000_0000
    {
      prevState := ((prevState * multiplier + increment) % TWO_64) % modulus;
      var parts := new nat[3](_ => 0);
      parts[0] := (prevState / 0x1) % 0x1_0000;
      parts[1] := (prevState / 0x1_0000) % 0x1_0000;
      parts[2] := (prevState / 0x1_0000_0000) % 0x1_0000;
      r := parts[2] * 0x8000 + parts[1] / 2;
      OutputIsStateBits(prevState);
    }

    /** Restarts the sequence from `seed`, wrapped into the modulus (a seed at or above it aliases a smaller one). */
    method Reseed(seed: u64)
      requires 0 < modulus
      modifies this
      ensures Valid()
      ensures prevState == seed % modulus
    {
      prevState := seed % modulus;
    }
  }

  /** The states of `n` successive Generate calls from state `s`. */
  function States(s: u64, modulus: u64, multiplier: u64, increment: u64, n: nat): (r: seq<u64>)
    requires modulus > 0
    ensures |r| == n
    ensures n > 0 ==> r[0] == NextState(s, modulus, multiplier, increment)
    ensures forall i :: 0 <= i < n - 1 ==> r[i + 1] == NextState(r[i], modulus, multiplier, increment)
    decreases n
  {
    if n == 0 then []
    else var next := NextState(s, modulus, multiplier, increment);
         [next] + States(next, modulus, multiplier, increment, n - 1)
  }

  /** Every state a generator passes through is below its modulus. */
  lemma {:induction false} StatesBelowModulus(s: u64, modulus: u64, multiplier: u64, increment: u64, n: nat)
    requires modulus > 0
    ensures forall i :: 0 <= i < n ==> States(s, modulus, multiplier, increment, n)[i] < modulus
    decreases n
  {
    if n > 0 {
      StatesBelowModulus(NextState(s, modulus, multiplier, increment), modulus, multiplier, increment, n - 1);
    }
  }

  /** The values `n` successive Generate calls from state `s` return. */
  function Outputs(s: u64, modulus: u64, multiplier: u64, increment: u64, n: nat): (r: seq<u32>)
    requires modulus > 0
    ensures |r| == n
  {
    var states := States(s, modulus, multiplier, increment, n);
    seq(n, i requires 0 <= i < n => Output(states[i]))
  }

  /**
   * Generating `m + n` values is generating `m` and then `n` more from the
   * state the first `m` calls left: the sequence is a function of the
   * starting state alone, however the calls are split.
   */
  lemma {:induction false} StatesSplit(s: u64, modulus: u64, multiplier: u64, increment: u64, m: nat, n: nat)
    requires modulus > 0
    ensures var first := States(s, modulus, multiplier, increment, m);
            var mid := if m == 0 then s else first[m - 1];
            States(s, modulus, multiplier, increment, m + n) ==
              first + States(mid, modulus, multiplier, increment, n)
    decreases m
  {
    if m > 0 {
      var next := NextState(s, modulus, multiplier, increment);
      StatesSplit(next, modulus, multiplier, increment, m - 1, n);
    }
  }

  /** Every value Generate returns, call after call, is a 31-bit number. */
  lemma OutputsAre31Bit(s: u64, modulus: u64, multiplier: u64, increment: u64, n: nat)
    requires modulus > 0
    ensures forall i :: 0 <= i < n ==> Outputs(s, modulus, multiplier, increment, n)[i] < 0x8000_0000
  {
    var states := States(s, modulus, multiplier, increment, n);
    forall i | 0 <= i < n
      ensures Outputs(s, modulus, multiplier, increment, n)[i] < 0x8000_0000
    {
      OutputIsStateBits(states[i]);
    }
  }

  // ---- AllocCb ----

  /** The arguments an allocation callback receives. */
  datatype AllocRequest = AllocRequest(userdata: nat, size: u64, alignment: u64, zero: bool)

  /** An allocator: user data and an allocation function from a request to the memory it returns. */
  datatype AllocCb = AllocCb(userdata: nat, pfnAlloc: AllocRequest -> nat)

  /** The request AllocCb::Alloc makes: the alignment raised to the system minimum when smaller. */
  function AllocRequestFor(cb: AllocCb, size: u64, alignment: u64, zero: bool, minSystemAlignment: u64): AllocRequest
  {
    AllocRequest(cb.userdata, size, if alignment < minSystemAlignment then minSystemAlignment else alignment, zero)
  }

  /** AllocCb::Alloc(size, alignment, zero): the callback's result for the clamped request. */
  function Alloc(cb: AllocCb, size: u64, alignment: u64, zero: bool, minSystemAlignment: u64): nat
  {
    cb.pfnAlloc(AllocRequestFor(cb, size, alignment, zero, minSystemAlignment))
  }

  /** AllocCb::Alloc(size, zero): an allocation at the system minimum alignment. */
  function AllocDefault(cb: AllocCb, size: u64, zero: bool, minSystemAlignment: u64): nat
  {
    Alloc(cb, size, minSystemAlignment, zero, minSystemAlignment)
  }

  /**
   * The callback sees the caller's user data, size and zero flag unchanged
   * and the larger of the requested and the system minimum alignment.
   */
  lemma AllocClampsAlignment(cb: AllocCb, size: u64, alignment: u64, zero: bool, minSystemAlignment: u64)
    ensures var req := AllocRequestFor(cb, size, alignment, zero, minSystemAlignment);
            && req.userdata == cb.userdata && req.size == size && req.zero == zero
            && req.alignment >= alignment && req.alignment >= minSystemAlignment
            && (req.alignment == alignment || req.alignment == minSystemAlignment)
    ensures Alloc(cb, size, alignment, zero, minSystemAlignment) == cb.pfnAlloc(AllocRequestFor(cb, size, alignment, zero, minSystemAlignment))
  {
  }

  /** The two-argument overload passes exactly the system minimum alignment. */
  lemma AllocDefaultUsesMinimum(cb: AllocCb, size: u64, zero: bool, minSystemAlignment: u64)
    ensures AllocDefault(cb, size, zero, minSystemAlignment) ==
              cb.pfnAlloc(AllocRequest(cb.userdata, size, minSystemAlignment, zero))
  {
  }
}
