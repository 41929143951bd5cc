/**
 * 64-bit processor masks (UIntPtr / ulong in a 64-bit process) and the two
 * conversions the program performs between a machine word and a list of
 * per-logical-processor flags.
 */
module Bits {

  /**
   * `(UIntPtr)1 << n` and `1UL << n`: C# takes a 64-bit shift count modulo 64,
   * so a count of 64 or more wraps around instead of giving 0.
   */
  function Bit(n: nat): bv64
  {
    (1 as bv64) << ShiftCount(n)
  }

  /** The effective shift count n % 64, as a 6-bit word. */
  function ShiftCount(n: nat): bv6
  {
    CountUp(n % 64)
  }

  /** m < 64 as a 6-bit word, counted up from 0. */
  function CountUp(m: nat): bv6
    requires m < 64
  {
    if m == 0 then 0 else CountUp(m - 1) + 1
  }

  lemma {:induction false} CountUpValue(m: nat)
    requires m < 64
    ensures CountUp(m) as int == m
  {
    if m > 0 {
      CountUpValue(m - 1);
    }
  }

  /** `(a & b) != 0`: the two words share a set bit. */
  predicate Overlaps(a: bv64, b: bv64)
  {
    a & b != 0
  }

  /** `(mask & ((UIntPtr)1 << n)) != 0` */
  predicate HasBit(mask: bv64, n: nat)
  {
    Overlaps(mask, Bit(n))
  }

  /**
   * The loop `for i in 0..|b|: if b[i] then mask |= 1 << i`, which both the CPU Set
   * and the affinity code use to turn a bool mask into a machine word.
   */
  function FromBools(b: seq<bool>): bv64
  {
    if |b| == 0 then 0
    else if b[|b| - 1] then FromBools(b[..|b| - 1]) | Bit(|b| - 1)
    else FromBools(b[..|b| - 1])
  }

  /** Entry i of the result says whether bit i of mask is set. */
  function ToBools(mask: bv64, n: nat): (r: seq<bool>)
    ensures |r| == n
  {
    seq(n, i requires 0 <= i < n => HasBit(mask, i))
  }

  lemma ShiftsDisjoint(a: bv6, b: bv6)
    ensures ((1 as bv64) << a) & ((1 as bv64) << b) != 0 <==> a == b
  {
  }

  /** Distinct shift counts below 64 select distinct bits. */
  lemma BitsDisjoint(i: nat, j: nat)
    requires i < 64 && j < 64
    ensures (Bit(i) & Bit(j) != 0) <==> i == j
  {
    ShiftsDisjoint(ShiftCount(i), ShiftCount(j));
    CountUpValue(i % 64);
    CountUpValue(j % 64);
  }

  /** Every shift count gives a non-zero word. */
  lemma BitNonZero(n: nat)
    ensures Bit(n) != 0
  {
    var a := ShiftCount(n);
    CountUpValue(n % 64);
    assert a as int < 64;
  }

  /** Shift counts of 64 and more wrap around: `1 << 64` is `1 << 0`. */
  lemma BitWraps(n: nat)
    ensures Bit(n) == Bit(n % 64)
  {
    var m := n % 64;
    assert m % 64 == m;
  }

  /** Bit i of an OR-accumulated mask is set exactly when entry i of the bool mask is, for masks of at most 64 entries. */
  lemma {:induction false} FromBoolsHasBit(b: seq<bool>, i: nat)
    requires |b| <= 64 && i < 64
    ensures HasBit(FromBools(b), i) <==> (i < |b| && b[i])
    decreases |b|
  {
    if |b| > 0 {
      var init := b[..|b| - 1];
      FromBoolsHasBit(init, i);
      FromBoolsStep(b, i);
      assert forall k :: 0 <= k < |init| ==> init[k] == b[k];
    }
  }

  /** One more entry of the bool mask can only set its own bit. */
  lemma FromBoolsStep(b: seq<bool>, i: nat)
    requires 0 < |b| <= 64 && i < 64
    ensures HasBit(FromBools(b), i) <==> HasBit(FromBools(b[..|b| - 1]), i) || (b[|b| - 1] && i == |b| - 1)
  {
    FromBoolsUnfold(b);
    OrOneBit(FromBools(b[..|b| - 1]), |b| - 1, i, b[|b| - 1]);
  }

  lemma FromBoolsUnfold(b: seq<bool>)
    requires 0 < |b|
    ensures FromBools(b) == if b[|b| - 1] then FromBools(b[..|b| - 1]) | Bit(|b| - 1) else FromBools(b[..|b| - 1])
  {
  }

  /** OR-ing in bit j (when on says so) adds bit j and no other. */
  lemma OrOneBit(init: bv64, j: nat, i: nat, on: bool)
    requires j < 64 && i < 64
    ensures HasBit(if on then init | Bit(j) else init, i) <==> HasBit(init, i) || (on && i == j)
  {
    if on {
      OrHasBit(init, Bit(j), i);
      BitHasOnlyItself(j, i);
    }
  }

  /** The word `1 << j` has bit j set and no other. */
  lemma BitHasOnlyItself(j: nat, i: nat)
    requires j < 64 && i < 64
    ensures HasBit(Bit(j), i) <==> i == j
  {
    BitsDisjoint(j, i);
  }

  /** Turning a bool mask of at most 64 entries into a word and back gives the same list. */
  lemma ToBoolsFromBools(b: seq<bool>)
    requires |b| <= 64
    ensures ToBools(FromBools(b), |b|) == b
  {
    forall i | 0 <= i < |b|
      ensures ToBools(FromBools(b), |b|)[i] == b[i]
    {
      FromBoolsHasBit(b, i);
    }
  }

  /** Turning a word into n <= 64 flags and back keeps exactly the low n bits of the word. */
  lemma FromBoolsToBools(mask: bv64, n: nat, i: nat)
    requires n <= 64 && i < 64
    ensures HasBit(FromBools(ToBools(mask, n)), i) <==> (i < n && HasBit(mask, i))
  {
    FromBoolsHasBit(ToBools(mask, n), i);
  }

  /** A bit is set in an OR exactly when it is set in one of the operands. */
  lemma OrHasBit(a: bv64, b: bv64, n: nat)
    ensures HasBit(a | b, n) <==> HasBit(a, n) || HasBit(b, n)
  {
    OrOverlaps(a, b, Bit(n));
  }

  lemma OrOverlaps(a: bv64, b: bv64, x: bv64)
    ensures Overlaps(a | b, x) <==> Overlaps(a, x) || Overlaps(b, x)
  {
    AndDistributesOverOr(a, b, x);
    var c, d := a & x, b & x;
    OrNonZero(c, d);
    assert (a | b) & x == c | d;
  }

  lemma AndDistributesOverOr(a: bv64, b: bv64, x: bv64)
    ensures (a | b) & x == (a & x) | (b & x)
  {
  }

  lemma OrNonZero(c: bv64, d: bv64)
    ensures c | d != 0 <==> c != 0 || d != 0
  {
  }

  lemma ZeroHasNoBit(n: nat)
    ensures !HasBit(0, n)
  {
  }

  /** Two words that both hold bit n overlap. */
  lemma SharedBitOverlaps(a: bv64, b: bv64, n: nat)
    requires HasBit(a, n) && HasBit(b, n)
    ensures Overlaps(a, b)
  {
    SharedShiftOverlaps(a, b, ShiftCount(n));
  }

  lemma SharedShiftOverlaps(a: bv64, b: bv64, s: bv6)
    requires Overlaps(a, (1 as bv64) << s) && Overlaps(b, (1 as bv64) << s)
    ensures Overlaps(a, b)
  {
  }

  lemma OverlapsSymmetric(a: bv64, b: bv64)
    ensures Overlaps(a, b) <==> Overlaps(b, a)
  {
  }

  lemma OrZero(a: bv64)
    ensures a | 0 == a
  {
  }

  /** A step of an accumulating loop that ORs `word` into the accumulator when `c` holds. */
  lemma OrStepIf(x: bv64, before: bv64, word: bv64, n: nat, c: bool)
    requires c ==> x == before | word
    requires !c ==> x == before
    ensures HasBit(x, n) <==> HasBit(before, n) || (c && HasBit(word, n))
  {
    if c {
      OrHasBit(before, word, n);
    }
  }
}
