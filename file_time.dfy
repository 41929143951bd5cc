/**
 * FILETIME as GetProcessTimes fills it (NativeMethods.cs:98-104): two 32-bit
 * halves of a count of 100-nanosecond intervals, and the ULong property
 * that joins them into one 64-bit value.
 */
module NativeMethods {

  const TwoTo32: nat := 0x1_0000_0000
  const TwoTo64: nat := 0x1_0000_0000_0000_0000

  /** A `uint` field. */
  newtype uint32 = x: int | 0 <= x < 0x1_0000_0000

  datatype FileTime = FileTime(lowDateTime: uint32, highDateTime: uint32)

  /**
   * `(((ulong)dwHighDateTime) << 32) + dwLowDateTime` in unchecked 64-bit
   * arithmetic: the shift drops the bits above bit 63 and the addition wraps.
   */
  function ULong(t: FileTime): (v: nat)
    ensures v < TwoTo64
  {
    ((t.highDateTime as int * TwoTo32) % TwoTo64 + t.lowDateTime as int) % TwoTo64
  }

  /** Neither the shift nor the addition ever wraps: ULong is the exact value high * 2^32 + low. */
  lemma ULongIsExact(t: FileTime)
    ensures ULong(t) == t.highDateTime as int * TwoTo32 + t.lowDateTime as int
  {
    var h := t.highDateTime as int;
    assert h * TwoTo32 <= (TwoTo32 - 1) * TwoTo32;
    assert (h * TwoTo32) % TwoTo64 == h * TwoTo32;
  }

  /** The low and high halves are recovered by mod and div 2^32. */
  lemma ULongRoundTrip(t: FileTime)
    ensures ULong(t) % TwoTo32 == t.lowDateTime as int
    ensures ULong(t) / TwoTo32 == t.highDateTime as int
  {
    ULongIsExact(t);
    var h := t.highDateTime as int;
    var l := t.lowDateTime as int;
    DivModUnique(h * TwoTo32 + l, h, l);
  }

  lemma DivModUnique(v: int, q: int, r: int)
    requires 0 <= r < TwoTo32 && v == q * TwoTo32 + r
    ensures v % TwoTo32 == r && v / TwoTo32 == q
  {
  }

  /** Distinct FILETIME values give distinct ULong values. */
  lemma ULongInjective(a: FileTime, b: FileTime)
    ensures ULong(a) == ULong(b) ==> a == b
  {
    ULongRoundTrip(a);
    ULongRoundTrip(b);
  }
}
