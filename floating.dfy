/** The eight bit floating point format used by the ADDFLOAT instruction.
    A byte holds one sign bit (bit 7), a three bit exponent biased by four
    (bits 6-4; the codes 0..7 stand for the exponents -4..3) and a four bit
    mantissa (bits 3-0). The byte stands for +-mantissa * 2^(exponent - 4).

    vole-rs's encoder and decoder work on `f32`. The only floats the machine ever
    encodes are sums of two decoded bytes: multiples of 1/256 of magnitude at
    most 15, all exactly representable as 32-bit floats. The model therefore
    uses Dafny's exact `real`. */
module Floating {

  /** 2^k. */
  function Pow2(k: nat): (p: nat)
    ensures p >= 1
  {
    if k == 0 then 1 else 2 * Pow2(k - 1)
  }

  lemma {:induction false} Pow2Monotone(j: nat, k: nat)
    requires j <= k
    ensures Pow2(j) <= Pow2(k)
  {
    if j < k {
      Pow2Monotone(j, k - 1);
    }
  }

  function Abs(v: real): (a: real)
    ensures a >= 0.0 && (a == v || a == -v)
  {
    if v < 0.0 then -v else v
  }

  function Min(a: int, b: int): int
  {
    if a <= b then a else b
  }

  // ---------------------------------------------------------------------
  // Fields of a packed byte
  // ---------------------------------------------------------------------

  /** The sign bit. */
  function SignBit(value: bv8): (s: bv8)
    ensures s <= 1
    ensures s == 1 <==> value as int >= 128
  {
    value >> 7
  }

  /** The exponent: the three bit code in bits 6-4, unbiased by table lookup. */
  function Exponent(value: bv8): (e: int)
    ensures -4 <= e <= 3
    ensures e + 4 == ((value >> 4) & 7) as int
  {
    var bits := (value & 0x70) >> 4;
    if bits == 7 then 3
    else if bits == 6 then 2
    else if bits == 5 then 1
    else if bits == 4 then 0
    else if bits == 3 then -1
    else if bits == 2 then -2
    else if bits == 1 then -3
    else if bits == 0 then -4
    else assert false; 0
  }

  /** The mantissa: the low four bits. */
  function Mantissa(value: bv8): (m: bv8)
    ensures m < 16 && m == value % 16
  {
    value & 0x0F
  }

  /** The magnitude a packed byte stands for: mantissa * 2^(exponent - 4). */
  function Magnitude(value: bv8): real
  {
    (Mantissa(value) as int) as real / Pow2(4 - Exponent(value)) as real
  }

  /** The number a packed byte stands for: the magnitude, negated when the
      sign bit is set. */
  function Value(value: bv8): (v: real)
    ensures Abs(v) == Magnitude(value) <= 7.5
    ensures v < 0.0 ==> SignBit(value) == 1
  {
    MagnitudeBound(value);
    if SignBit(value) == 1 then -Magnitude(value) else Magnitude(value)
  }

  // ---------------------------------------------------------------------
  // Shifts
  // ---------------------------------------------------------------------

  /** `x >> k`, spelled out one place at a time (see `ShrIsShift`). */
  function Shr(x: bv8, k: nat): bv8
    requires k <= 8
  {
    if k == 0 then x else Shr(x, k - 1) >> 1
  }

  /** `x << k`, spelled out one place at a time; bits shifted past bit 7 are
      lost (see `ShlIsShift`). */
  function Shl(x: bv8, k: nat): bv8
    requires k <= 8
  {
    if k == 0 then x else Shl(x, k - 1) << 1
  }

  lemma {:induction false} ShrIsShift(x: bv8, k: nat)
    requires k <= 8
    ensures Shr(x, k) == x >> k
  {
    if k > 0 {
      ShrIsShift(x, k - 1);
      var y := x >> (k - 1);
      if k <= 4 {
        assert y >> 1 == x >> k;
      } else {
        assert y >> 1 == x >> k;
      }
    }
  }

  lemma {:induction false} ShlIsShift(x: bv8, k: nat)
    requires k <= 8
    ensures Shl(x, k) == x << k
  {
    if k > 0 {
      ShlIsShift(x, k - 1);
      var y := x << (k - 1);
      if k <= 4 {
        assert y << 1 == x << k;
      } else {
        assert y << 1 == x << k;
      }
    }
  }

  // ---------------------------------------------------------------------
  // Decoding
  // ---------------------------------------------------------------------

  /** Splitting the mantissa at `floatPartLen` bits from the right gives the
      integer part and the fraction bits that decoding sums. */
  lemma SplitMantissa(mantissa: bv8, floatPartLen: int)
    requires mantissa < 16 && 1 <= floatPartLen <= 8
    ensures var intPart: bv8 := if floatPartLen >= 4 then 0 else Shr(mantissa, floatPartLen);
            var shifts := 8 - floatPartLen;
            var floatBits := Shr(Shl(mantissa, shifts), shifts);
            && mantissa as int == intPart as int * Pow2(floatPartLen) + floatBits as int
            && Shr(floatBits, floatPartLen) == 0
  {
    var shifts := 8 - floatPartLen;
    ShlIsShift(mantissa, shifts);
    ShrIsShift(Shl(mantissa, shifts), shifts);
    ShrIsShift(Shr(Shl(mantissa, shifts), shifts), floatPartLen);
    if floatPartLen >= 4 {
      SplitWide(mantissa, floatPartLen);
    } else {
      ShrIsShift(mantissa, floatPartLen);
      SplitNarrow(mantissa, floatPartLen);
    }
  }

  /** With four or more fraction bits the whole mantissa is fraction. */
  lemma SplitWide(mantissa: bv8, floatPartLen: int)
    requires mantissa < 16 && 4 <= floatPartLen <= 8
    ensures var shifts := 8 - floatPartLen;
            && (mantissa << shifts) >> shifts == mantissa
            && mantissa >> floatPartLen == 0
  {
  }

  /** With fewer than four fraction bits the mantissa splits into the bits
      above and below bit `floatPartLen`. */
  lemma SplitNarrow(mantissa: bv8, floatPartLen: int)
    requires mantissa < 16 && 1 <= floatPartLen <= 3
    ensures var shifts := 8 - floatPartLen;
            var floatBits := (mantissa << shifts) >> shifts;
            && mantissa as int == (mantissa >> floatPartLen) as int * Pow2(floatPartLen) + floatBits as int
            && floatBits >> floatPartLen == 0
  {
    if floatPartLen == 1 {
      assert Pow2(floatPartLen) == 2;
    } else if floatPartLen == 2 {
      assert Pow2(floatPartLen) == 4;
    } else {
      assert Pow2(floatPartLen) == 8;
    }
  }

  /** Shifting one place less to the right appends the next bit. */
  lemma ShiftStep(x: bv8, j: nat)
    requires j < 8
    ensures Shr(x, j) as int == 2 * Shr(x, j + 1) as int + (Shr(x, j) & 1) as int
  {
    var y := Shr(x, j);
    assert Shr(x, j + 1) == y >> 1;
  }

  /** Adding the bit of weight 2^-k to a binary fraction of k - 1 bits. */
  lemma FractionStep(q: int, bit: int, k: nat)
    requires k >= 1
    ensures q as real / Pow2(k - 1) as real + (1.0 / Pow2(k) as real) * bit as real
            == (2 * q + bit) as real / Pow2(k) as real
  {
    var p := Pow2(k - 1) as real;
    assert Pow2(k) as real == 2.0 * p;
    calc {
      q as real / p + (1.0 / (2.0 * p)) * bit as real;
      (2.0 * q as real) / (2.0 * p) + bit as real / (2.0 * p);
      (2 * q + bit) as real / (2.0 * p);
    }
  }

  /** The integer part plus the fraction is the mantissa scaled down. */
  lemma JoinParts(intPart: int, fraction: int, k: nat)
    ensures intPart as real + fraction as real / Pow2(k) as real
            == (intPart * Pow2(k) + fraction) as real / Pow2(k) as real
  {
    var p := Pow2(k) as real;
    assert (intPart * Pow2(k)) as real == intPart as real * p;
    assert intPart as real == (intPart as real * p) / p;
  }

  /** The top `i` of the `floatPartLen` fraction bits, read as a binary fraction. */
  ghost function Consumed(floatBits: bv8, floatPartLen: int, i: int): real
    requires 0 <= i <= floatPartLen <= 8
  {
    (Shr(floatBits, floatPartLen - i) as int) as real / Pow2(i) as real
  }

  /** One round of the summing loop keeps the sum equal to the fraction
      bits consumed so far, read as a binary fraction. */
  lemma SumStep(floatBits: bv8, floatPartLen: int, i: int, sum: real, factor: real, bit: bv8)
    requires 1 <= i <= floatPartLen <= 8
    requires sum == Consumed(floatBits, floatPartLen, i - 1)
    requires factor == 1.0 / Pow2(i) as real
    requires bit == Shr(floatBits, floatPartLen - i) & 1
    ensures sum + factor * (bit as int) as real == Consumed(floatBits, floatPartLen, i)
  {
    var j := floatPartLen - i;
    var q := Shr(floatBits, j + 1) as int;
    var b := bit as int;
    ShiftStep(floatBits, j);
    assert Shr(floatBits, j) as int == 2 * q + b;
    assert floatPartLen - (i - 1) == j + 1;
    assert sum == q as real / Pow2(i - 1) as real;
    assert Consumed(floatBits, floatPartLen, i) == (2 * q + b) as real / Pow2(i) as real;
    FractionStep(q, b, i);
  }

  /** Before the summing loop no fraction bit has been consumed. */
  lemma SumStart(mantissa: bv8, floatPartLen: int)
    requires mantissa < 16 && 1 <= floatPartLen <= 8
    ensures var shifts := 8 - floatPartLen;
            Consumed(Shr(Shl(mantissa, shifts), shifts), floatPartLen, 0) == 0.0
  {
    SplitMantissa(mantissa, floatPartLen);
  }

  /** After the summing loop the integer part plus the sum is the magnitude
      of the byte's value. */
  lemma SumFinish(mantissa: bv8, floatPartLen: int, sum: real)
    requires mantissa < 16 && 1 <= floatPartLen <= 8
    requires var shifts := 8 - floatPartLen;
             sum == Consumed(Shr(Shl(mantissa, shifts), shifts), floatPartLen, floatPartLen)
    ensures var intPart: bv8 := if floatPartLen >= 4 then 0 else Shr(mantissa, floatPartLen);
            (intPart as int) as real + sum == (mantissa as int) as real / Pow2(floatPartLen) as real
  {
    var shifts := 8 - floatPartLen;
    var floatBits := Shr(Shl(mantissa, shifts), shifts);
    var intPart: bv8 := if floatPartLen >= 4 then 0 else Shr(mantissa, floatPartLen);
    assert floatPartLen - floatPartLen == 0;
    assert sum == (floatBits as int) as real / Pow2(floatPartLen) as real;
    SplitMantissa(mantissa, floatPartLen);
    JoinParts(intPart as int, floatBits as int, floatPartLen);
  }

  /** Decodes a packed byte: the integer part plus the binary fraction summed
      bit by bit, negated when the sign bit is set. */
  method Decode(value: bv8) returns (r: real)
    ensures r == Value(value)
  {
    var sign := SignBit(value);
    var mantissa := Mantissa(value);
    var exponent := Exponent(value);
    var floatPartLen := 4 - exponent;
    var intPart: bv8 := if exponent <= 0 then 0 else Shr(mantissa, floatPartLen);
    var shifts := 8 - floatPartLen;
    var floatBits := Shr(Shl(mantissa, shifts), shifts);
    var sum := 0.0;
    SumStart(mantissa, floatPartLen);
    for i := 1 to floatPartLen + 1
      invariant sum == Consumed(floatBits, floatPartLen, i - 1)
    {
      var divisor := Pow2(i) as real;
      var factor := 1.0 / divisor;
      var bit := Shr(floatBits, floatPartLen - i) & 1;
      SumStep(floatBits, floatPartLen, i, sum, factor, bit);
      sum := sum + factor * (bit as int) as real;
    }
    SumFinish(mantissa, floatPartLen, sum);
    var abs := (intPart as int) as real + sum;
    r := if sign == 1 then -abs else abs;
  }

  // ---------------------------------------------------------------------
  // Encoding: the reference definition
  // ---------------------------------------------------------------------

  /** `value as i8` for a value within the range of `i8`: truncation toward zero. */
  function Truncate(v: real): (t: int)
    ensures Abs(t as real) <= Abs(v) < Abs(t as real) + 1.0
    ensures t == 0 || (t < 0 <==> v < 0.0)
  {
    if v < 0.0 then -((-v).Floor) else v.Floor
  }

  /** The number of steps of 1/32 that encoding collects from an integer part
      and a fraction: the integer part counts at most seven, the fraction is
      cut after five binary places. */
  function StepsOf(intValue: int, fractValue: real): (n: nat)
    requires intValue >= 0 && 0.0 <= fractValue < 1.0
    ensures n < 256
  {
    32 * Min(intValue, 7) + (32.0 * fractValue).Floor
  }

  /** The steps of 1/32 encoding collects from `|v|`. */
  function Steps(v: real): (n: nat)
    ensures n < 256
  {
    var a := Abs(v);
    StepsOf(a.Floor, a - a.Floor as real)
  }

  /** The position of the highest set bit of `n`; zero for zero. */
  function HighBit(n: nat): (p: nat)
    ensures n >= 1 ==> Pow2(p) <= n < Pow2(p + 1)
    ensures n == 0 ==> p == 0
  {
    if n <= 1 then 0 else 1 + HighBit(n / 2)
  }

  lemma HighBitUnique(n: nat, p: nat)
    requires Pow2(p) <= n < Pow2(p + 1)
    ensures HighBit(n) == p
  {
    var q := HighBit(n);
    if q < p {
      Pow2Monotone(q + 1, p);
    } else if q > p {
      Pow2Monotone(p + 1, q);
    }
  }

  /** Scaling a number whose highest set bit is bit `p` to put that bit at
      bit 3 gives a four bit mantissa with the top bit set. */
  lemma ScaledBounds(n: nat, p: nat)
    requires p < 8 && Pow2(p) <= n < Pow2(p + 1)
    ensures 8 <= 8 * n / Pow2(p) < 16
  {
    if p == 0 {
      assert Pow2(p) == 1 && Pow2(p + 1) == 2;
    } else if p == 1 {
      assert Pow2(p) == 2 && Pow2(p + 1) == 4;
    } else if p == 2 {
      assert Pow2(p) == 4 && Pow2(p + 1) == 8;
    } else if p == 3 {
      assert Pow2(p) == 8 && Pow2(p + 1) == 16;
    } else if p == 4 {
      assert Pow2(p) == 16 && Pow2(p + 1) == 32;
    } else if p == 5 {
      assert Pow2(p) == 32 && Pow2(p + 1) == 64;
    } else if p == 6 {
      assert Pow2(p) == 64 && Pow2(p + 1) == 128;
    } else {
      assert Pow2(p) == 128 && Pow2(p + 1) == 256;
    }
  }

  /** The mantissa encoding keeps: the four bits of `n` starting at its
      highest set bit, so that encoding normalises. */
  lemma NormalBounds(n: nat)
    requires n < 256
    ensures HighBit(n) < 8
    ensures 8 * n / Pow2(HighBit(n)) < 16
    ensures n >= 1 ==> 8 <= 8 * n / Pow2(HighBit(n))
  {
    var p := HighBit(n);
    if p >= 8 {
      Pow2Monotone(8, p);
      assert false;
    }
    if n >= 1 {
      ScaledBounds(n, p);
    }
  }

  /** The byte with the given sign bit, exponent code and mantissa. */
  function Pack(sign: bv8, code: bv8, mantissa: bv8): bv8
  {
    ((sign << 7) | (code << 4)) | mantissa
  }

  lemma PackFields(sign: bv8, code: bv8, mantissa: bv8)
    requires sign <= 1 && code < 8 && mantissa < 16
    ensures var b := Pack(sign, code, mantissa);
            && SignBit(b) == sign
            && Exponent(b) == code as int - 4
            && Mantissa(b) == mantissa
  {
  }

  lemma UnpackFields(b: bv8)
    ensures b == Pack(SignBit(b), (Exponent(b) + 4) as bv8, Mantissa(b))
  {
  }

  /** What encoding yields: the sign of `v`, then the exponent and mantissa
      that normalise the steps of 1/32 collected from `|v|`. */
  function Encoding(v: real): bv8
    requires Abs(v) < 128.0
  {
    var n := Steps(v);
    NormalBounds(n);
    var p := HighBit(n);
    Pack(if v < 0.0 then 1 else 0, p as bv8, (8 * n / Pow2(p)) as bv8)
  }

  // ---------------------------------------------------------------------
  // Encoding
  // ---------------------------------------------------------------------

  /** The integer part and the fraction encoding reads off `v` are those of `|v|`. */
  lemma TruncateParts(v: real)
    requires Abs(v) < 128.0
    ensures var t := Truncate(v);
            && (if t < 0 then -t else t) == Abs(v).Floor
            && Abs(v - t as real) == Abs(v) - Abs(v).Floor as real
  {
  }

  /** The exponent code as the ladder of comparisons picks it: the weight of
      the first integer or fraction bit that is set. */
  function ExponentCode(intValue: int, fractValue: real): (code: bv8)
    requires intValue >= 0 && 0.0 <= fractValue < 1.0
    ensures code as int == HighBit(StepsOf(intValue, fractValue))
  {
    if intValue >= 1 then
      IntegerExponent(intValue, fractValue);
      if intValue >= 4 then 0x07
      else if intValue >= 2 then 0x06
      else 0x05
    else if fractValue >= 0.0625 then
      FractionExponent(fractValue);
      if fractValue >= 0.5 then 0x04
      else if fractValue >= 0.25 then 0x03
      else if fractValue >= 0.125 then 0x02
      else 0x01
    else if fractValue >= 0.03125 || intValue == 0 then
      0x00
    else
      // `intValue` is zero once the first three comparisons fail, so the
      // "unrepresentable" case cannot be reached.
      assert false; 0x00
  }

  /** With an integer part, its highest bit gives the exponent. */
  lemma IntegerExponent(intValue: int, fractValue: real)
    requires intValue >= 1 && 0.0 <= fractValue < 1.0
    ensures HighBit(StepsOf(intValue, fractValue)) ==
              if intValue >= 4 then 7 else if intValue >= 2 then 6 else 5
  {
    var n := StepsOf(intValue, fractValue);
    if intValue >= 4 {
      HighBitUnique(n, 7);
    } else if intValue >= 2 {
      HighBitUnique(n, 6);
    } else {
      HighBitUnique(n, 5);
    }
  }

  /** Without one, the first fraction bit that is set gives the exponent. */
  lemma FractionExponent(fractValue: real)
    requires 0.0625 <= fractValue < 1.0
    ensures HighBit(StepsOf(0, fractValue)) ==
              if fractValue >= 0.5 then 4 else if fractValue >= 0.25 then 3
              else if fractValue >= 0.125 then 2 else 1
  {
    var n := StepsOf(0, fractValue);
    if fractValue >= 0.5 {
      HighBitUnique(n, 4);
    } else if fractValue >= 0.25 {
      HighBitUnique(n, 3);
    } else if fractValue >= 0.125 {
      HighBitUnique(n, 2);
    } else {
      HighBitUnique(n, 1);
    }
  }


  /** The shift that brings the highest set bit of `n` to bit 7, range by
      range (seven for zero). */
  ghost function ShiftFor(n: int): (s: int)
    ensures 0 <= s <= 7
  {
    if n >= 128 then 0
    else if n >= 64 then 1
    else if n >= 32 then 2
    else if n >= 16 then 3
    else if n >= 8 then 4
    else if n >= 4 then 5
    else if n >= 2 then 6
    else 7
  }

  /** The top four bits of `n` starting at its highest set bit, range by range. */
  ghost function TopFour(n: int): int
  {
    if n >= 128 then n / 16
    else if n >= 64 then n / 8
    else if n >= 32 then n / 4
    else if n >= 16 then n / 2
    else if n >= 8 then n
    else if n >= 4 then 2 * n
    else if n >= 2 then 4 * n
    else 8 * n
  }

  /** The top four bits of a byte starting at its highest set bit. */
  lemma TopFourScaled(n: nat)
    requires n < 256
    ensures TopFour(n) == 8 * n / Pow2(HighBit(n))
  {
    if n >= 128 {
      assert Pow2(7) == 128 && Pow2(8) == 256;
      HighBitUnique(n, 7);
    } else if n >= 64 {
      assert Pow2(6) == 64 && Pow2(7) == 128;
      HighBitUnique(n, 6);
    } else if n >= 32 {
      assert Pow2(5) == 32 && Pow2(6) == 64;
      HighBitUnique(n, 5);
    } else if n >= 16 {
      assert Pow2(4) == 16 && Pow2(5) == 32;
      HighBitUnique(n, 4);
    } else if n >= 8 {
      assert Pow2(3) == 8 && Pow2(4) == 16;
      HighBitUnique(n, 3);
    } else if n >= 4 {
      assert Pow2(2) == 4 && Pow2(3) == 8;
      HighBitUnique(n, 2);
    } else if n >= 2 {
      assert Pow2(1) == 2 && Pow2(2) == 4;
      HighBitUnique(n, 1);
    } else if n >= 1 {
      assert Pow2(0) == 1 && Pow2(1) == 2;
      HighBitUnique(n, 0);
    }
  }

  /** Shifting the collected bits to put the highest set bit at bit 7 and
      dropping the low four bits leaves the normalised mantissa. */
  lemma AlignMantissa(bits: bv8, shift: int)
    requires shift == ShiftFor(bits as int)
    ensures Shr(Shl(bits, shift), 4) as int == 8 * bits as int / Pow2(HighBit(bits as int))
  {
    ShlIsShift(bits, shift);
    ShrIsShift(Shl(bits, shift), 4);
    assert Shr(Shl(bits, shift), 4) as int == TopFour(bits as int);
    TopFourScaled(bits as int);
  }

  /** Setting a bit of `bits` that is clear, with every bit below it, adds
      its weight and moves the highest set bit to it if none was set above. */
  lemma SetBit(bits: bv8, bit: bv8)
    requires bit != 0 && bit & (bit - 1) == 0
    requires bits & (bit | (bit - 1)) == 0
    ensures (bits | bit) as int == bits as int + bit as int
    ensures (bits | bit) & (bit - 1) == 0
    ensures ShiftFor((bits | bit) as int) == Min(ShiftFor(bits as int), ShiftFor(bit as int))
  {
  }

  /** One of the blocks that collect the fraction bits: when the rest of the
      fraction reaches the bit's weight, the bit is set, the weight taken off
      and the shift lowered to `bitShift` if no higher bit is set. What is
      collected plus what is left stays the same and the rest drops below
      the weight. */
  method CollectBit(bits: bv8, runningF: real, shift: int, bit: bv8, weight: real, bitShift: int)
    returns (bits': bv8, runningF': real, shift': int)
    requires bit != 0 && bit & (bit - 1) == 0 && bits & (bit | (bit - 1)) == 0
    requires 0.0 <= runningF < 2.0 * weight && 32.0 * weight == (bit as int) as real
    requires shift == ShiftFor(bits as int) && bitShift == ShiftFor(bit as int)
    ensures (bits' as int) as real + 32.0 * runningF' == (bits as int) as real + 32.0 * runningF
    ensures 0.0 <= runningF' < weight
    ensures bits' & (bit - 1) == 0
    ensures shift' == ShiftFor(bits' as int)
  {
    bits', runningF', shift' := bits, runningF, shift;
    if runningF' >= weight {
      SetBit(bits', bit);
      bits' := bits' | bit;
      runningF' := runningF' - weight;
      shift' := Min(shift', bitShift);
    }
  }

  /** The last fraction bit completes the truncation of the fraction to
      five binary places. */
  lemma CollectedSteps(intValue: int, fractValue: real, collected: int, rest: real)
    requires intValue >= 0 && 0.0 <= fractValue < 1.0
    requires collected as real + 32.0 * rest == 32.0 * (Min(intValue, 7) as real + fractValue)
    requires 0.0 <= rest < 0.03125
    ensures collected == StepsOf(intValue, fractValue)
  {
    var k := collected - 32 * Min(intValue, 7);
    assert 32.0 * fractValue == k as real + 32.0 * rest;
  }

  /** The mantissa as encoding computes it: one bit per weight from 4 down
      to 1/32, set greedily, then shifted so that the first set bit lands
      on bit 3. */
  method MantissaBits(intValue: int, fractValue: real) returns (mantissa: bv8)
    requires intValue >= 0 && 0.0 <= fractValue < 1.0
    ensures var n := StepsOf(intValue, fractValue);
            mantissa as int == 8 * n / Pow2(HighBit(n))
  {
    var bits: bv8 := 0x00;
    var runningI := intValue;
    var runningF := fractValue;
    var shift := 7;
    if runningI >= 4 {
      SetBit(bits, 0x80);
      bits := bits | 0x80;
      runningI := runningI - 4;
      shift := 0;
    }
    if runningI >= 2 {
      SetBit(bits, 0x40);
      bits := bits | 0x40;
      runningI := runningI - 2;
      shift := Min(shift, 1);
    }
    if runningI >= 1 {
      SetBit(bits, 0x20);
      bits := bits | 0x20;
      shift := Min(shift, 2);
    }
    assert bits as int == 32 * Min(intValue, 7) && bits & 0x1F == 0 && shift == ShiftFor(bits as int);
    ghost var total := 32.0 * (Min(intValue, 7) as real + fractValue);
    bits, runningF, shift := CollectBit(bits, runningF, shift, 0x10, 0.5, 3);
    assert (bits as int) as real + 32.0 * runningF == total;
    bits, runningF, shift := CollectBit(bits, runningF, shift, 0x08, 0.25, 4);
    assert (bits as int) as real + 32.0 * runningF == total;
    bits, runningF, shift := CollectBit(bits, runningF, shift, 0x04, 0.125, 5);
    assert (bits as int) as real + 32.0 * runningF == total;
    bits, runningF, shift := CollectBit(bits, runningF, shift, 0x02, 0.0625, 6);
    assert (bits as int) as real + 32.0 * runningF == total;
    // The source's last block does not subtract; the remainder is never read
    // again, so subtracting here changes nothing.
    bits, runningF, shift := CollectBit(bits, runningF, shift, 0x01, 0.03125, 7);
    CollectedSteps(intValue, fractValue, bits as int, runningF);
    AlignMantissa(bits, shift);
    mantissa := Shr(Shl(bits, shift), 4);
  }

  /** A number below 16 converted to a byte and back is the same number. */
  lemma IntOfByte(k: int)
    requires 0 <= k < 16
    ensures (k as bv8) as int == k
  {
  }

  /** A byte whose value as a number is `k` is `k as bv8`. */
  lemma ByteOfInt(b: bv8, k: int)
    requires b as int == k
    ensures b == k as bv8
  {
  }

  /** The pieces encoding computes, put together, give `Encoding(value)`. */
  lemma EncodeAssembles(value: real, sign: bv8, exponentValue: bv8, mantissa: bv8)
    requires Abs(value) < 128.0
    requires sign == if value < 0.0 then 1 else 0
    requires exponentValue as int == HighBit(Steps(value))
    requires mantissa as int == 8 * Steps(value) / Pow2(HighBit(Steps(value)))
    ensures ((sign << 7) | (exponentValue << 4)) | mantissa == Encoding(value)
  {
    var n := Steps(value);
    NormalBounds(n);
    var p := HighBit(n);
    ByteOfInt(exponentValue, p);
    ByteOfInt(mantissa, 8 * n / Pow2(p));
  }

  /** Encodes a number as a packed byte. Within the range of `i8`, the
      Rust `as i8` cast of the integer part is a truncation; outside it
      saturates, which this model does not cover. */
  method Encode(value: real) returns (f: bv8)
    requires Abs(value) < 128.0
    ensures f == Encoding(value)
  {
    var sign: bv8 := if value < 0.0 then 1 else 0;
    var truncated := Truncate(value);
    var intValue := if truncated < 0 then -truncated else truncated;
    var fractValue := Abs(value - truncated as real);
    TruncateParts(value);
    var exponentValue := ExponentCode(intValue, fractValue);
    var mantissa := MantissaBits(intValue, fractValue);
    var r := sign << 7;
    var exponentBits := exponentValue << 4;
    f := (r | exponentBits) | mantissa;
    EncodeAssembles(value, sign, exponentValue, mantissa);
  }

  // ---------------------------------------------------------------------
  // Properties of encoding
  // ---------------------------------------------------------------------

  /** The fields of an encoded byte. */
  lemma EncodingFields(v: real)
    requires Abs(v) < 128.0
    ensures var b := Encoding(v);
            var n := Steps(v);
            && (SignBit(b) == 1 <==> v < 0.0)
            && Exponent(b) + 4 == HighBit(n)
            && Mantissa(b) as int == 8 * n / Pow2(HighBit(n))
  {
    var n := Steps(v);
    NormalBounds(n);
    var p := HighBit(n);
    var m := 8 * n / Pow2(p);
    IntOfByte(p);
    IntOfByte(m);
    PackFields(if v < 0.0 then 1 else 0, p as bv8, m as bv8);
  }

  /** Below 8, the steps of 1/32 are those of `|v|` as a whole. */
  lemma StepsBelowEight(v: real)
    requires Abs(v) < 8.0
    ensures Steps(v) == (32.0 * Abs(v)).Floor
  {
    var a := Abs(v);
    var i := a.Floor;
    assert 32.0 * a == (32 * i) as real + 32.0 * (a - i as real);
  }

  /** Thirty-two times what normalising `n` steps of 1/32 keeps: `n` with
      the bits below its four leading ones cleared. */
  ghost function Kept(n: int): int
  {
    if n >= 128 then n / 16 * 16
    else if n >= 64 then n / 8 * 8
    else if n >= 32 then n / 4 * 4
    else if n >= 16 then n / 2 * 2
    else n
  }

  /** The denominator of the normalised form of `n` steps of 1/32. */
  ghost function Denominator(n: int): int
  {
    if n >= 128 then 2
    else if n >= 64 then 4
    else if n >= 32 then 8
    else if n >= 16 then 16
    else if n >= 8 then 32
    else if n >= 4 then 64
    else if n >= 2 then 128
    else 256
  }

  /** The unit in the last place of the normalised form of `n`, in steps of 1/32. */
  ghost function KeptUnit(n: int): int
  {
    if n >= 128 then 16
    else if n >= 64 then 8
    else if n >= 32 then 4
    else if n >= 16 then 2
    else 1
  }

  /** A fraction whose cross product with 32 is `k` is `k` steps of 1/32. */
  lemma StepRatio(x: int, q: int, k: int)
    requires q > 0 && 32 * x == k * q
    ensures x as real / q as real == k as real / 32.0
  {
    assert (x as real) * 32.0 == (k as real) * (q as real);
  }

  /** The denominator the exponent of `n` gives. */
  lemma KeptDenominator(n: nat)
    requires n < 256
    ensures HighBit(n) < 8
    ensures Pow2(8 - HighBit(n)) == Denominator(n)
  {
    if n >= 128 {
      assert Pow2(7) == 128 && Pow2(8) == 256;
      HighBitUnique(n, 7);
      assert Pow2(1) == 2;
    } else if n >= 64 {
      assert Pow2(6) == 64 && Pow2(7) == 128;
      HighBitUnique(n, 6);
      assert Pow2(2) == 4;
    } else if n >= 32 {
      assert Pow2(5) == 32 && Pow2(6) == 64;
      HighBitUnique(n, 5);
      assert Pow2(3) == 8;
    } else if n >= 16 {
      assert Pow2(4) == 16 && Pow2(5) == 32;
      HighBitUnique(n, 4);
      assert Pow2(4) == 16;
    } else if n >= 8 {
      assert Pow2(3) == 8 && Pow2(4) == 16;
      HighBitUnique(n, 3);
      assert Pow2(5) == 32;
    } else if n >= 4 {
      assert Pow2(2) == 4 && Pow2(3) == 8;
      HighBitUnique(n, 2);
      assert Pow2(6) == 64;
    } else if n >= 2 {
      assert Pow2(1) == 2 && Pow2(2) == 4;
      HighBitUnique(n, 1);
      assert Pow2(7) == 128;
    } else if n >= 1 {
      assert Pow2(0) == 1 && Pow2(1) == 2;
      HighBitUnique(n, 0);
      assert Pow2(8) == 256;
    } else {
      assert Pow2(8) == 256;
    }
  }

  /** The last-place unit the exponent of `n` gives. */
  lemma KeptUnitPower(n: nat)
    requires n < 256
    ensures HighBit(n) < 8
    ensures Pow2(Min(8 - HighBit(n), 5)) * KeptUnit(n) == 32
  {
    if n >= 128 {
      assert Pow2(7) == 128 && Pow2(8) == 256;
      HighBitUnique(n, 7);
      assert Pow2(1) == 2;
    } else if n >= 64 {
      assert Pow2(6) == 64 && Pow2(7) == 128;
      HighBitUnique(n, 6);
      assert Pow2(2) == 4;
    } else if n >= 32 {
      assert Pow2(5) == 32 && Pow2(6) == 64;
      HighBitUnique(n, 5);
      assert Pow2(3) == 8;
    } else if n >= 16 {
      assert Pow2(4) == 16 && Pow2(5) == 32;
      HighBitUnique(n, 4);
      assert Pow2(4) == 16;
    } else if n >= 8 {
      assert Pow2(3) == 8 && Pow2(4) == 16;
      HighBitUnique(n, 3);
      assert Pow2(5) == 32;
    } else if n >= 4 {
      assert Pow2(2) == 4 && Pow2(3) == 8;
      HighBitUnique(n, 2);
      assert Pow2(5) == 32;
    } else if n >= 2 {
      assert Pow2(1) == 2 && Pow2(2) == 4;
      HighBitUnique(n, 1);
      assert Pow2(5) == 32;
    } else if n >= 1 {
      assert Pow2(0) == 1 && Pow2(1) == 2;
      HighBitUnique(n, 0);
      assert Pow2(5) == 32;
    } else {
      assert Pow2(5) == 32;
    }
  }

  lemma KeptProducts(n: nat)
    requires n < 256
    ensures 32 * TopFour(n) == Kept(n) * Denominator(n)
  {
  }

  lemma KeptScaled(n: nat, p: nat)
    requires n < 256 && p == HighBit(n) && p < 8
    ensures 32 * (8 * n / Pow2(p)) == Kept(n) * Pow2(8 - p)
    ensures 32 == KeptUnit(n) * Pow2(Min(8 - p, 5))
  {
    TopFourScaled(n);
    KeptDenominator(n);
    KeptUnitPower(n);
    KeptProducts(n);
  }

  /** A unit fraction of 32 as a count of 1/32 steps. */
  lemma UnitRatio(u: int, k: int)
    requires u > 0 && k * u == 32
    ensures 1.0 / u as real == k as real / 32.0
  {
    assert (k as real) * (u as real) == 32.0;
  }

  lemma KeptMagnitude(n: nat, p: nat)
    requires n < 256 && p == HighBit(n) && p < 8
    ensures (8 * n / Pow2(p)) as real / Pow2(8 - p) as real == Kept(n) as real / 32.0
    ensures 1.0 / Pow2(Min(8 - p, 5)) as real == KeptUnit(n) as real / 32.0
  {
    KeptScaled(n, p);
    var x, q, u := 8 * n / Pow2(p), Pow2(8 - p), Pow2(Min(8 - p, 5));
    StepRatio(x, q, Kept(n));
    UnitRatio(u, KeptUnit(n));
  }

  /** Normalising the steps of 1/32 in `a` keeps the four leading bits: the
      result is at most `a` and less than one unit of its last place below. */
  lemma GridBound(a: real, n: nat, p: nat)
    requires 0.0 <= a && n == (32.0 * a).Floor && n < 256 && p == HighBit(n) && p < 8
    ensures var magnitude := (8 * n / Pow2(p)) as real / Pow2(8 - p) as real;
            magnitude <= a < magnitude + 1.0 / Pow2(Min(8 - p, 5)) as real
  {
    KeptMagnitude(n, p);
    assert Kept(n) <= n < Kept(n) + KeptUnit(n);
  }

  /** Below 8, encoding truncates toward zero: it keeps the sign, the result
      is at most `|v|` in magnitude, it falls short by less than one unit in
      the last place of its exponent (and never by 1/32 or more), and its
      mantissa is normalised unless the result is zero. */
  lemma EncodingTruncates(v: real)
    requires Abs(v) < 8.0
    ensures var b := Encoding(v);
            && (SignBit(b) == 1 <==> v < 0.0)
            && Magnitude(b) <= Abs(v) < Magnitude(b) + 1.0 / Pow2(Min(4 - Exponent(b), 5)) as real
            && (Mantissa(b) >= 8 || b & 0x7F == 0)
  {
    var b := Encoding(v);
    var n := Steps(v);
    var p := HighBit(n);
    EncodingFields(v);
    StepsBelowEight(v);
    NormalBounds(n);
    GridBound(Abs(v), n, p);
    assert 4 - Exponent(b) == 8 - p;
    if n == 0 {
      UnpackFields(b);
    }
  }

  /** From 8 up the integer part saturates at seven: the steps are 224
      plus those of the fraction, and the fraction's first bit decides the
      mantissa that normalising keeps. */
  lemma SaturatedSteps(v: real)
    requires 8.0 <= Abs(v) < 128.0
    ensures var fraction := Abs(v) - Abs(v).Floor as real;
            var n := Steps(v);
            && 224 <= n < 256
            && (n / 16 == 15 <==> fraction >= 0.5)
            && (n / 16 == 14 <==> fraction < 0.5)
  {
  }

  /** From 8 up, encoding saturates: the result is 7, or 7.5 when the
      fraction is at least one half, with the sign of `v`. */
  lemma EncodingSaturates(v: real)
    requires 8.0 <= Abs(v) < 128.0
    ensures var b := Encoding(v);
            var fraction := Abs(v) - Abs(v).Floor as real;
            && (SignBit(b) == 1 <==> v < 0.0)
            && Exponent(b) == 3
            && Mantissa(b) == (if fraction >= 0.5 then 15 else 14)
            && Magnitude(b) == (if fraction >= 0.5 then 7.5 else 7.0)
  {
    var n := Steps(v);
    SaturatedSteps(v);
    EncodingFields(v);
    TopFourScaled(n);
    KeptDenominator(n);
  }

  /** The bytes encoding reproduces: zero and the normalised, non-negative-zero
      bytes on the grid of 1/32. */
  ghost predicate Canonical(b: bv8)
  {
    b == 0 || (Mantissa(b) >= 8 && (32.0 * Magnitude(b)).Floor as real == 32.0 * Magnitude(b))
  }

  /** The denominator of a byte with exponent code `c`, as a table. */
  ghost function CodeDenominator(c: int): int
  {
    if c >= 7 then 2
    else if c == 6 then 4
    else if c == 5 then 8
    else if c == 4 then 16
    else if c == 3 then 32
    else if c == 2 then 64
    else if c == 1 then 128
    else 256
  }

  /** The highest-bit range a normalised mantissa under code `c` spans, in
      steps of 1/32. */
  ghost function CodeLow(c: int): int
  {
    if c >= 7 then 128
    else if c == 6 then 64
    else if c == 5 then 32
    else if c == 4 then 16
    else if c == 3 then 8
    else if c == 2 then 4
    else if c == 1 then 2
    else 1
  }

  lemma CodePowers(c: int)
    requires 0 <= c < 8
    ensures Pow2(8 - c) == CodeDenominator(c)
    ensures Pow2(c) == CodeLow(c) && Pow2(c + 1) == 2 * CodeLow(c)
  {
    if c == 7 {
      assert Pow2(7) == 128 && Pow2(8) == 256 && Pow2(1) == 2;
    } else if c == 6 {
      assert Pow2(6) == 64 && Pow2(7) == 128 && Pow2(2) == 4;
    } else if c == 5 {
      assert Pow2(5) == 32 && Pow2(6) == 64 && Pow2(3) == 8;
    } else if c == 4 {
      assert Pow2(4) == 16 && Pow2(5) == 32 && Pow2(4) == 16;
    } else if c == 3 {
      assert Pow2(3) == 8 && Pow2(4) == 16 && Pow2(5) == 32;
    } else if c == 2 {
      assert Pow2(2) == 4 && Pow2(3) == 8 && Pow2(6) == 64;
    } else if c == 1 {
      assert Pow2(1) == 2 && Pow2(2) == 4 && Pow2(7) == 128;
    } else {
      assert Pow2(0) == 1 && Pow2(1) == 2 && Pow2(8) == 256;
    }
  }

  /** A normalised mantissa `m` under code `c` that is a whole number `n`
      of steps of 1/32 has its highest set bit at bit `c` of `n`, and
      normalising `n` gives `m` back. */
  lemma CodeSteps(c: int, m: int, n: int)
    requires 0 <= c < 8 && 8 <= m < 16 && n * CodeDenominator(c) == 32 * m
    ensures CodeLow(c) <= n < 2 * CodeLow(c) && TopFour(n) == m
  {
  }

  /** A real that is `32 m / q` and a whole number gives the integer cross
      product. */
  lemma CrossSteps(n: int, m: int, q: int)
    requires q > 0 && n as real == 32.0 * (m as real / q as real)
    ensures n * q == 32 * m
  {
    assert n as real * q as real == 32.0 * m as real;
  }

  /** Bytes with the same sign, exponent and mantissa are the same byte. */
  lemma SameFields(x: bv8, y: bv8)
    requires SignBit(x) == SignBit(y) && Exponent(x) == Exponent(y) && Mantissa(x) == Mantissa(y)
    ensures x == y
  {
    UnpackFields(x);
    UnpackFields(y);
  }

  /** Zero encodes as the all-zero byte. */
  lemma ZeroEncoding()
    ensures Encoding(0.0) == 0
  {
    assert Steps(0.0) == 0;
    assert HighBit(0) == 0 && Pow2(0) == 1;
  }

  /** Encoding the value of a canonical byte other than zero gives the
      byte back. */
  lemma NormalOfValue(b: bv8)
    requires Canonical(b) && b != 0
    ensures Encoding(Value(b)) == b
  {
    var v := Value(b);
    StepsBelowEight(v);
    var n := Steps(v);
    EncodingFields(v);
    var e := Encoding(v);
    var c := Exponent(b) + 4;
    var m := Mantissa(b) as int;
    CodePowers(c);
    CrossSteps(n, m, CodeDenominator(c));
    CodeSteps(c, m, n);
    HighBitUnique(n, c);
    TopFourScaled(n);
    assert Magnitude(b) > 0.0;
    assert SignBit(e) == SignBit(b);
    SameFields(e, b);
  }

  /** Encoding the value of a canonical byte gives the byte back. */
  lemma EncodingOfValue(b: bv8)
    requires Canonical(b)
    ensures Encoding(Value(b)) == b
  {
    if b == 0 {
      assert Value(b) == 0.0;
      ZeroEncoding();
    } else {
      NormalOfValue(b);
    }
  }

  /** A byte whose magnitude is a whole number `k` of steps of 1/32 and
      whose mantissa is normalised or zero is canonical, or negative zero. */
  lemma WholeSteps(b: bv8, k: int)
    requires 32.0 * Magnitude(b) == k as real
    requires Mantissa(b) >= 8 || (Mantissa(b) == 0 && Exponent(b) == -4)
    ensures Canonical(b) || b == 0x80
  {
    if Mantissa(b) == 0 {
      UnpackFields(b);
    }
  }

  /** Everything encoding yields is canonical, except the negative zero it
      gives for small negative numbers. */
  lemma EncodingCanonical(v: real)
    requires Abs(v) < 128.0
    ensures Canonical(Encoding(v)) || Encoding(v) == 0x80
  {
    var b := Encoding(v);
    var n := Steps(v);
    var p := HighBit(n);
    EncodingFields(v);
    NormalBounds(n);
    KeptMagnitude(n, p);
    assert Magnitude(b) == Kept(n) as real / 32.0 by {
      assert 4 - Exponent(b) == 8 - p;
    }
    WholeSteps(b, Kept(n));
  }

  /** Encoding is idempotent: re-encoding the value of an encoded byte gives
      the same byte, negative zero aside. */
  lemma EncodingIdempotent(v: real)
    requires Abs(v) < 128.0
    ensures var b := Encoding(v);
            Encoding(Value(b)) == if b == 0x80 then 0 else b
  {
    var b := Encoding(v);
    EncodingCanonical(v);
    if b == 0x80 {
      assert Value(b) == 0.0;
      EncodingOfValue(0);
    } else {
      EncodingOfValue(b);
    }
  }

  /** A byte comes back unchanged from decoding and re-encoding exactly when
      it is canonical: zero, or a normalised mantissa on the grid of 1/32. */
  lemma SurvivesIffCanonical(b: bv8)
    ensures Encoding(Value(b)) == b <==> Canonical(b)
  {
    if Canonical(b) {
      EncodingOfValue(b);
    } else {
      EncodingCanonical(Value(b));
      if Encoding(Value(b)) == b {
        assert b == 0x80 && Value(b) == 0.0;
        EncodingOfValue(0);
      }
    }
  }

  /** No byte stands for more than 7.5 in magnitude, so the sum of two
      decoded bytes is always in the range encoding accepts. */
  lemma MagnitudeBound(b: bv8)
    ensures 0.0 <= Magnitude(b) <= 7.5
  {
    Pow2Monotone(1, 4 - Exponent(b));
    assert Pow2(1) == 2;
  }
}
