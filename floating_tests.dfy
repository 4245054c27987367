/** The worked examples of the floating-point format: the field getters,
    decoding and encoding of particular values. */
module FloatingTests {
  import opened Floating

  lemma FieldExamples()
    ensures SignBit(0x80) == 1 && SignBit(0x70) == 0
    ensures Exponent(0x70) == 3
    ensures Mantissa(0x0A) == 10
  {
  }

  lemma DecodeExamples()
    ensures Value(0x6B) == 2.75
    ensures Value(0x3C) == 0.375
    ensures Value(0x4A) == 0.625
    ensures Value(0x6D) == 3.25
    ensures Value(0x39) == 0.28125
    ensures Value(0xDC) == -1.5
    ensures Value(0xAB) == -0.171875
    ensures Value(0x00) == 0.0
  {
  }

  /** A value some canonical byte stands for exactly encodes as that byte. */
  lemma ExactExample(b: bv8, v: real)
    requires Canonical(b) && Value(b) == v
    ensures Encoding(v) == b && Value(Encoding(v)) == v
  {
    EncodingOfValue(b);
  }

  lemma EncodeMinusNineEighthsExample()
    ensures Encoding(-1.125) == 0xD9 && Value(0xD9) == -1.125
  {
    ExactExample(0xD9, -1.125);
  }

  lemma EncodeNineEighthsExample()
    ensures Encoding(1.125) == 0x59 && Value(0x59) == 1.125
  {
    ExactExample(0x59, 1.125);
  }

  lemma EncodeEighthExample()
    ensures Encoding(0.125) == 0x28 && Exponent(0x28) == -2 && Value(0x28) == 0.125
  {
    ExactExample(0x28, 0.125);
  }

  lemma EncodeThreeEighthsExample()
    ensures Encoding(0.375) == 0x3C && Value(0x3C) == 0.375
  {
    ExactExample(0x3C, 0.375);
  }

  lemma EncodeElevenQuartersExample()
    ensures Encoding(2.75) == 0x6B
  {
    ExactExample(0x6B, 2.75);
  }

  lemma EncodeThreeQuartersExample()
    ensures Encoding(0.75) == 0x4C
  {
    ExactExample(0x4C, 0.75);
  }

  lemma EncodeMinusSevenHalvesExample()
    ensures Encoding(-3.5) == 0xEE
  {
    ExactExample(0xEE, -3.5);
  }

  /** 0.525 keeps only its sixteen whole steps of 1/32 and reads back as 0.5. */
  lemma EncodeHalfExample()
    ensures Exponent(Encoding(0.525)) == 0 && Value(Encoding(0.525)) == 0.5
  {
    assert Steps(0.525) == 16;
    assert Pow2(4) == 16 && Pow2(5) == 32;
    HighBitUnique(16, 4);
    TopFourScaled(16);
    assert Encoding(0.525) == 0x48;
  }

  /** 5.25 is 168 steps; normalising keeps the top four bits, 5. */
  lemma EncodeFiveExample()
    ensures Encoding(5.25) == 0x7A
  {
    assert Steps(5.25) == 168;
    assert Pow2(7) == 128 && Pow2(8) == 256;
    HighBitUnique(168, 7);
    TopFourScaled(168);
  }

  /** -4.375 is 140 steps; normalising keeps 4, with the sign. */
  lemma EncodeFourExample()
    ensures Encoding(-4.375) == 0xF8
  {
    assert Steps(-4.375) == 140;
    assert Pow2(7) == 128 && Pow2(8) == 256;
    HighBitUnique(140, 7);
    TopFourScaled(140);
  }

  /** A byte off the grid of 1/32 does not come back: 9/128 re-encodes as
      the 8/128 below it. */
  lemma OffGridExample()
    ensures Value(0x19) == 0.0703125
    ensures Encoding(Value(0x19)) == 0x18
  {
    assert Steps(0.0703125) == 2;
    assert Pow2(1) == 2 && Pow2(2) == 4;
    HighBitUnique(2, 1);
    TopFourScaled(2);
  }

  /** A byte at or above 1/8 can be off the grid too: 9/64 re-encodes as
      the 8/64 below it. */
  lemma OffGridEighthExample()
    ensures Value(0x29) == 0.140625
    ensures Encoding(Value(0x29)) == 0x28
  {
    assert Steps(0.140625) == 4;
    assert Pow2(2) == 4 && Pow2(3) == 8;
    HighBitUnique(4, 2);
    TopFourScaled(4);
  }

  /** A byte whose mantissa is below 8 comes back normalised: 4/2 re-encodes
      as 8/4, with a lower exponent. */
  lemma UnnormalisedExample()
    ensures Value(0x74) == 2.0
    ensures Encoding(Value(0x74)) == 0x68
  {
    assert Steps(2.0) == 64;
    assert Pow2(6) == 64 && Pow2(7) == 128;
    HighBitUnique(64, 6);
    TopFourScaled(64);
  }
}
