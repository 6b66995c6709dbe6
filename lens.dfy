/**
 * The lens constants the driver reports: the focal length and the f-number as
 * rationals packed into one 32-bit word, and the f-number range packed as
 * four bytes.
 */
module Lens {
  import opened Words
  import Arith

  const FOCAL_LENGTH_NUM: nat := 334
  const FOCAL_LENGTH_DEM: nat := 100
  const F_NUMBER_DEFAULT_NUM: nat := 24
  const F_NUMBER_DEM: nat := 10

  const FOCAL_LENGTH_DEFAULT: U32 := 0x1B70064
  const F_NUMBER_DEFAULT: U32 := 0x18000a
  const F_NUMBER_RANGE: U32 := 0x180a180a

  /** A numerator over a denominator, each 16 bits wide. */
  datatype Rational = Rational(num: U16, den: U16)

  /** Bits 31-16 hold the numerator, bits 15-0 the denominator. */
  function PackRational(q: Rational): (w: U32)
    ensures w / 0x1_0000 == q.num && w % 0x1_0000 == q.den
  {
    q.num * 0x1_0000 + q.den
  }

  function UnpackRational(w: U32): (q: Rational)
    ensures q.num * 0x1_0000 + q.den == w
  {
    Rational(w / 0x1_0000, w % 0x1_0000)
  }

  lemma RationalRoundTrip(q: Rational)
    ensures UnpackRational(PackRational(q)) == q
  {
  }

  lemma PackedRationalRoundTrip(w: U32)
    ensures PackRational(UnpackRational(w)) == w
  {
  }

  /** The default f-number word is 24/10, the value of its NUM and DEM constants. */
  lemma FNumberDefaultUnpacks()
    ensures UnpackRational(F_NUMBER_DEFAULT) == Rational(F_NUMBER_DEFAULT_NUM, F_NUMBER_DEM)
    ensures UnpackRational(F_NUMBER_DEFAULT) == Rational(24, 10)
  {
  }

  /** The default focal-length word is 439/100 (4.39 mm), not FOCAL_LENGTH_NUM/DEM (3.34 mm). */
  lemma FocalLengthDefaultUnpacks()
    ensures UnpackRational(FOCAL_LENGTH_DEFAULT) == Rational(439, 100)
    ensures UnpackRational(FOCAL_LENGTH_DEFAULT) != Rational(FOCAL_LENGTH_NUM, FOCAL_LENGTH_DEM)
  {
  }

  /** The f-number range: maximum and minimum, each an 8-bit numerator over an 8-bit denominator. */
  datatype FNumberRange = FNumberRange(maxNum: U8, maxDen: U8, minNum: U8, minDen: U8)

  /** Bits 31-24, 23-16, 15-8 and 7-0 hold maxNum, maxDen, minNum and minDen. */
  function PackRange(r: FNumberRange): (w: U32)
    ensures w / 0x100_0000 == r.maxNum && w % 0x100 == r.minDen
    ensures (w / 0x1_0000) % 0x100 == r.maxDen && (w / 0x100) % 0x100 == r.minNum
  {
    var upper := r.maxNum * 0x100 + r.maxDen;
    var word := upper * 0x1_0000 + r.minNum * 0x100 + r.minDen;
    Arith.DivModUnique(word, 0x100, upper * 0x100 + r.minNum, r.minDen);
    Arith.DivModUnique(word, 0x1_0000, upper, r.minNum * 0x100 + r.minDen);
    Arith.DivModUnique(upper * 0x100 + r.minNum, 0x100, upper, r.minNum);
    Arith.DivModUnique(upper, 0x100, r.maxNum, r.maxDen);
    r.maxNum * 0x100_0000 + r.maxDen * 0x1_0000 + r.minNum * 0x100 + r.minDen
  }

  function UnpackRange(w: U32): (r: FNumberRange)
    ensures r.maxNum * 0x100_0000 + r.maxDen * 0x1_0000 + r.minNum * 0x100 + r.minDen == w
  {
    Arith.DivDiv(w, 0x100, 0x100);
    Arith.DivDiv(w, 0x1_0000, 0x100);
    FNumberRange(w / 0x100_0000, (w / 0x1_0000) % 0x100, (w / 0x100) % 0x100, w % 0x100)
  }

  lemma RangeRoundTrip(r: FNumberRange)
    ensures UnpackRange(PackRange(r)) == r
  {
  }

  lemma PackedRangeRoundTrip(w: U32)
    ensures PackRange(UnpackRange(w)) == w
  {
  }

  /** The range word says the f-number is fixed: maximum and minimum are both the default 24/10. */
  lemma FNumberRangeIsDefault()
    ensures UnpackRange(F_NUMBER_RANGE) == FNumberRange(24, 10, 24, 10)
    ensures UnpackRange(F_NUMBER_RANGE).maxNum == F_NUMBER_DEFAULT_NUM
    ensures UnpackRange(F_NUMBER_RANGE).maxDen == F_NUMBER_DEM
    ensures UnpackRange(F_NUMBER_RANGE).minNum == UnpackRational(F_NUMBER_DEFAULT).num
    ensures UnpackRange(F_NUMBER_RANGE).minDen == UnpackRational(F_NUMBER_DEFAULT).den
  {
  }
}
