/**
 * Register addresses, limits and the bit layouts of the multi-register
 * fields of the OV2680: exposure, analog gain, the output size, and the
 * HTS/VTS frame timing pairs.
 */
module Registers {
  import opened Words
  import Arith

  // System control
  const SW_RESET: U16 := 0x0103
  const SW_STREAM: U16 := 0x0100
  const STOP_STREAMING: U8 := 0x00

  // Exposure and gain
  const MAX_EXPOSURE_VALUE: nat := 0xFFF1
  const MAX_GAIN_VALUE: nat := 0xFF

  // Sensor window and output timing
  const HORIZONTAL_START_H: U16 := 0x3800
  const HORIZONTAL_START_L: U16 := 0x3801
  const VERTICAL_START_H: U16 := 0x3802
  const VERTICAL_START_L: U16 := 0x3803
  const HORIZONTAL_END_H: U16 := 0x3804
  const HORIZONTAL_END_L: U16 := 0x3805
  const VERTICAL_END_H: U16 := 0x3806
  const VERTICAL_END_L: U16 := 0x3807
  const HORIZONTAL_OUTPUT_SIZE_H: U16 := 0x3808
  const HORIZONTAL_OUTPUT_SIZE_L: U16 := 0x3809
  const VERTICAL_OUTPUT_SIZE_H: U16 := 0x380a
  const VERTICAL_OUTPUT_SIZE_L: U16 := 0x380b
  const TIMING_HTS_H: U16 := 0x380C
  const TIMING_HTS_L: U16 := 0x380D
  const TIMING_VTS_H: U16 := 0x380e
  const TIMING_VTS_L: U16 := 0x380f

  // Manual white balance gains (high register of each channel)
  const MWB_RED_GAIN_H: U16 := 0x5004
  const MWB_GREEN_GAIN_H: U16 := 0x5006
  const MWB_BLUE_GAIN_H: U16 := 0x5008
  const MWB_GAIN_MAX: nat := 0x0fff

  // Limits of a mode's timing
  const BIN_FACTOR_MAX: nat := 4
  const COARSE_INTG_TIME_MIN: nat := 1
  const COARSE_INTG_TIME_MAX_MARGIN: nat := 6

  /** The three registers that hold a 20-bit exposure: EXPOSURE_H/M/L at 0x3500..0x3502. */
  datatype ExposureRegs = ExposureRegs(h: U8, m: U8, l: U8)

  /** The exposure the registers hold: bits 3:0 of H are bits 19:16, M is 15:8, L is 7:0. */
  function JoinExposure(r: ExposureRegs): (e: nat)
    ensures e < 0x10_0000
  {
    (r.h % 0x10) * 0x1_0000 + r.m * 0x100 + r.l
  }

  /** The bytes written to EXPOSURE_H/M/L for exposure `e`; bits above 19 are dropped. */
  function SplitExposure(e: nat): (r: ExposureRegs)
    ensures r.h < 0x10
    ensures JoinExposure(r) == e % 0x10_0000
  {
    Arith.DivDiv(e, 0x100, 0x100);
    Arith.DivDiv(e, 0x1_0000, 0x10);
    ExposureRegs((e / 0x1_0000) % 0x10, (e / 0x100) % 0x100, e % 0x100)
  }

  /** Any exposure below 2^20 survives the split into H, M and L. */
  lemma ExposureRoundTrip(e: nat)
    requires e < 0x10_0000
    ensures JoinExposure(SplitExposure(e)) == e
  {
  }

  /** Register contents whose unused H bits are clear are what splitting their exposure gives. */
  lemma ExposureRegsRoundTrip(r: ExposureRegs)
    requires r.h < 0x10
    ensures SplitExposure(JoinExposure(r)) == r
  {
    var e := JoinExposure(r);
    Arith.DivModUnique(e, 0x1_0000, r.h, r.m * 0x100 + r.l);
    Arith.DivModUnique(e, 0x100, r.h * 0x100 + r.m, r.l);
    Arith.DivModUnique(r.h * 0x100 + r.m, 0x100, r.h, r.m);
  }

  /** OV2680_MAX_EXPOSURE_VALUE is a 20-bit exposure; it needs no bits of EXPOSURE_H. */
  lemma MaxExposureFits()
    ensures MAX_EXPOSURE_VALUE < 0x10_0000
    ensures SplitExposure(MAX_EXPOSURE_VALUE) == ExposureRegs(0x00, 0xFF, 0xF1)
  {
  }

  /** The two registers that hold a 10-bit analog gain: AGC_H/L at 0x350a and 0x350b. */
  datatype GainRegs = GainRegs(h: U8, l: U8)

  /** The gain the registers hold: bits 1:0 of AGC_H are bits 9:8, AGC_L is 7:0. */
  function JoinGain(r: GainRegs): (g: nat)
    ensures g < 0x400
  {
    (r.h % 4) * 0x100 + r.l
  }

  /** The bytes written to AGC_H and AGC_L for gain `g`; bits above 9 are dropped. */
  function SplitGain(g: nat): (r: GainRegs)
    ensures r.h < 4
    ensures JoinGain(r) == g % 0x400
  {
    GainRegs((g / 0x100) % 4, g % 0x100)
  }

  lemma GainRoundTrip(g: nat)
    requires g < 0x400
    ensures JoinGain(SplitGain(g)) == g
  {
  }

  lemma GainRegsRoundTrip(r: GainRegs)
    requires r.h < 4
    ensures SplitGain(JoinGain(r)) == r
  {
    Arith.DivModUnique(JoinGain(r), 0x100, r.h, r.l);
  }

  /** OV2680_MAX_GAIN_VALUE fits in AGC_L alone. */
  lemma MaxGainNeedsNoHighBits()
    ensures MAX_GAIN_VALUE < 0x400
    ensures SplitGain(MAX_GAIN_VALUE) == GainRegs(0, 0xFF)
  {
  }

  /** A 16-bit quantity held as a high-byte register followed by a low-byte register. */
  function JoinPair(hi: U8, lo: U8): (v: U16)
    ensures v / 0x100 == hi && v % 0x100 == lo
  {
    hi * 0x100 + lo
  }

  /** The bytes written to a high/low register pair for a 16-bit quantity. */
  function SplitPair(v: U16): (r: (U8, U8))
    ensures JoinPair(r.0, r.1) == v
  {
    (v / 0x100, v % 0x100)
  }

  /** Register contents of a pair are what splitting their 16-bit value gives. */
  lemma PairRegsRoundTrip(hi: U8, lo: U8)
    ensures SplitPair(JoinPair(hi, lo)) == (hi, lo)
  {
  }

  /**
   * A 12-bit quantity over a register pair whose high register holds bits 11:8
   * in its bits 3:0: the window start and end coordinates and the output size.
   */
  function Join12(hi: U8, lo: U8): (v: nat)
    ensures v < 0x1000
    ensures hi < 0x10 ==> v == JoinPair(hi, lo)
  {
    (hi % 0x10) * 0x100 + lo
  }

  /** The bytes written to a 12-bit register pair; bits above 11 are dropped. */
  function Split12(v: nat): (r: (U8, U8))
    ensures r.0 < 0x10
    ensures Join12(r.0, r.1) == v % 0x1000
  {
    Arith.DivDiv(v, 0x100, 0x10);
    ((v / 0x100) % 0x10, v % 0x100)
  }

  /** Any 12-bit quantity survives the split into its high and low register. */
  lemma Pair12RoundTrip(v: nat)
    requires v < 0x1000
    ensures Join12(Split12(v).0, Split12(v).1) == v
  {
  }

  /** Register contents whose unused high bits are clear are what splitting their 12-bit value gives. */
  lemma Pair12RegsRoundTrip(hi: U8, lo: U8)
    requires hi < 0x10
    ensures Split12(Join12(hi, lo)) == (hi, lo)
  {
    Arith.DivModUnique(Join12(hi, lo), 0x100, hi, lo);
  }

  /** The value a register pair holds in a register image, if both halves are written. */
  function PairIn(img: map<U16, U8>, hi: U16, lo: U16): (r: Option<U16>)
    ensures r.Some? <==> hi in img && lo in img
    ensures r.Some? ==> r.value / 0x100 == img[hi] && r.value % 0x100 == img[lo]
  {
    if hi in img && lo in img then Some(JoinPair(img[hi], img[lo])) else None
  }

  /** The 12-bit value a register pair holds in a register image, if both halves are written. */
  function Pair12In(img: map<U16, U8>, hi: U16, lo: U16): (r: Option<nat>)
    ensures r.Some? <==> hi in img && lo in img
    ensures r.Some? ==> r.value < 0x1000 && r.value % 0x100 == img[lo]
    ensures r.Some? && img[hi] < 0x10 ==> Some(r.value) == PairIn(img, hi, lo)
  {
    if hi in img && lo in img then Some(Join12(img[hi], img[lo])) else None
  }
}
