/**
 * The mode catalogue `ov2680_res_preview`: each resolution descriptor pairs a
 * register program with the geometry and frame timing it claims, and the
 * lemmas here check the claims against what the program writes.
 */
module Modes {
  import opened Words
  import opened Tokens
  import opened Registers
  import opened Programs
  import Arith

  /** `struct ov2680_resolution`. */
  datatype Resolution = Resolution(
    desc: string,
    regs: seq<Reg>,
    width: int,
    height: int,
    fps: int,
    pixClkFreq: int,
    skipFrames: U32,
    pixelsPerLine: U16,
    linesPerFrame: U16,
    binFactorX: U8,
    binFactorY: U8,
    binMode: U8,
    used: bool)

  /** `ov2680_res_preview`, in the header's order. */
  const ResPreview: seq<Resolution> := [
    Resolution("ov2680_1616x1216_30fps", Mode1616x1216, 1616, 1216, 30, 66, 3, 1698, 1294, 0, 0, 0, false),
    Resolution("ov2680_1616x916_30fps", Mode1616x916, 1616, 916, 30, 66, 3, 1698, 1294, 0, 0, 0, false)
  ]

  /** Horizontal and vertical blanking are non-negative: a line and a frame hold the output. */
  predicate BlankingNonNegative(r: Resolution) {
    r.pixelsPerLine >= r.width && r.linesPerFrame >= r.height
  }

  predicate BinningWithinMax(r: Resolution) {
    r.binFactorX <= BIN_FACTOR_MAX && r.binFactorY <= BIN_FACTOR_MAX
  }

  /** Largest coarse integration time (in lines) a frame of this mode allows. */
  function CoarseExposureMax(r: Resolution): (hi: int)
    ensures hi < r.linesPerFrame
  {
    r.linesPerFrame - COARSE_INTG_TIME_MAX_MARGIN
  }

  /** The coarse exposure range [COARSE_INTG_TIME_MIN, CoarseExposureMax] has a member. */
  predicate ExposureRangeNonEmpty(r: Resolution) {
    COARSE_INTG_TIME_MIN <= CoarseExposureMax(r)
  }

  /**
   * The program writes the declared output width and height (12-bit
   * high/low pairs) and the declared lines per frame (the VTS pair).
   */
  predicate ProgramMatchesDescriptor(r: Resolution) {
    && ByteProgram(r.regs)
    && Pair12In(RegisterImage(r.regs), HORIZONTAL_OUTPUT_SIZE_H, HORIZONTAL_OUTPUT_SIZE_L) == Some(r.width)
    && Pair12In(RegisterImage(r.regs), VERTICAL_OUTPUT_SIZE_H, VERTICAL_OUTPUT_SIZE_L) == Some(r.height)
    && PairIn(RegisterImage(r.regs), TIMING_VTS_H, TIMING_VTS_L) == Some(r.linesPerFrame)
  }

  /**
   * After the global setting and the mode's program, the sensor window
   * (start to end, inclusive) is at least as large as the declared output.
   */
  predicate WindowCoversOutput(r: Resolution) {
    && ByteProgram(r.regs)
    && var s := SessionImage(r.regs);
    && var hStart := Pair12In(s, HORIZONTAL_START_H, HORIZONTAL_START_L);
    && var hEnd := Pair12In(s, HORIZONTAL_END_H, HORIZONTAL_END_L);
    && var vStart := Pair12In(s, VERTICAL_START_H, VERTICAL_START_L);
    && var vEnd := Pair12In(s, VERTICAL_END_H, VERTICAL_END_L);
    && hStart.Some? && hEnd.Some? && vStart.Some? && vEnd.Some?
    && hEnd.value - hStart.value + 1 >= r.width
    && vEnd.value - vStart.value + 1 >= r.height
  }

  /** Everything a catalogue entry must agree with. */
  predicate ConsistentMode(r: Resolution) {
    && BlankingNonNegative(r)
    && BinningWithinMax(r)
    && ExposureRangeNonEmpty(r)
    && ProgramMatchesDescriptor(r)
    && WindowCoversOutput(r)
  }

  // ---- ov2680_1616x1216_30fps ----

  /** 1616x1216 programs a 1616x1216 output, HTS 1704 and VTS 1294. */
  lemma Mode1616x1216Timing()
    ensures ByteProgram(Mode1616x1216)
    ensures var img := RegisterImage(Mode1616x1216);
      && Pair12In(img, HORIZONTAL_OUTPUT_SIZE_H, HORIZONTAL_OUTPUT_SIZE_L) == Some(1616)
      && Pair12In(img, VERTICAL_OUTPUT_SIZE_H, VERTICAL_OUTPUT_SIZE_L) == Some(1216)
      && PairIn(img, TIMING_HTS_H, TIMING_HTS_L) == Some(1704)
      && PairIn(img, TIMING_VTS_H, TIMING_VTS_L) == Some(1294)
  {
    Mode1616x1216IsByteProgram();
    Mode1616x1216BlocksOutput();
    var img := RegisterImage(Mode1616x1216);
    assert Pair12In(img, HORIZONTAL_OUTPUT_SIZE_H, HORIZONTAL_OUTPUT_SIZE_L) == Some(Join12(0x06, 0x50));
    assert Pair12In(img, VERTICAL_OUTPUT_SIZE_H, VERTICAL_OUTPUT_SIZE_L) == Some(Join12(0x04, 0xc0));
    assert PairIn(img, TIMING_HTS_H, TIMING_HTS_L) == Some(JoinPair(0x06, 0xa8));
    assert PairIn(img, TIMING_VTS_H, TIMING_VTS_L) == Some(JoinPair(0x05, 0x0e));
  }

  /** After the global setting, 1616x1216 reads out the window (0, 0)..(1615, 1215). */
  lemma Mode1616x1216Window()
    ensures ByteProgram(Mode1616x1216)
    ensures var s := SessionImage(Mode1616x1216);
      && Pair12In(s, HORIZONTAL_START_H, HORIZONTAL_START_L) == Some(0)
      && Pair12In(s, VERTICAL_START_H, VERTICAL_START_L) == Some(0)
      && Pair12In(s, HORIZONTAL_END_H, HORIZONTAL_END_L) == Some(1615)
      && Pair12In(s, VERTICAL_END_H, VERTICAL_END_L) == Some(1215)
  {
    Mode1616x1216IsByteProgram();
    Mode1616x1216BlocksWindow();
    GlobalSettingImage();
    var s := SessionImage(Mode1616x1216);
    assert Pair12In(s, HORIZONTAL_START_H, HORIZONTAL_START_L) == Some(Join12(0x00, 0x00));
    assert Pair12In(s, VERTICAL_START_H, VERTICAL_START_L) == Some(Join12(0x00, 0x00));
    assert Pair12In(s, HORIZONTAL_END_H, HORIZONTAL_END_L) == Some(Join12(0x06, 0x4f));
    assert Pair12In(s, VERTICAL_END_H, VERTICAL_END_L) == Some(Join12(0x04, 0xbf));
  }

  // ---- ov2680_1616x916_30fps ----

  /** 1616x916 programs a 1616x916 output, HTS 1704 and VTS 1294. */
  lemma Mode1616x916Timing()
    ensures ByteProgram(Mode1616x916)
    ensures var img := RegisterImage(Mode1616x916);
      && Pair12In(img, HORIZONTAL_OUTPUT_SIZE_H, HORIZONTAL_OUTPUT_SIZE_L) == Some(1616)
      && Pair12In(img, VERTICAL_OUTPUT_SIZE_H, VERTICAL_OUTPUT_SIZE_L) == Some(916)
      && PairIn(img, TIMING_HTS_H, TIMING_HTS_L) == Some(1704)
      && PairIn(img, TIMING_VTS_H, TIMING_VTS_L) == Some(1294)
  {
    Mode1616x916IsByteProgram();
    Mode1616x916BlocksOutput();
    var img := RegisterImage(Mode1616x916);
    assert Pair12In(img, HORIZONTAL_OUTPUT_SIZE_H, HORIZONTAL_OUTPUT_SIZE_L) == Some(Join12(0x06, 0x50));
    assert Pair12In(img, VERTICAL_OUTPUT_SIZE_H, VERTICAL_OUTPUT_SIZE_L) == Some(Join12(0x03, 0x94));
    assert PairIn(img, TIMING_HTS_H, TIMING_HTS_L) == Some(JoinPair(0x06, 0xa8));
    assert PairIn(img, TIMING_VTS_H, TIMING_VTS_L) == Some(JoinPair(0x05, 0x0e));
  }

  /** After the global setting, 1616x916 reads out the window (0, 150)..(1615, 1081). */
  lemma Mode1616x916Window()
    ensures ByteProgram(Mode1616x916)
    ensures var s := SessionImage(Mode1616x916);
      && Pair12In(s, HORIZONTAL_START_H, HORIZONTAL_START_L) == Some(0)
      && Pair12In(s, VERTICAL_START_H, VERTICAL_START_L) == Some(150)
      && Pair12In(s, HORIZONTAL_END_H, HORIZONTAL_END_L) == Some(1615)
      && Pair12In(s, VERTICAL_END_H, VERTICAL_END_L) == Some(1081)
  {
    Mode1616x916IsByteProgram();
    Mode1616x916BlocksWindow();
    GlobalSettingImage();
    var s := SessionImage(Mode1616x916);
    assert Pair12In(s, HORIZONTAL_START_H, HORIZONTAL_START_L) == Some(Join12(0x00, 0x00));
    assert Pair12In(s, VERTICAL_START_H, VERTICAL_START_L) == Some(Join12(0x00, 0x96));
    assert Pair12In(s, HORIZONTAL_END_H, HORIZONTAL_END_L) == Some(Join12(0x06, 0x4f));
    assert Pair12In(s, VERTICAL_END_H, VERTICAL_END_L) == Some(Join12(0x04, 0x39));
  }

  // ---- the catalogue ----

  /** The 1616x1216 entry agrees with its own program. */
  lemma ResPreview1616x1216Consistent()
    ensures ConsistentMode(ResPreview[0])
  {
    Mode1616x1216Timing();
    Mode1616x1216Window();
  }

  /** The 1616x916 entry agrees with its own program. */
  lemma ResPreview1616x916Consistent()
    ensures ConsistentMode(ResPreview[1])
  {
    Mode1616x916Timing();
    Mode1616x916Window();
  }

  /**
   * Every entry of `ov2680_res_preview` agrees with its own register program:
   * the output size and VTS it writes are the declared width, height and
   * lines per frame; its sensor window covers the output; blanking is
   * non-negative; binning is within OV2680_BIN_FACTOR_MAX; and the coarse
   * exposure range is non-empty.
   */
  lemma ResPreviewConsistent()
    ensures |ResPreview| == 2
    ensures forall r | r in ResPreview :: ConsistentMode(r)
  {
    ResPreview1616x1216Consistent();
    ResPreview1616x916Consistent();
  }

  /**
   * Each entry declares a line length (pixels_per_line) no longer than the
   * HTS its program writes, and at least as long as its output width.
   */
  lemma ResPreviewLineLengthWithinHts()
    ensures forall r | r in ResPreview ::
      && ByteProgram(r.regs)
      && PairIn(RegisterImage(r.regs), TIMING_HTS_H, TIMING_HTS_L).Some?
      && r.width <= r.pixelsPerLine <= PairIn(RegisterImage(r.regs), TIMING_HTS_H, TIMING_HTS_L).value
  {
    Mode1616x1216Timing();
    Mode1616x916Timing();
  }

  /**
   * Every coarse exposure value a catalogue mode allows is within
   * OV2680_MAX_EXPOSURE_VALUE, and as a 20-bit exposure field it splits with
   * EXPOSURE_H zero and joins back to itself.
   */
  lemma ResPreviewExposureFits(r: Resolution, e: nat)
    requires r in ResPreview
    requires COARSE_INTG_TIME_MIN <= e <= CoarseExposureMax(r)
    ensures e <= MAX_EXPOSURE_VALUE
    ensures SplitExposure(e).h == 0
    ensures JoinExposure(SplitExposure(e)) == e
  {
    Arith.DivModUnique(e, 0x1_0000, 0, e);
  }
}
