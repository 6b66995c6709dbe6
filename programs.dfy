/**
 * The three register programs the OV2680 header compiles in: the global
 * initialisation sequence and the programs of the two catalogued modes.
 * Entries are listed in the header's order; the global sequence is the
 * concatenation of its register blocks.
 */
module Programs {
  import opened Words
  import opened Tokens
  import opened Registers

  /** Software reset, system and clock control (lines 222-230 of the global setting). */
  const GlobalSystemControl: seq<Reg> := [
    Reg(Bit8, 0x0103, 0x01), Reg(Bit8, 0x3002, 0x00), Reg(Bit8, 0x3016, 0x1c), Reg(Bit8, 0x3018, 0x44),
    Reg(Bit8, 0x3020, 0x00), Reg(Bit8, 0x3080, 0x02), Reg(Bit8, 0x3082, 0x45), Reg(Bit8, 0x3084, 0x09),
    Reg(Bit8, 0x3085, 0x04)
  ]

  /** Exposure/gain control, analog and array timing (lines 231-254 of the global setting). */
  const GlobalAnalogTiming: seq<Reg> := [
    Reg(Bit8, 0x3503, 0x03), Reg(Bit8, 0x350b, 0x36), Reg(Bit8, 0x3600, 0xb4), Reg(Bit8, 0x3603, 0x39),
    Reg(Bit8, 0x3604, 0x24), Reg(Bit8, 0x3605, 0x00), Reg(Bit8, 0x3620, 0x26), Reg(Bit8, 0x3621, 0x37),
    Reg(Bit8, 0x3622, 0x04), Reg(Bit8, 0x3628, 0x00), Reg(Bit8, 0x3705, 0x3c), Reg(Bit8, 0x370c, 0x50),
    Reg(Bit8, 0x370d, 0xc0), Reg(Bit8, 0x3718, 0x88), Reg(Bit8, 0x3720, 0x00), Reg(Bit8, 0x3721, 0x00),
    Reg(Bit8, 0x3722, 0x00), Reg(Bit8, 0x3723, 0x00), Reg(Bit8, 0x3738, 0x00), Reg(Bit8, 0x3717, 0x58),
    Reg(Bit8, 0x3781, 0x80), Reg(Bit8, 0x3789, 0x60), Reg(Bit8, 0x3800, 0x00), Reg(Bit8, 0x3819, 0x04)
  ]

  /** Black level, output format, MIPI and ISP; manual white balance 1x (lines 255-268 of the global setting). */
  const GlobalFormatIsp: seq<Reg> := [
    Reg(Bit8, 0x4000, 0x81), Reg(Bit8, 0x4001, 0x40), Reg(Bit8, 0x4602, 0x02), Reg(Bit8, 0x481f, 0x36),
    Reg(Bit8, 0x4825, 0x36), Reg(Bit8, 0x4837, 0x18), Reg(Bit8, 0x5002, 0x30), Reg(Bit8, 0x5004, 0x04),
    Reg(Bit8, 0x5005, 0x00), Reg(Bit8, 0x5006, 0x04), Reg(Bit8, 0x5007, 0x00), Reg(Bit8, 0x5008, 0x04),
    Reg(Bit8, 0x5009, 0x00), Reg(Bit8, 0x5080, 0x00)
  ]

  /** Analog additions and defect pixel correction (lines 269-291 of the global setting). */
  const GlobalAdditions: seq<Reg> := [
    Reg(Bit8, 0x3701, 0x64), Reg(Bit8, 0x3784, 0x0c), Reg(Bit8, 0x5780, 0x3e), Reg(Bit8, 0x5781, 0x0f),
    Reg(Bit8, 0x5782, 0x04), Reg(Bit8, 0x5783, 0x02), Reg(Bit8, 0x5784, 0x01), Reg(Bit8, 0x5785, 0x01),
    Reg(Bit8, 0x5786, 0x00), Reg(Bit8, 0x5787, 0x04), Reg(Bit8, 0x5788, 0x02), Reg(Bit8, 0x5789, 0x00),
    Reg(Bit8, 0x578a, 0x01), Reg(Bit8, 0x578b, 0x02), Reg(Bit8, 0x578c, 0x03), Reg(Bit8, 0x578d, 0x03),
    Reg(Bit8, 0x578e, 0x08), Reg(Bit8, 0x578f, 0x0c), Reg(Bit8, 0x5790, 0x08), Reg(Bit8, 0x5791, 0x04),
    Reg(Bit8, 0x5792, 0x00), Reg(Bit8, 0x5793, 0x00), Reg(Bit8, 0x5794, 0x03)
  ]

  /** Stream off (line 292 of the global setting). */
  const GlobalStreamOff: seq<Reg> := [Reg(Bit8, 0x0100, 0x00)]

  /** `ov2680_global_setting`: reset, fixed sensor configuration, stream off, terminator. */
  const GlobalSetting: seq<Reg> :=
    GlobalSystemControl + GlobalAnalogTiming + GlobalFormatIsp + GlobalAdditions + GlobalStreamOff
    + [Reg(TokTerm, 0x0000, 0x00)]

  /** Initial exposure and analog control of `ov2680_1616x916_30fps`. */
  const Mode1616x916Head: seq<Reg> := [
    Reg(Bit8, 0x3086, 0x00), Reg(Bit8, 0x3501, 0x48), Reg(Bit8, 0x3502, 0xe0), Reg(Bit8, 0x370a, 0x21)
  ]

  /** Sensor window start and end of `ov2680_1616x916_30fps` (0x3801..0x3807). */
  const Mode1616x916Window: seq<Reg> := [
    Reg(Bit8, 0x3801, 0x00), Reg(Bit8, 0x3802, 0x00), Reg(Bit8, 0x3803, 0x96), Reg(Bit8, 0x3804, 0x06),
    Reg(Bit8, 0x3805, 0x4f), Reg(Bit8, 0x3806, 0x04), Reg(Bit8, 0x3807, 0x39)
  ]

  /** Output size and HTS/VTS frame timing of `ov2680_1616x916_30fps` (0x3808..0x380f). */
  const Mode1616x916Output: seq<Reg> := [
    Reg(Bit8, 0x3808, 0x06), Reg(Bit8, 0x3809, 0x50), Reg(Bit8, 0x380a, 0x03), Reg(Bit8, 0x380b, 0x94),
    Reg(Bit8, 0x380c, 0x06), Reg(Bit8, 0x380d, 0xa8), Reg(Bit8, 0x380e, 0x05), Reg(Bit8, 0x380f, 0x0e)
  ]

  /** Offsets, subsampling, black level, ISP and flip/mirror of `ov2680_1616x916_30fps`. */
  const Mode1616x916Tail: seq<Reg> := [
    Reg(Bit8, 0x3810, 0x00), Reg(Bit8, 0x3811, 0x00), Reg(Bit8, 0x3812, 0x00), Reg(Bit8, 0x3813, 0x08),
    Reg(Bit8, 0x3814, 0x11), Reg(Bit8, 0x3815, 0x11), Reg(Bit8, 0x4008, 0x02), Reg(Bit8, 0x4009, 0x09),
    Reg(Bit8, 0x5081, 0x41), Reg(Bit8, 0x5708, 0x01), Reg(Bit8, 0x5704, 0x06), Reg(Bit8, 0x5705, 0x50),
    Reg(Bit8, 0x5706, 0x03), Reg(Bit8, 0x5707, 0x94), Reg(Bit8, 0x3820, 0xc0), Reg(Bit8, 0x3821, 0x00)
  ]

  /** `ov2680_1616x916_30fps`. */
  const Mode1616x916: seq<Reg> :=
    Mode1616x916Head + Mode1616x916Window + Mode1616x916Output + Mode1616x916Tail + [Reg(TokTerm, 0x0000, 0x00)]

  /** Initial exposure and analog control of `ov2680_1616x1216_30fps`. */
  const Mode1616x1216Head: seq<Reg> := [
    Reg(Bit8, 0x3086, 0x00), Reg(Bit8, 0x3501, 0x48), Reg(Bit8, 0x3502, 0xe0), Reg(Bit8, 0x370a, 0x21)
  ]

  /** Sensor window start and end of `ov2680_1616x1216_30fps` (0x3801..0x3807). */
  const Mode1616x1216Window: seq<Reg> := [
    Reg(Bit8, 0x3801, 0x00), Reg(Bit8, 0x3802, 0x00), Reg(Bit8, 0x3803, 0x00), Reg(Bit8, 0x3804, 0x06),
    Reg(Bit8, 0x3805, 0x4f), Reg(Bit8, 0x3806, 0x04), Reg(Bit8, 0x3807, 0xbf)
  ]

  /** Output size and HTS/VTS frame timing of `ov2680_1616x1216_30fps` (0x3808..0x380f). */
  const Mode1616x1216Output: seq<Reg> := [
    Reg(Bit8, 0x3808, 0x06), Reg(Bit8, 0x3809, 0x50), Reg(Bit8, 0x380a, 0x04), Reg(Bit8, 0x380b, 0xc0),
    Reg(Bit8, 0x380c, 0x06), Reg(Bit8, 0x380d, 0xa8), Reg(Bit8, 0x380e, 0x05), Reg(Bit8, 0x380f, 0x0e)
  ]

  /** Offsets, subsampling, black level, ISP and flip/mirror of `ov2680_1616x1216_30fps`. */
  const Mode1616x1216Tail: seq<Reg> := [
    Reg(Bit8, 0x3810, 0x00), Reg(Bit8, 0x3811, 0x00), Reg(Bit8, 0x3812, 0x00), Reg(Bit8, 0x3813, 0x00),
    Reg(Bit8, 0x3814, 0x11), Reg(Bit8, 0x3815, 0x11), Reg(Bit8, 0x4008, 0x00), Reg(Bit8, 0x4009, 0x0b),
    Reg(Bit8, 0x5081, 0x01), Reg(Bit8, 0x5708, 0x01), Reg(Bit8, 0x5704, 0x06), Reg(Bit8, 0x5705, 0x50),
    Reg(Bit8, 0x5706, 0x04), Reg(Bit8, 0x5707, 0xcc), Reg(Bit8, 0x3820, 0xc0), Reg(Bit8, 0x3821, 0x00)
  ]

  /** `ov2680_1616x1216_30fps`. */
  const Mode1616x1216: seq<Reg> :=
    Mode1616x1216Head + Mode1616x1216Window + Mode1616x1216Output + Mode1616x1216Tail + [Reg(TokTerm, 0x0000, 0x00)]

  /** What the blocks of the global setting leave in the sensor, each overriding the ones before. */
  function GlobalBlocksImage(): map<U16, U8> {
    assert AllByteWrites(GlobalSystemControl) && AllByteWrites(GlobalAnalogTiming);
    assert AllByteWrites(GlobalFormatIsp) && AllByteWrites(GlobalAdditions);
    assert AllByteWrites(GlobalStreamOff);
    Image(GlobalSystemControl) + Image(GlobalAnalogTiming) + Image(GlobalFormatIsp)
    + Image(GlobalAdditions) + Image(GlobalStreamOff)
  }

  /** The global setting is a byte program, and what it leaves in the sensor is what its blocks leave. */
  lemma GlobalSettingIsByteProgram()
    ensures |GlobalSetting| == 72 && ByteProgram(GlobalSetting)
    ensures RegisterImage(GlobalSetting) == GlobalBlocksImage()
  {
    assert AllByteWrites(GlobalSystemControl);
    assert AllByteWrites(GlobalAnalogTiming);
    assert AllByteWrites(GlobalFormatIsp);
    assert AllByteWrites(GlobalAdditions);
    assert AllByteWrites(GlobalStreamOff);
    var ab := GlobalSystemControl + GlobalAnalogTiming;
    ImageAppend(GlobalSystemControl, GlobalAnalogTiming);
    ImageAppend(ab, GlobalFormatIsp);
    ImageAppend(ab + GlobalFormatIsp, GlobalAdditions);
    ImageAppend(ab + GlobalFormatIsp + GlobalAdditions, GlobalStreamOff);
    ByteProgramOfWrites(ab + GlobalFormatIsp + GlobalAdditions + GlobalStreamOff, Reg(TokTerm, 0x0000, 0x00));
  }

  /** What the blocks of the 1616x916 program leave in the sensor, each overriding the ones before. */
  function Mode1616x916BlocksImage(): map<U16, U8> {
    assert AllByteWrites(Mode1616x916Head) && AllByteWrites(Mode1616x916Window);
    assert AllByteWrites(Mode1616x916Output) && AllByteWrites(Mode1616x916Tail);
    Image(Mode1616x916Head) + Image(Mode1616x916Window) + Image(Mode1616x916Output) + Image(Mode1616x916Tail)
  }

  /** The 1616x916 program is a byte program, and what it leaves in the sensor is what its blocks leave. */
  lemma Mode1616x916IsByteProgram()
    ensures |Mode1616x916| == 36 && ByteProgram(Mode1616x916)
    ensures RegisterImage(Mode1616x916) == Mode1616x916BlocksImage()
  {
    assert AllByteWrites(Mode1616x916Head);
    assert AllByteWrites(Mode1616x916Window);
    assert AllByteWrites(Mode1616x916Output);
    assert AllByteWrites(Mode1616x916Tail);
    var hw := Mode1616x916Head + Mode1616x916Window;
    ImageAppend(Mode1616x916Head, Mode1616x916Window);
    ImageAppend(hw, Mode1616x916Output);
    ImageAppend(hw + Mode1616x916Output, Mode1616x916Tail);
    ByteProgramOfWrites(hw + Mode1616x916Output + Mode1616x916Tail, Reg(TokTerm, 0x0000, 0x00));
  }

  /** What the blocks of the 1616x1216 program leave in the sensor, each overriding the ones before. */
  function Mode1616x1216BlocksImage(): map<U16, U8> {
    assert AllByteWrites(Mode1616x1216Head) && AllByteWrites(Mode1616x1216Window);
    assert AllByteWrites(Mode1616x1216Output) && AllByteWrites(Mode1616x1216Tail);
    Image(Mode1616x1216Head) + Image(Mode1616x1216Window) + Image(Mode1616x1216Output) + Image(Mode1616x1216Tail)
  }

  /** The 1616x1216 program is a byte program, and what it leaves in the sensor is what its blocks leave. */
  lemma Mode1616x1216IsByteProgram()
    ensures |Mode1616x1216| == 36 && ByteProgram(Mode1616x1216)
    ensures RegisterImage(Mode1616x1216) == Mode1616x1216BlocksImage()
  {
    assert AllByteWrites(Mode1616x1216Head);
    assert AllByteWrites(Mode1616x1216Window);
    assert AllByteWrites(Mode1616x1216Output);
    assert AllByteWrites(Mode1616x1216Tail);
    var hw := Mode1616x1216Head + Mode1616x1216Window;
    ImageAppend(Mode1616x1216Head, Mode1616x1216Window);
    ImageAppend(hw, Mode1616x1216Output);
    ImageAppend(hw + Mode1616x1216Output, Mode1616x1216Tail);
    ByteProgramOfWrites(hw + Mode1616x1216Output + Mode1616x1216Tail, Reg(TokTerm, 0x0000, 0x00));
  }

  /** The window block of the 1616x916 program sets exactly 0x3801..0x3807, to these values. */
  lemma Mode1616x916WindowImage()
    ensures AllByteWrites(Mode1616x916Window)
    ensures var m := Image(Mode1616x916Window);
      && (forall a: U16 | a < HORIZONTAL_START_L || a > VERTICAL_END_L :: a !in m)
      && (forall a: U16 | HORIZONTAL_START_L <= a <= VERTICAL_END_L :: a in m)
      && m[0x3801] == 0x00 && m[0x3802] == 0x00 && m[0x3803] == 0x96 && m[0x3804] == 0x06
      && m[0x3805] == 0x4f && m[0x3806] == 0x04 && m[0x3807] == 0x39
  {
    var w := Mode1616x916Window;
    assert AllByteWrites(w);
    ImageOmitsRange(w, 0x0000, HORIZONTAL_START_H);
    ImageOmitsRange(w, HORIZONTAL_OUTPUT_SIZE_H, 0xffff);
    ImageIsLastWrite(w, 0);
    ImageIsLastWrite(w, 1);
    ImageIsLastWrite(w, 2);
    ImageIsLastWrite(w, 3);
    ImageIsLastWrite(w, 4);
    ImageIsLastWrite(w, 5);
    ImageIsLastWrite(w, 6);
  }

  /** The output block of the 1616x916 program sets exactly 0x3808..0x380f. */
  lemma Mode1616x916OutputImage()
    ensures AllByteWrites(Mode1616x916Output)
    ensures var m := Image(Mode1616x916Output);
      && (forall a: U16 | a < HORIZONTAL_OUTPUT_SIZE_H || a > TIMING_VTS_L :: a !in m)
      && (forall a: U16 | HORIZONTAL_OUTPUT_SIZE_H <= a <= TIMING_VTS_L :: a in m)
      && m[0x3808] == 0x06 && m[0x3809] == 0x50 && m[0x380a] == 0x03 && m[0x380b] == 0x94
      && m[0x380c] == 0x06 && m[0x380d] == 0xa8 && m[0x380e] == 0x05 && m[0x380f] == 0x0e
  {
    var o := Mode1616x916Output;
    assert AllByteWrites(o);
    ImageOmitsRange(o, 0x0000, VERTICAL_END_L);
    ImageOmitsRange(o, TIMING_VTS_L + 1, 0xffff);
    ImageIsLastWrite(o, 0);
    ImageIsLastWrite(o, 1);
    ImageIsLastWrite(o, 2);
    ImageIsLastWrite(o, 3);
    ImageIsLastWrite(o, 4);
    ImageIsLastWrite(o, 5);
    ImageIsLastWrite(o, 6);
    ImageIsLastWrite(o, 7);
  }

  /**
   * The head and tail blocks of the 1616x916 program write neither the window,
   * the frame-timing nor the system-control registers.
   */
  lemma Mode1616x916OuterImages()
    ensures AllByteWrites(Mode1616x916Head) && AllByteWrites(Mode1616x916Tail)
    ensures forall a: U16 | HORIZONTAL_START_H <= a <= TIMING_VTS_L ::
      a !in Image(Mode1616x916Head) && a !in Image(Mode1616x916Tail)
    ensures forall a: U16 | SW_STREAM <= a <= SW_RESET ::
      a !in Image(Mode1616x916Head) && a !in Image(Mode1616x916Tail)
  {
    assert AllByteWrites(Mode1616x916Head) && AllByteWrites(Mode1616x916Tail);
    ImageOmitsRange(Mode1616x916Head, HORIZONTAL_START_H, TIMING_VTS_L);
    ImageOmitsRange(Mode1616x916Tail, HORIZONTAL_START_H, TIMING_VTS_L);
    ImageOmitsRange(Mode1616x916Head, SW_STREAM, SW_RESET);
    ImageOmitsRange(Mode1616x916Tail, SW_STREAM, SW_RESET);
  }

  /**
   * What the 1616x916 program leaves in the window registers 0x3801..0x3807;
   * it leaves 0x3800 and the system-control registers alone.
   */
  lemma Mode1616x916BlocksWindow()
    ensures var m := Mode1616x916BlocksImage();
      && HORIZONTAL_START_H !in m && SW_STREAM !in m && SW_RESET !in m
      && 0x3801 in m && m[0x3801] == 0x00 && 0x3802 in m && m[0x3802] == 0x00
      && 0x3803 in m && m[0x3803] == 0x96 && 0x3804 in m && m[0x3804] == 0x06
      && 0x3805 in m && m[0x3805] == 0x4f && 0x3806 in m && m[0x3806] == 0x04
      && 0x3807 in m && m[0x3807] == 0x39
  {
    Mode1616x916WindowImage();
    Mode1616x916OutputImage();
    Mode1616x916OuterImages();
  }

  /** What the 1616x916 program leaves in the output-size and frame-timing registers. */
  lemma Mode1616x916BlocksOutput()
    ensures var m := Mode1616x916BlocksImage();
      && 0x3808 in m && m[0x3808] == 0x06 && 0x3809 in m && m[0x3809] == 0x50
      && 0x380a in m && m[0x380a] == 0x03 && 0x380b in m && m[0x380b] == 0x94
      && 0x380c in m && m[0x380c] == 0x06 && 0x380d in m && m[0x380d] == 0xa8
      && 0x380e in m && m[0x380e] == 0x05 && 0x380f in m && m[0x380f] == 0x0e
  {
    Mode1616x916WindowImage();
    Mode1616x916OutputImage();
    Mode1616x916OuterImages();
  }

  /** The window block of the 1616x1216 program sets exactly 0x3801..0x3807. */
  lemma Mode1616x1216WindowImage()
    ensures AllByteWrites(Mode1616x1216Window)
    ensures var m := Image(Mode1616x1216Window);
      && (forall a: U16 | a < HORIZONTAL_START_L || a > VERTICAL_END_L :: a !in m)
      && (forall a: U16 | HORIZONTAL_START_L <= a <= VERTICAL_END_L :: a in m)
      && m[0x3801] == 0x00 && m[0x3802] == 0x00 && m[0x3803] == 0x00 && m[0x3804] == 0x06
      && m[0x3805] == 0x4f && m[0x3806] == 0x04 && m[0x3807] == 0xbf
  {
    var w := Mode1616x1216Window;
    assert AllByteWrites(w);
    ImageOmitsRange(w, 0x0000, HORIZONTAL_START_H);
    ImageOmitsRange(w, HORIZONTAL_OUTPUT_SIZE_H, 0xffff);
    ImageIsLastWrite(w, 0);
    ImageIsLastWrite(w, 1);
    ImageIsLastWrite(w, 2);
    ImageIsLastWrite(w, 3);
    ImageIsLastWrite(w, 4);
    ImageIsLastWrite(w, 5);
    ImageIsLastWrite(w, 6);
  }

  /** The output block of the 1616x1216 program sets exactly 0x3808..0x380f. */
  lemma Mode1616x1216OutputImage()
    ensures AllByteWrites(Mode1616x1216Output)
    ensures var m := Image(Mode1616x1216Output);
      && (forall a: U16 | a < HORIZONTAL_OUTPUT_SIZE_H || a > TIMING_VTS_L :: a !in m)
      && (forall a: U16 | HORIZONTAL_OUTPUT_SIZE_H <= a <= TIMING_VTS_L :: a in m)
      && m[0x3808] == 0x06 && m[0x3809] == 0x50 && m[0x380a] == 0x04 && m[0x380b] == 0xc0
      && m[0x380c] == 0x06 && m[0x380d] == 0xa8 && m[0x380e] == 0x05 && m[0x380f] == 0x0e
  {
    var o := Mode1616x1216Output;
    assert AllByteWrites(o);
    ImageOmitsRange(o, 0x0000, VERTICAL_END_L);
    ImageOmitsRange(o, TIMING_VTS_L + 1, 0xffff);
    ImageIsLastWrite(o, 0);
    ImageIsLastWrite(o, 1);
    ImageIsLastWrite(o, 2);
    ImageIsLastWrite(o, 3);
    ImageIsLastWrite(o, 4);
    ImageIsLastWrite(o, 5);
    ImageIsLastWrite(o, 6);
    ImageIsLastWrite(o, 7);
  }

  /**
   * The head and tail blocks of the 1616x1216 program write neither the window,
   * the frame-timing nor the system-control registers.
   */
  lemma Mode1616x1216OuterImages()
    ensures AllByteWrites(Mode1616x1216Head) && AllByteWrites(Mode1616x1216Tail)
    ensures forall a: U16 | HORIZONTAL_START_H <= a <= TIMING_VTS_L ::
      a !in Image(Mode1616x1216Head) && a !in Image(Mode1616x1216Tail)
    ensures forall a: U16 | SW_STREAM <= a <= SW_RESET ::
      a !in Image(Mode1616x1216Head) && a !in Image(Mode1616x1216Tail)
  {
    assert AllByteWrites(Mode1616x1216Head) && AllByteWrites(Mode1616x1216Tail);
    ImageOmitsRange(Mode1616x1216Head, HORIZONTAL_START_H, TIMING_VTS_L);
    ImageOmitsRange(Mode1616x1216Tail, HORIZONTAL_START_H, TIMING_VTS_L);
    ImageOmitsRange(Mode1616x1216Head, SW_STREAM, SW_RESET);
    ImageOmitsRange(Mode1616x1216Tail, SW_STREAM, SW_RESET);
  }

  /**
   * What the 1616x1216 program leaves in the window registers 0x3801..0x3807;
   * it leaves 0x3800 and the system-control registers alone.
   */
  lemma Mode1616x1216BlocksWindow()
    ensures var m := Mode1616x1216BlocksImage();
      && HORIZONTAL_START_H !in m && SW_STREAM !in m && SW_RESET !in m
      && 0x3801 in m && m[0x3801] == 0x00 && 0x3802 in m && m[0x3802] == 0x00
      && 0x3803 in m && m[0x3803] == 0x00 && 0x3804 in m && m[0x3804] == 0x06
      && 0x3805 in m && m[0x3805] == 0x4f && 0x3806 in m && m[0x3806] == 0x04
      && 0x3807 in m && m[0x3807] == 0xbf
  {
    Mode1616x1216WindowImage();
    Mode1616x1216OutputImage();
    Mode1616x1216OuterImages();
  }

  /** What the 1616x1216 program leaves in the output-size and frame-timing registers. */
  lemma Mode1616x1216BlocksOutput()
    ensures var m := Mode1616x1216BlocksImage();
      && 0x3808 in m && m[0x3808] == 0x06 && 0x3809 in m && m[0x3809] == 0x50
      && 0x380a in m && m[0x380a] == 0x04 && 0x380b in m && m[0x380b] == 0xc0
      && 0x380c in m && m[0x380c] == 0x06 && 0x380d in m && m[0x380d] == 0xa8
      && 0x380e in m && m[0x380e] == 0x05 && 0x380f in m && m[0x380f] == 0x0e
  {
    Mode1616x1216WindowImage();
    Mode1616x1216OutputImage();
    Mode1616x1216OuterImages();
  }

  /** The global setting begins by writing 0x01 to the software-reset register. */
  lemma GlobalSettingResetsFirst()
    ensures GlobalSetting[0] == Reg(Bit8, SW_RESET, 0x01)
  {
  }

  /** The last write of the global setting, just before its terminator, stops the stream. */
  lemma GlobalSettingStopsStreamLast()
    ensures |GlobalSetting| >= 2
    ensures GlobalSetting[|GlobalSetting| - 2] == Reg(Bit8, SW_STREAM, STOP_STREAMING)
    ensures GlobalSetting[|GlobalSetting| - 1].kind == TokTerm
  {
  }

  lemma SystemControlImage()
    ensures SW_RESET in Image(GlobalSystemControl) && Image(GlobalSystemControl)[SW_RESET] == 0x01
  {
    ImageIsLastWrite(GlobalSystemControl, 0);
  }

  lemma AnalogTimingImage()
    ensures SW_RESET !in Image(GlobalAnalogTiming)
    ensures HORIZONTAL_START_H in Image(GlobalAnalogTiming)
    ensures Image(GlobalAnalogTiming)[HORIZONTAL_START_H] == 0x00
  {
    ImageOmits(GlobalAnalogTiming, SW_RESET);
    ImageIsLastWrite(GlobalAnalogTiming, 22);
  }

  lemma FormatIspImage()
    ensures SW_RESET !in Image(GlobalFormatIsp) && HORIZONTAL_START_H !in Image(GlobalFormatIsp)
    ensures PairIn(Image(GlobalFormatIsp), MWB_RED_GAIN_H, MWB_RED_GAIN_H + 1) == Some(0x0400)
    ensures PairIn(Image(GlobalFormatIsp), MWB_GREEN_GAIN_H, MWB_GREEN_GAIN_H + 1) == Some(0x0400)
    ensures PairIn(Image(GlobalFormatIsp), MWB_BLUE_GAIN_H, MWB_BLUE_GAIN_H + 1) == Some(0x0400)
  {
    ImageOmits(GlobalFormatIsp, SW_RESET);
    ImageOmits(GlobalFormatIsp, HORIZONTAL_START_H);
    ImageIsLastWrite(GlobalFormatIsp, 7);
    ImageIsLastWrite(GlobalFormatIsp, 8);
    ImageIsLastWrite(GlobalFormatIsp, 9);
    ImageIsLastWrite(GlobalFormatIsp, 10);
    ImageIsLastWrite(GlobalFormatIsp, 11);
    ImageIsLastWrite(GlobalFormatIsp, 12);
  }

  lemma AdditionsImage()
    ensures SW_RESET !in Image(GlobalAdditions) && HORIZONTAL_START_H !in Image(GlobalAdditions)
    ensures forall a | MWB_RED_GAIN_H <= a <= MWB_BLUE_GAIN_H + 1 :: a !in Image(GlobalAdditions)
  {
    ImageOmits(GlobalAdditions, SW_RESET);
    ImageOmits(GlobalAdditions, HORIZONTAL_START_H);
    forall a: U16 | MWB_RED_GAIN_H <= a <= MWB_BLUE_GAIN_H + 1
      ensures a !in Image(GlobalAdditions)
    {
      ImageOmits(GlobalAdditions, a);
    }
  }

  lemma StreamOffImage()
    ensures Image(GlobalStreamOff) == map[SW_STREAM := STOP_STREAMING]
  {
  }

  /** What the blocks of the global setting leave in the registers the mode programs rely on. */
  lemma GlobalBlocksFacts()
    ensures var m := GlobalBlocksImage();
      && SW_RESET in m && m[SW_RESET] == 0x01
      && SW_STREAM in m && m[SW_STREAM] == STOP_STREAMING
      && HORIZONTAL_START_H in m && m[HORIZONTAL_START_H] == 0x00
      && PairIn(m, MWB_RED_GAIN_H, MWB_RED_GAIN_H + 1) == Some(0x0400)
      && PairIn(m, MWB_GREEN_GAIN_H, MWB_GREEN_GAIN_H + 1) == Some(0x0400)
      && PairIn(m, MWB_BLUE_GAIN_H, MWB_BLUE_GAIN_H + 1) == Some(0x0400)
  {
    SystemControlImage();
    AnalogTimingImage();
    FormatIspImage();
    AdditionsImage();
    StreamOffImage();
  }

  /**
   * What the global setting leaves in the sensor: reset requested (0x01 to
   * SW_RESET), the stream stopped, the window's horizontal start high byte
   * clear, and each manual white-balance gain pair at 0x0400 (1x), which is
   * within OV2680_MWB_GAIN_MAX.
   */
  lemma GlobalSettingImage()
    ensures ByteProgram(GlobalSetting)
    ensures var m := RegisterImage(GlobalSetting);
      && SW_RESET in m && m[SW_RESET] == 0x01
      && SW_STREAM in m && m[SW_STREAM] == STOP_STREAMING
      && HORIZONTAL_START_H in m && m[HORIZONTAL_START_H] == 0x00
      && PairIn(m, MWB_RED_GAIN_H, MWB_RED_GAIN_H + 1) == Some(0x0400)
      && PairIn(m, MWB_GREEN_GAIN_H, MWB_GREEN_GAIN_H + 1) == Some(0x0400)
      && PairIn(m, MWB_BLUE_GAIN_H, MWB_BLUE_GAIN_H + 1) == Some(0x0400)
      && 0x0400 <= MWB_GAIN_MAX
  {
    GlobalSettingIsByteProgram();
    GlobalBlocksFacts();
  }

  /**
   * The registers of a sensor that has run the global setting and then a
   * mode program: the mode's writes override the global ones.
   */
  function SessionImage(mode: seq<Reg>): (m: map<U16, U8>)
    requires ByteProgram(mode)
    ensures ByteProgram(GlobalSetting)
    ensures m == RegisterImage(GlobalSetting) + RegisterImage(mode)
  {
    GlobalSettingIsByteProgram();
    var g := GlobalSetting[..|GlobalSetting| - 1];
    var w := mode[..|mode| - 1];
    ImageAppend(g, w);
    Image(g + w)
  }

  /** A mode program that writes neither the reset nor the stream register leaves the stream stopped. */
  lemma SessionKeepsStreamOff(mode: seq<Reg>)
    requires ByteProgram(mode)
    requires forall j | 0 <= j < |mode| - 1 :: mode[j].reg != SW_STREAM && mode[j].reg != SW_RESET
    ensures SW_STREAM !in RegisterImage(mode) && SW_RESET !in RegisterImage(mode)
    ensures SessionImage(mode)[SW_STREAM] == STOP_STREAMING
  {
    RegisterImageKeys(mode, SW_STREAM);
    RegisterImageKeys(mode, SW_RESET);
    GlobalSettingIsByteProgram();
    StreamOffImage();
  }

  /** The 1616x916 program touches neither the reset nor the stream register: applying it does not start streaming. */
  lemma Mode1616x916KeepsStreamOff()
    ensures ByteProgram(Mode1616x916)
    ensures SW_STREAM !in RegisterImage(Mode1616x916) && SW_RESET !in RegisterImage(Mode1616x916)
    ensures SessionImage(Mode1616x916)[SW_STREAM] == STOP_STREAMING
  {
    Mode1616x916IsByteProgram();
    Mode1616x916BlocksWindow();
    GlobalSettingImage();
  }

  /** The 1616x1216 program touches neither the reset nor the stream register: applying it does not start streaming. */
  lemma Mode1616x1216KeepsStreamOff()
    ensures ByteProgram(Mode1616x1216)
    ensures SW_STREAM !in RegisterImage(Mode1616x1216) && SW_RESET !in RegisterImage(Mode1616x1216)
    ensures SessionImage(Mode1616x1216)[SW_STREAM] == STOP_STREAMING
  {
    Mode1616x1216IsByteProgram();
    Mode1616x1216BlocksWindow();
    GlobalSettingImage();
  }
}
