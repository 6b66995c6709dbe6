# OV2680 sensor tables, modelled in Dafny

This project models the data language of the OV2680 camera-sensor header
in the atomisp staging driver (`drivers/staging/media/atomisp/i2c/ov2680.h`),
and checks the tables that are compiled in against each other.

- **Register-program entries.** An `ov2680_reg` holds a token, a 16-bit
  register offset and a 32-bit value. The token is one of three write widths,
  the list terminator or a delay marker, and `OV2680_TOK_MASK` tells the
  widths from the special tokens.
- **Programs.** A program is a list of entries ending in its one terminator.
  A *byte program* writes only 8-bit values. Its *register image* is the
  byte each register holds after the program has run: the last value
  written to it.
- **The three live programs.** These are `ov2680_global_setting`,
  `ov2680_1616x916_30fps` and `ov2680_1616x1216_30fps`. Each is transcribed
  entry by entry, as a concatenation of named blocks in source order.
- **The mode catalogue.** `ov2680_res_preview` is a fixed sequence of
  `ov2680_resolution` values. Each entry is checked against its own
  program:
  - the output size and VTS pairs decode to the declared width, height and
    lines per frame;
  - the sensor window the global setting and the mode program leave behind
    covers the output;
  - blanking is non-negative;
  - binning is within `OV2680_BIN_FACTOR_MAX`;
  - the coarse exposure range is non-empty, and every value in it is within
    `OV2680_MAX_EXPOSURE_VALUE` and round-trips through the 20-bit exposure
    field with `EXPOSURE_H` zero.
- **Field layouts.** The header's comments give the layouts of:
  - the 20-bit exposure over `EXPOSURE_H/M/L`;
  - the 10-bit gain over `AGC_H/L`;
  - the 12-bit window and output-size pairs;
  - the 16-bit HTS and VTS pairs;
  - the packed focal-length, f-number and f-number-range words.

  Each layout has a split (or pack) function and a join (or unpack)
  function, with round-trip lemmas in both directions.

Modules:

| file | module | contents |
|---|---|---|
| `words.dfy` | `Words` | `U8`, `U16`, `U32` and `Option` |
| `arith.dfy` | `Arith` | uniqueness of Euclidean division, and nested division |
| `tokens.dfy` | `Tokens` | token kinds, `Reg`, termination, payload, byte programs, register images, the write-buffer bound |
| `registers.dfy` | `Registers` | register addresses and limits; exposure, gain and register-pair layouts |
| `lens.dfy` | `Lens` | packed rationals and the f-number range |
| `programs.dfy` | `Programs` | the three programs and what they leave in the sensor |
| `modes.dfy` | `Modes` | `ov2680_resolution`, `ov2680_res_preview` and its consistency |

The bit layouts the header's comments describe are written as `/` and `%`
on non-negative integers. Token values are
`bv16`, so masking with `OV2680_TOK_MASK` is a bitwise `&`.

## Model

All source paths are under `drivers/staging/media/atomisp/i2c/`.

| member | source | states |
|---|---|---|
| Tokens.Code | drivers/staging/media/atomisp/i2c/ov2680.h:184-191 | the enumerator values 0x0001, 0x0002, 0x0004, 0xf000 and 0xfe00; `DecodeCode` shows they are pairwise distinct, and `MaskSeparatesWidths` that the mask splits them into widths and special tokens |
| Tokens.Decode | drivers/staging/media/atomisp/i2c/ov2680.h:184-191 | a value that decodes to a token is that token's enumerator value |
| Tokens.DecodeCode | drivers/staging/media/atomisp/i2c/ov2680.h:184-191 | the five enumerators are pairwise distinct: each token is recovered from its value |
| Tokens.WidthBits | drivers/staging/media/atomisp/i2c/ov2680.h:185-187 | a width token's enumerator value is the number of bytes it writes: 8, 16 or 32 value bits |
| Tokens.MaskSeparatesWidths | drivers/staging/media/atomisp/i2c/ov2680.h:184-191 | a token is a write width if and only if its value has no bit inside `OV2680_TOK_MASK` |
| Tokens.SpecialTokensDistinctUnderMask | drivers/staging/media/atomisp/i2c/ov2680.h:188-190 | the terminator and the delay token both have bits inside the mask, and they differ after masking |
| Tokens.Terminated | drivers/staging/media/atomisp/i2c/ov2680.h:188 | a program ends in its one terminator; `TerminatedIffFirstTermIsLast` shows this is the same as its first terminator being its last entry |
| Tokens.FirstTerm | drivers/staging/media/atomisp/i2c/ov2680.h:188 | returns the index of a terminator with none before it, or none when the list has no terminator |
| Tokens.TerminatedIffFirstTermIsLast | drivers/staging/media/atomisp/i2c/ov2680.h:188 | a list ends in its one and only terminator exactly when its first terminator is its last entry |
| Tokens.Payload | drivers/staging/media/atomisp/i2c/ov2680.h:188 | the entries read before the terminator: none if and only if there is no terminator; otherwise a terminator-free prefix followed by the terminator |
| Tokens.PayloadOfTerminated | drivers/staging/media/atomisp/i2c/ov2680.h:188 | the payload of a terminated program is everything but its last entry |
| Tokens.ByteProgramIntro | drivers/staging/media/atomisp/i2c/ov2680.h:201-205 | 8-bit writes of byte values followed by a terminator make a well-formed byte program |
| Tokens.ByteProgramOfWrites | drivers/staging/media/atomisp/i2c/ov2680.h:201-205 | appending a terminator to byte writes gives a byte program whose register image is that of the writes |
| Tokens.ByteProgram | drivers/staging/media/atomisp/i2c/ov2680.h:201-205 | a terminated program whose every entry before the terminator is an 8-bit write (`WidthBits` 8) of a byte value; `ByteProgramIntro` and `ByteProgramOfWrites` build one |
| Tokens.Image | drivers/staging/media/atomisp/i2c/ov2680.h:201-205 | the registers a list of byte writes sets, each holding its last write; `ImageKeys`, `ImageIsLastWrite` and `ImageAppend` establish this |
| Tokens.RegisterImage | drivers/staging/media/atomisp/i2c/ov2680.h:201-205 | what a byte program's payload leaves in the sensor; `RegisterImageKeys` and `RegisterImageAt` give its domain and values |
| Tokens.ImageKeys | drivers/staging/media/atomisp/i2c/ov2680.h:201-205 | the register image holds a register if and only if some entry writes it |
| Tokens.ImageOmits | drivers/staging/media/atomisp/i2c/ov2680.h:201-205 | a register no entry writes is absent from the image |
| Tokens.ImageOmitsRange | drivers/staging/media/atomisp/i2c/ov2680.h:201-205 | no register of a range is in the image when no entry writes inside that range |
| Tokens.RegisterImageKeys | drivers/staging/media/atomisp/i2c/ov2680.h:201-205 | a byte program's image holds exactly the registers its payload writes |
| Tokens.ImageIsLastWrite | drivers/staging/media/atomisp/i2c/ov2680.h:201-205 | a register holds the value of the last write to it |
| Tokens.RegisterImageAt | drivers/staging/media/atomisp/i2c/ov2680.h:201-205 | in a byte program, a register holds the value of the program's last write to it |
| Tokens.ImageAppend | drivers/staging/media/atomisp/i2c/ov2680.h:201-205 | running two lists of writes one after the other: the later list wins wherever both write |
| Registers.JoinExposure | drivers/staging/media/atomisp/i2c/ov2680.h:96-98 | the exposure the three registers hold is below 2^20 |
| Registers.SplitExposure | drivers/staging/media/atomisp/i2c/ov2680.h:96-98 | `EXPOSURE_H` uses only bits 3:0, and joining the split gives the exposure modulo 2^20 |
| Registers.ExposureRoundTrip | drivers/staging/media/atomisp/i2c/ov2680.h:96-98 | an exposure below 2^20 survives split then join |
| Registers.ExposureRegsRoundTrip | drivers/staging/media/atomisp/i2c/ov2680.h:96-98 | register contents with the unused `EXPOSURE_H` bits clear survive join then split |
| Registers.MaxExposureFits | drivers/staging/media/atomisp/i2c/ov2680.h:52 | `OV2680_MAX_EXPOSURE_VALUE` is a 20-bit exposure that splits to H=0x00, M=0xFF, L=0xF1 |
| Registers.JoinGain | drivers/staging/media/atomisp/i2c/ov2680.h:99-100 | the gain the two registers hold is below 2^10 |
| Registers.SplitGain | drivers/staging/media/atomisp/i2c/ov2680.h:99-100 | `AGC_H` uses only bits 1:0, and joining the split gives the gain modulo 2^10 |
| Registers.GainRoundTrip | drivers/staging/media/atomisp/i2c/ov2680.h:99-100 | a gain below 2^10 survives split then join |
| Registers.GainRegsRoundTrip | drivers/staging/media/atomisp/i2c/ov2680.h:99-100 | register contents with the unused `AGC_H` bits clear survive join then split |
| Registers.MaxGainNeedsNoHighBits | drivers/staging/media/atomisp/i2c/ov2680.h:53 | `OV2680_MAX_GAIN_VALUE` fits the gain field and leaves `AGC_H` zero |
| Registers.JoinPair | drivers/staging/media/atomisp/i2c/ov2680.h:114-117 | a high/low register pair's value has the high register as its upper byte and the low register as its lower byte |
| Registers.Join12 | drivers/staging/media/atomisp/i2c/ov2680.h:102-113 | a 12-bit window or size pair is below 0x1000, and equals the full pair value when the high register's upper bits are clear |
| Registers.SplitPair | drivers/staging/media/atomisp/i2c/ov2680.h:114-117 | the high and low bytes written for a 16-bit value, which join back to that value |
| Registers.PairRegsRoundTrip | drivers/staging/media/atomisp/i2c/ov2680.h:114-117 | any two register bytes survive join then split |
| Registers.PairIn | drivers/staging/media/atomisp/i2c/ov2680.h:114-117 | a pair is readable from an image if and only if both halves are written, and its bytes are those halves |
| Registers.Split12 | drivers/staging/media/atomisp/i2c/ov2680.h:102-113 | the bytes written for a 12-bit value: the high register uses only bits 3:0, and joining gives the value modulo 0x1000 |
| Registers.Pair12RoundTrip | drivers/staging/media/atomisp/i2c/ov2680.h:102-113 | any 12-bit value survives split then join |
| Registers.Pair12RegsRoundTrip | drivers/staging/media/atomisp/i2c/ov2680.h:102-113 | register bytes whose high register has bits 7:4 clear survive join then split |
| Registers.Pair12In | drivers/staging/media/atomisp/i2c/ov2680.h:102-113 | the same for 12-bit pairs: below 0x1000, low byte from the low register, equal to the full pair when the high bits are clear |
| Lens.PackRational | drivers/staging/media/atomisp/i2c/ov2680.h:55-59 | bits 31-16 of the word are the numerator and bits 15-0 the denominator |
| Lens.UnpackRational | drivers/staging/media/atomisp/i2c/ov2680.h:61-65 | the unpacked numerator and denominator recompose the word |
| Lens.RationalRoundTrip | drivers/staging/media/atomisp/i2c/ov2680.h:55-59 | any 16-bit numerator and denominator survive pack then unpack |
| Lens.PackedRationalRoundTrip | drivers/staging/media/atomisp/i2c/ov2680.h:61-65 | any 32-bit word survives unpack then pack |
| Lens.FNumberDefaultUnpacks | drivers/staging/media/atomisp/i2c/ov2680.h:61-65 | `OV2680_F_NUMBER_DEFAULT` unpacks to `OV2680_F_NUMBER_DEFAULT_NUM`/`OV2680_F_NUMBER_DEM` = 24/10 |
| Lens.FocalLengthDefaultUnpacks | drivers/staging/media/atomisp/i2c/ov2680.h:55-59 | `OV2680_FOCAL_LENGTH_DEFAULT` unpacks to 439/100, which differs from `OV2680_FOCAL_LENGTH_NUM`/`DEM` (334/100) |
| Lens.PackRange | drivers/staging/media/atomisp/i2c/ov2680.h:67-74 | bits 31-24, 23-16, 15-8 and 7-0 of the range word hold the maximum's numerator and denominator and the minimum's numerator and denominator |
| Lens.UnpackRange | drivers/staging/media/atomisp/i2c/ov2680.h:67-74 | the four unpacked bytes recompose the word |
| Lens.RangeRoundTrip | drivers/staging/media/atomisp/i2c/ov2680.h:67-74 | any four bytes survive pack then unpack |
| Lens.PackedRangeRoundTrip | drivers/staging/media/atomisp/i2c/ov2680.h:67-74 | any 32-bit word survives unpack then pack |
| Lens.FNumberRangeIsDefault | drivers/staging/media/atomisp/i2c/ov2680.h:67-74 | `OV2680_F_NUMBER_RANGE` unpacks to maximum = minimum = 24/10, the default f-number |
| Programs.GlobalSettingIsByteProgram | drivers/staging/media/atomisp/i2c/ov2680.h:221-295 | the global setting has 72 entries, is a byte program, and its image is the blocks' images, each overriding the ones before |
| Programs.Mode1616x916IsByteProgram | drivers/staging/media/atomisp/i2c/ov2680.h:694-733 | the 1616x916 program has 36 entries, is a byte program, and its image is its blocks' images, each overriding the ones before |
| Programs.Mode1616x1216IsByteProgram | drivers/staging/media/atomisp/i2c/ov2680.h:782-820 | the same for the 1616x1216 program |
| Programs.GlobalSettingResetsFirst | drivers/staging/media/atomisp/i2c/ov2680.h:222 | the first entry writes 0x01 to `OV2680_SW_RESET` |
| Programs.GlobalSettingStopsStreamLast | drivers/staging/media/atomisp/i2c/ov2680.h:292-294 | the last write before the terminator is `OV2680_STOP_STREAMING` to `OV2680_SW_STREAM` |
| Programs.SystemControlImage | drivers/staging/media/atomisp/i2c/ov2680.h:222-230 | the system-control block leaves 0x01 in the reset register |
| Programs.AnalogTimingImage | drivers/staging/media/atomisp/i2c/ov2680.h:231-254 | the analog/timing block leaves 0x3800 at 0x00 and does not touch the reset register |
| Programs.FormatIspImage | drivers/staging/media/atomisp/i2c/ov2680.h:255-268 | the format/ISP block sets each manual white-balance gain pair to 0x0400 |
| Programs.AdditionsImage | drivers/staging/media/atomisp/i2c/ov2680.h:269-291 | the additions block writes neither the reset register, nor 0x3800, nor the gain pairs |
| Programs.StreamOffImage | drivers/staging/media/atomisp/i2c/ov2680.h:292 | the last write block holds only the stream register, at stop |
| Programs.GlobalBlocksFacts | drivers/staging/media/atomisp/i2c/ov2680.h:221-295 | after all blocks: reset 0x01, stream stopped, 0x3800 = 0x00, each gain pair 0x0400 |
| Programs.GlobalSettingImage | drivers/staging/media/atomisp/i2c/ov2680.h:221-295 | the same facts about the global setting's register image, with 0x0400 within `OV2680_MWB_GAIN_MAX` |
| Programs.Mode1616x916WindowImage | drivers/staging/media/atomisp/i2c/ov2680.h:700-706 | the window block sets exactly 0x3801..0x3807, to the table's values |
| Programs.Mode1616x916OutputImage | drivers/staging/media/atomisp/i2c/ov2680.h:707-714 | the output block sets exactly 0x3808..0x380f, to the table's values |
| Programs.Mode1616x916OuterImages | drivers/staging/media/atomisp/i2c/ov2680.h:696-730 | the head and tail blocks write neither the 0x3800..0x380f registers nor the system-control registers |
| Programs.Mode1616x916BlocksWindow | drivers/staging/media/atomisp/i2c/ov2680.h:694-733 | the whole program leaves 0x3801..0x3807 at the table's values, and does not write 0x3800, the stream or the reset register |
| Programs.Mode1616x916BlocksOutput | drivers/staging/media/atomisp/i2c/ov2680.h:694-733 | the whole program leaves 0x3808..0x380f at the table's values |
| Programs.Mode1616x1216WindowImage | drivers/staging/media/atomisp/i2c/ov2680.h:787-793 | the window block sets exactly 0x3801..0x3807, to the table's values |
| Programs.Mode1616x1216OutputImage | drivers/staging/media/atomisp/i2c/ov2680.h:794-801 | the output block sets exactly 0x3808..0x380f, to the table's values |
| Programs.Mode1616x1216OuterImages | drivers/staging/media/atomisp/i2c/ov2680.h:783-817 | the head and tail blocks write neither the 0x3800..0x380f registers nor the system-control registers |
| Programs.Mode1616x1216BlocksWindow | drivers/staging/media/atomisp/i2c/ov2680.h:782-820 | the whole program leaves 0x3801..0x3807 at the table's values, and does not write 0x3800, the stream or the reset register |
| Programs.Mode1616x1216BlocksOutput | drivers/staging/media/atomisp/i2c/ov2680.h:782-820 | the whole program leaves 0x3808..0x380f at the table's values |
| Programs.SessionImage | drivers/staging/media/atomisp/i2c/ov2680.h:221-295 | running the global setting and then a mode program leaves the global image overridden by the mode's image |
| Programs.SessionKeepsStreamOff | drivers/staging/media/atomisp/i2c/ov2680.h:292 | a mode program that writes neither the stream nor the reset register leaves the stream stopped |
| Programs.Mode1616x916KeepsStreamOff | drivers/staging/media/atomisp/i2c/ov2680.h:694-733 | the 1616x916 program writes neither the stream nor the reset register, so after it the stream is still stopped |
| Programs.Mode1616x1216KeepsStreamOff | drivers/staging/media/atomisp/i2c/ov2680.h:782-820 | the 1616x1216 program writes neither the stream nor the reset register, so after it the stream is still stopped |
| Modes.CoarseExposureMax | drivers/staging/media/atomisp/i2c/ov2680.h:79-80 | the longest coarse exposure is shorter than the frame |
| Modes.Mode1616x1216Timing | drivers/staging/media/atomisp/i2c/ov2680.h:794-801 | the program's output pairs decode to 1616 by 1216, HTS to 1704 and VTS to 1294 |
| Modes.Mode1616x1216Window | drivers/staging/media/atomisp/i2c/ov2680.h:787-793 | after the global setting and this program, the window runs from (0, 0) to (1615, 1215) |
| Modes.Mode1616x916Timing | drivers/staging/media/atomisp/i2c/ov2680.h:707-714 | the program's output pairs decode to 1616 by 916, HTS to 1704 and VTS to 1294 |
| Modes.Mode1616x916Window | drivers/staging/media/atomisp/i2c/ov2680.h:700-706 | after the global setting and this program, the window runs from (0, 150) to (1615, 1081) |
| Modes.ResPreview1616x1216Consistent | drivers/staging/media/atomisp/i2c/ov2680.h:823-837 | the 1616x1216 entry agrees with its program (see `ResPreviewConsistent`) |
| Modes.ResPreview1616x916Consistent | drivers/staging/media/atomisp/i2c/ov2680.h:838-852 | the 1616x916 entry agrees with its program (see `ResPreviewConsistent`) |
| Modes.ResPreviewConsistent | drivers/staging/media/atomisp/i2c/ov2680.h:822-853 | every entry: its program's output pairs decode to its width and height; VTS decodes to its lines per frame; the window after the global setting covers the output; pixels per line ≥ width and lines per frame ≥ height; both bin factors ≤ `OV2680_BIN_FACTOR_MAX`; the coarse exposure range is non-empty |
| Modes.ResPreviewLineLengthWithinHts | drivers/staging/media/atomisp/i2c/ov2680.h:822-853 | every entry's declared pixels per line lies between its width and the HTS its program writes |
| Modes.ResPreviewExposureFits | drivers/staging/media/atomisp/i2c/ov2680.h:79-80 | every coarse exposure value a catalogue mode allows is within `OV2680_MAX_EXPOSURE_VALUE`, splits with `EXPOSURE_H` zero and survives split then join |

## Left out

- The driver's `.c` file is not part of this model. That excludes:
  - the interpreter that sends a program to the sensor;
  - the batching of consecutive writes into `ov2680_write_buffer`;
  - the I2C retry loop (`I2C_RETRY_COUNT`) and `I2C_MSG_LENGTH`;
  - mode selection, and exposure, gain and stream control.
- `ov2680_write_buffer` is modelled only as a bounded type (`Tokens.WriteBuffer`): at most `OV2680_MAX_WRITE_BUF_SIZE` data bytes. Flushing and batching are not modelled.
- `Programs.SessionImage` assumes that the global setting runs before a mode program. The header does not say so; the order belongs to the driver code.
- The register programs inside `#if 0` (`ov2680.h:298-688` and `738-778`) are compiled out and are not modelled.
- These are framework glue or unused by the live tables, and are not modelled:
  - `ov2680_device`, `ov2680_format`, `ov2680_write_ctrl`, `regval_list`;
  - `ov2680_res`, `N_RES` and the `res` field of `ov2680_resolution` (the catalogue is a fixed sequence);
  - the chip-ID, group-access, frame-offset and read-mode constants;
  - `OV2680_INTEGRATION_TIME_MARGIN` and the fine-integration-time constants.
- Flip and mirror (`ov2680.h:119-125`) are not modelled. The header does not say whether the bit constants are bit positions or masks. The mode programs' writes to 0x3820 and 0x3821 are kept as table data only.
- Modes.ResPreviewLineLengthWithinHts: does not claim that `pixels_per_line` equals the programmed HTS. The programs write HTS 0x06a8 = 1704, but both descriptors declare 1698 (with 1704 commented out). The model proves only width ≤ 1698 ≤ 1704.
- Lens.FocalLengthDefaultUnpacks: does not claim that `OV2680_FOCAL_LENGTH_DEFAULT` agrees with `OV2680_FOCAL_LENGTH_NUM`/`DEM`. It proves the opposite: the word holds 439/100, while the constants give 334/100. The header does not say which of the two is meant.
- Modes.ResPreviewExposureFits: proves only arithmetic about the coarse exposure value. The header never says that `EXPOSURE_H/M/L` hold the exposure in lines, so the lemma does not claim that a line count written to those registers means that many lines.
- The mode programs' initial writes to 0x3501/0x3502 are not checked against the exposure range. Read with the layout of the comment at `ov2680.h:96`, they give 0x48e0, which is larger than `lines_per_frame`. The unit of those registers is not stated in the header.
- The manual white-balance pairs are modelled as a high register and a low register at the next address (0x5004/0x5005 and so on). The header names only the high registers.
- The window and output-size high registers are all read as holding bits 11:8 in their bits 3:0. The header's comments say "Bit[11:8]" for the window registers and "Bit[3:0]" for the output-size registers, and both mean the same placement.
