/**
 * The register-program language of the OV2680 header: the token kinds of
 * `enum ov2680_tok_type`, the `struct ov2680_reg` entry, what it means for a
 * list of entries to be a terminated program, and the register image a
 * program of byte writes leaves behind.
 */
module Tokens {
  import opened Words

  /** `enum ov2680_tok_type`: three write widths and two special tokens. */
  datatype TokType = Bit8 | Bit16 | Bit32 | TokTerm | TokDelay

  /** The numeric value of each enumerator. */
  function Code(t: TokType): bv16 {
    match t
    case Bit8 => 0x0001
    case Bit16 => 0x0002
    case Bit32 => 0x0004
    case TokTerm => 0xf000
    case TokDelay => 0xfe00
  }

  /** `OV2680_TOK_MASK`: the bits that only the special tokens use. */
  const TOK_MASK: bv16 := 0xfff0

  /** A token that announces a register write of some width. */
  predicate IsWidth(t: TokType) {
    t.Bit8? || t.Bit16? || t.Bit32?
  }

  /** Number of value bits a width token writes: its enumerator value counts bytes. */
  function WidthBits(t: TokType): (n: nat)
    requires IsWidth(t)
    ensures n == 8 * (Code(t) as int)
    ensures n == 8 || n == 16 || n == 32
  {
    match t
    case Bit8 => 8
    case Bit16 => 16
    case Bit32 => 32
  }

  /** The token whose enumerator has value `c`, if any. */
  function Decode(c: bv16): (r: Option<TokType>)
    ensures r.Some? ==> Code(r.value) == c
  {
    if c == 0x0001 then Some(Bit8)
    else if c == 0x0002 then Some(Bit16)
    else if c == 0x0004 then Some(Bit32)
    else if c == 0xf000 then Some(TokTerm)
    else if c == 0xfe00 then Some(TokDelay)
    else None
  }

  /** The enumerators are pairwise distinct: every token is recovered from its value. */
  lemma DecodeCode(t: TokType)
    ensures Decode(Code(t)) == Some(t)
  {
  }

  /**
   * Masking a token's value with `TOK_MASK` tells the write widths (nothing
   * left) from the terminator and the delay token (something left).
   */
  lemma MaskSeparatesWidths(t: TokType)
    ensures IsWidth(t) <==> Code(t) & TOK_MASK == 0
  {
  }

  /** The two special tokens both have bits in the mask and stay distinct after masking. */
  lemma SpecialTokensDistinctUnderMask()
    ensures Code(TokTerm) & TOK_MASK != 0 && Code(TokDelay) & TOK_MASK != 0
    ensures Code(TokTerm) & TOK_MASK != Code(TokDelay) & TOK_MASK
  {
  }

  /** `struct ov2680_reg`: a token, a 16-bit register offset and a 32-bit value. */
  datatype Reg = Reg(kind: TokType, reg: U16, val: U32)

  /** A write whose token announces 8 value bits, of a value that fits in a byte. */
  predicate IsByteWrite(r: Reg) {
    IsWidth(r.kind) && WidthBits(r.kind) == 8 && r.val < 0x100
  }

  /** A program ends in its one and only terminator. */
  predicate Terminated(p: seq<Reg>) {
    && |p| > 0
    && p[|p| - 1].kind == TokTerm
    && forall i | 0 <= i < |p| - 1 :: p[i].kind != TokTerm
  }

  /** Index of the first terminator of `p`, or None when `p` has none. */
  function FirstTerm(p: seq<Reg>): (r: Option<nat>)
    ensures r.Some? ==> r.value < |p| && p[r.value].kind == TokTerm
    ensures r.Some? ==> forall j | 0 <= j < r.value :: p[j].kind != TokTerm
    ensures r.None? ==> forall j | 0 <= j < |p| :: p[j].kind != TokTerm
  {
    if p == [] then None
    else if p[0].kind == TokTerm then Some(0)
    else
      match FirstTerm(p[1..])
      case None => None
      case Some(k) => Some(k + 1)
  }

  /** A program is terminated exactly when its first terminator is its last entry. */
  lemma TerminatedIffFirstTermIsLast(p: seq<Reg>)
    ensures Terminated(p) <==> |p| > 0 && FirstTerm(p) == Some(|p| - 1)
  {
  }

  /**
   * The entries a reader of the list meets before the terminator. A list with
   * no terminator has no payload: reading it would run past its end.
   */
  function Payload(p: seq<Reg>): (q: Option<seq<Reg>>)
    ensures q.None? <==> forall j | 0 <= j < |p| :: p[j].kind != TokTerm
    ensures q.Some? ==> |q.value| < |p| && q.value == p[..|q.value|]
    ensures q.Some? ==> p[|q.value|].kind == TokTerm
    ensures q.Some? ==> forall j | 0 <= j < |q.value| :: q.value[j].kind != TokTerm
  {
    match FirstTerm(p)
    case None => None
    case Some(k) => Some(p[..k])
  }

  /** The payload of a terminated program is everything but its last entry. */
  lemma PayloadOfTerminated(p: seq<Reg>)
    requires Terminated(p)
    ensures Payload(p) == Some(p[..|p| - 1])
  {
    TerminatedIffFirstTermIsLast(p);
  }

  predicate AllByteWrites(ws: seq<Reg>) {
    forall i | 0 <= i < |ws| :: IsByteWrite(ws[i])
  }

  /** A terminated program whose every other entry is an 8-bit write. */
  predicate ByteProgram(p: seq<Reg>) {
    Terminated(p) && AllByteWrites(p[..|p| - 1])
  }

  /** A list whose entries before the last are byte writes and whose last is a terminator is a byte program. */
  lemma ByteProgramIntro(p: seq<Reg>)
    requires |p| > 0 && p[|p| - 1].kind == TokTerm
    requires forall i | 0 <= i < |p| - 1 :: IsByteWrite(p[i])
    ensures ByteProgram(p)
  {
    assert forall i | 0 <= i < |p| - 1 :: p[..|p| - 1][i] == p[i];
  }

  /** Byte writes followed by a terminator form a byte program whose image is theirs. */
  lemma ByteProgramOfWrites(ws: seq<Reg>, t: Reg)
    requires AllByteWrites(ws) && t.kind == TokTerm
    ensures ByteProgram(ws + [t])
    ensures RegisterImage(ws + [t]) == Image(ws)
  {
    assert (ws + [t])[..|ws|] == ws;
    ByteProgramIntro(ws + [t]);
  }

  /** Some entry of `ws` writes register `a`. */
  predicate Writes(ws: seq<Reg>, a: U16) {
    exists i | 0 <= i < |ws| :: ws[i].reg == a
  }

  /**
   * The register image of a list of byte writes: for every register the list
   * writes, the byte written to it last.
   */
  function Image(ws: seq<Reg>): map<U16, U8>
    requires AllByteWrites(ws)
  {
    if ws == [] then map[]
    else Image(ws[..|ws| - 1])[ws[|ws| - 1].reg := ws[|ws| - 1].val]
  }

  /** The image holds exactly the registers the list writes. */
  lemma {:induction false} ImageKeys(ws: seq<Reg>, a: U16)
    requires AllByteWrites(ws)
    ensures a in Image(ws) <==> Writes(ws, a)
  {
    if ws != [] {
      var init := ws[..|ws| - 1];
      ImageKeys(init, a);
      if Writes(init, a) {
        var i :| 0 <= i < |init| && init[i].reg == a;
        assert ws[i].reg == a;
      }
      if Writes(ws, a) && a != ws[|ws| - 1].reg {
        var i :| 0 <= i < |ws| && ws[i].reg == a;
        assert init[i].reg == a;
      }
    }
  }

  /** A register no entry writes is absent from the image. */
  lemma ImageOmits(ws: seq<Reg>, a: U16)
    requires AllByteWrites(ws)
    requires forall i | 0 <= i < |ws| :: ws[i].reg != a
    ensures a !in Image(ws)
  {
    ImageKeys(ws, a);
  }

  /** No register in `lo..hi` is in the image of a list that writes none of them. */
  lemma ImageOmitsRange(ws: seq<Reg>, lo: int, hi: int)
    requires AllByteWrites(ws)
    requires forall i | 0 <= i < |ws| :: ws[i].reg < lo || ws[i].reg > hi
    ensures forall a: U16 | lo <= a <= hi :: a !in Image(ws)
  {
    forall a: U16 | lo <= a <= hi
      ensures a !in Image(ws)
    {
      ImageOmits(ws, a);
    }
  }

  /** The register image of a byte program: what its payload leaves in the sensor. */
  function RegisterImage(p: seq<Reg>): map<U16, U8>
    requires ByteProgram(p)
  {
    Image(p[..|p| - 1])
  }

  /** A byte program's image holds exactly the registers its payload writes. */
  lemma RegisterImageKeys(p: seq<Reg>, a: U16)
    requires ByteProgram(p)
    ensures a in RegisterImage(p) <==> exists i | 0 <= i < |p| - 1 :: p[i].reg == a
  {
    var ws := p[..|p| - 1];
    ImageKeys(ws, a);
    assert forall i | 0 <= i < |ws| :: ws[i] == p[i];
  }

  /** A register holds the value of the last write to it. */
  lemma {:induction false} ImageIsLastWrite(ws: seq<Reg>, i: nat)
    requires AllByteWrites(ws)
    requires i < |ws|
    requires forall j | i < j < |ws| :: ws[j].reg != ws[i].reg
    ensures ws[i].reg in Image(ws) && Image(ws)[ws[i].reg] == ws[i].val
  {
    if i < |ws| - 1 {
      var init := ws[..|ws| - 1];
      assert init[i] == ws[i];
      ImageIsLastWrite(init, i);
    }
  }

  /** In a byte program, a register holds the value of the program's last write to it. */
  lemma RegisterImageAt(p: seq<Reg>, i: nat)
    requires ByteProgram(p)
    requires i < |p| - 1
    requires forall j | i < j < |p| - 1 :: p[j].reg != p[i].reg
    ensures p[i].reg in RegisterImage(p) && RegisterImage(p)[p[i].reg] == p[i].val
  {
    var ws := p[..|p| - 1];
    assert forall j | i <= j < |ws| :: ws[j] == p[j];
    ImageIsLastWrite(ws, i);
  }

  /** Running one list of byte writes after another: the later one wins where both write. */
  lemma {:induction false} ImageAppend(a: seq<Reg>, b: seq<Reg>)
    requires AllByteWrites(a) && AllByteWrites(b)
    ensures AllByteWrites(a + b)
    ensures Image(a + b) == Image(a) + Image(b)
  {
    if b == [] {
      assert a + b == a;
    } else {
      var b0 := b[..|b| - 1];
      assert (a + b)[..|a + b| - 1] == a + b0;
      ImageAppend(a, b0);
      var last := b[|b| - 1];
      assert (a + b)[|a + b| - 1] == last;
      calc {
        Image(a + b);
        Image(a + b0)[last.reg := last.val];
        (Image(a) + Image(b0))[last.reg := last.val];
        Image(a) + Image(b0)[last.reg := last.val];
        Image(a) + Image(b);
      }
    }
  }

  /** `OV2680_MAX_WRITE_BUF_SIZE`: data bytes one burst write may carry. */
  const MAX_WRITE_BUF_SIZE: nat := 30

  /** `struct ov2680_write_buffer`: a start address and at most 30 pending data bytes. */
  datatype WriteBufferData = WriteBufferData(addr: U16, data: seq<U8>)

  type WriteBuffer = b: WriteBufferData | |b.data| <= MAX_WRITE_BUF_SIZE
    witness WriteBufferData(0, [])
}
