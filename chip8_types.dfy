/** Types of the CHIP-8 machine layout: the fixed-width integers of the C
    declarations, the run state, the sizes of the machine's arrays, and the
    three views of a 16-bit instruction word. */
module Chip8Types {

  datatype Option<T> = None | Some(value: T)

  /** The C unsigned widths, as integer ranges. For these non-negative values
      `w & (2^k - 1)` is `w % 2^k` and `w >> k` is `w / 2^k`, which is how
      the bit-field views below are written. */
  type Nibble = x: int | 0 <= x < 0x10
  type Byte = x: int | 0 <= x < 0x100
  type Addr = x: int | 0 <= x < 0x1000
  type Word = x: int | 0 <= x < 0x1_0000

  /** `emulator_state_t`: exactly three run states, QUIT being the zero value. */
  datatype RunState = Quit | Running | Paused

  const RamSize: nat := 4096
  const DisplayWidth: nat := 64
  const DisplayHeight: nat := 32
  const DisplaySize: nat := 2048  // DisplayWidth * DisplayHeight
  const StackSize: nat := 12
  const RegisterCount: nat := 16
  const KeypadSize: nat := 16

  /** `instruction_t.nnn`: a 12-bit address or constant under the top nibble. */
  datatype NnnView = NnnView(nnn: Addr, msn: Nibble)
  /** `instruction_t.xnn`: an 8-bit constant, a register, the top nibble. */
  datatype XnnView = XnnView(nn: Byte, x: Nibble, msn: Nibble)
  /** `instruction_t.xyn`: a 4-bit constant, two registers, the top nibble. */
  datatype XynView = XynView(n: Nibble, y: Nibble, x: Nibble, msn: Nibble)

  function NnnWord(v: NnnView): Word { v.msn * 0x1000 + v.nnn }
  function XnnWord(v: XnnView): Word { v.msn * 0x1000 + v.x * 0x100 + v.nn }
  function XynWord(v: XynView): Word { v.msn * 0x1000 + v.x * 0x100 + v.y * 0x10 + v.n }

  /** The `nnn` view of an opcode; reassembling its fields gives the opcode back. */
  function NnnOf(opcode: Word): (v: NnnView)
    ensures NnnWord(v) == opcode
  {
    NnnView(opcode % 0x1000, opcode / 0x1000)
  }

  /** The `xnn` view of an opcode; reassembling its fields gives the opcode back. */
  function XnnOf(opcode: Word): (v: XnnView)
    ensures XnnWord(v) == opcode
  {
    XnnView(opcode % 0x100, (opcode / 0x100) % 0x10, opcode / 0x1000)
  }

  /** The `xyn` view of an opcode; reassembling its fields gives the opcode back. */
  function XynOf(opcode: Word): (v: XynView)
    ensures XynWord(v) == opcode
  {
    ShiftsCompose(opcode);
    XynView(opcode % 0x10, (opcode / 0x10) % 0x10, (opcode / 0x100) % 0x10, opcode / 0x1000)
  }

  /** Shifting right by 4 and then by 4 more is shifting right by 8, and so on. */
  lemma ShiftsCompose(w: Word)
    ensures w / 0x100 == (w / 0x10) / 0x10
    ensures w / 0x1000 == (w / 0x100) / 0x10
  {
  }

  /** A positive multiple of a positive number is at least that number. */
  lemma {:induction false} MultipleAtLeast(d: int, m: int)
    requires d >= 1 && m > 0
    ensures d * m >= m
    decreases d
  {
    if d > 1 {
      MultipleAtLeast(d - 1, m);
      assert d * m == (d - 1) * m + m;
    }
  }

  /** Splitting a number into a high part and a low part below `m` is unique. */
  lemma SplitUnique(hi: int, lo: int, hi': int, lo': int, m: int)
    requires 0 < m && 0 <= lo < m && 0 <= lo' < m
    requires hi * m + lo == hi' * m + lo'
    ensures hi == hi' && lo == lo'
  {
    if hi < hi' {
      MultipleAtLeast(hi' - hi, m);
    } else if hi' < hi {
      MultipleAtLeast(hi - hi', m);
    }
  }

  /** Every well-typed `nnn` view is the view of the word it assembles to. */
  lemma NnnRoundTrip(v: NnnView)
    ensures NnnOf(NnnWord(v)) == v
  {
    var u := NnnOf(NnnWord(v));
    SplitUnique(u.msn, u.nnn, v.msn, v.nnn, 0x1000);
  }

  /** Every well-typed `xnn` view is the view of the word it assembles to. */
  lemma XnnRoundTrip(v: XnnView)
    ensures XnnOf(XnnWord(v)) == v
  {
    var u := XnnOf(XnnWord(v));
    SplitUnique(u.msn * 0x10 + u.x, u.nn, v.msn * 0x10 + v.x, v.nn, 0x100);
    SplitUnique(u.msn, u.x, v.msn, v.x, 0x10);
  }

  /** Every well-typed `xyn` view is the view of the word it assembles to. */
  lemma XynRoundTrip(v: XynView)
    ensures XynOf(XynWord(v)) == v
  {
    var u := XynOf(XynWord(v));
    SplitUnique(u.msn * 0x100 + u.x * 0x10 + u.y, u.n, v.msn * 0x100 + v.x * 0x10 + v.y, v.n, 0x10);
    SplitUnique(u.msn * 0x10 + u.x, u.y, v.msn * 0x10 + v.x, v.y, 0x10);
    SplitUnique(u.msn, u.x, v.msn, v.x, 0x10);
  }

  /** The three views overlay one word: they agree on the top nibble and on X,
      and the wider fields are the narrower ones put together. */
  lemma ViewsAgree(opcode: Word)
    ensures NnnOf(opcode).msn == XnnOf(opcode).msn == XynOf(opcode).msn
    ensures XnnOf(opcode).x == XynOf(opcode).x
    ensures NnnOf(opcode).nnn == XnnOf(opcode).x * 0x100 + XnnOf(opcode).nn
    ensures XnnOf(opcode).nn == XynOf(opcode).y * 0x10 + XynOf(opcode).n
  {
    var a, b, c := NnnOf(opcode), XnnOf(opcode), XynOf(opcode);
    SplitUnique(a.msn, a.nnn, b.msn, b.x * 0x100 + b.nn, 0x1000);
    SplitUnique(b.msn * 0x10 + b.x, b.nn, c.msn * 0x10 + c.x, c.y * 0x10 + c.n, 0x100);
    SplitUnique(b.msn, b.x, c.msn, c.x, 0x10);
  }

  /** Register and address fields are always usable as indices: X and Y select
      one of the 16 registers and NNN one of the 4096 RAM cells. The field
      types `Nibble` and `Addr` carry these bounds, so the lemma needs no
      proof; it states them in terms of the machine's array sizes. */
  lemma FieldsInBounds(opcode: Word)
    ensures XnnOf(opcode).x < RegisterCount && XynOf(opcode).x < RegisterCount
    ensures XynOf(opcode).y < RegisterCount
    ensures NnnOf(opcode).nnn < RamSize
  {
  }
}
