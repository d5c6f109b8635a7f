/** The CHIP-8 machine of `chip8_t` and the two operations on it that the
    interpreter implements: installing the font and a ROM image
    (`init_chip8`) and executing one instruction (`emulate_instruction`). */
module Emulator {
  import opened Chip8Types

  /** Where the ROM image is placed and where execution starts. */
  const EntryPoint: nat := 0x200
  /** Where the font glyphs are placed. */
  const FontStart: nat := 0x050
  /** The largest ROM image that fits between the entry point and the end of RAM. */
  const MaxRomSize: nat := RamSize - EntryPoint

  /** The 16 hexadecimal digit glyphs, 5 rows of 8 pixels each. */
  const Font: seq<Byte> := [
    0xF0, 0x90, 0x90, 0x90, 0xF0, // 0
    0x20, 0x60, 0x20, 0x20, 0x70, // 1
    0xF0, 0x10, 0xF0, 0x80, 0xF0, // 2
    0xF0, 0x10, 0xF0, 0x10, 0xF0, // 3
    0x90, 0x90, 0xF0, 0x10, 0x10, // 4
    0xF0, 0x80, 0xF0, 0x10, 0xF0, // 5
    0xF0, 0x80, 0xF0, 0x90, 0xF0, // 6
    0xF0, 0x10, 0x20, 0x40, 0x40, // 7
    0xF0, 0x90, 0xF0, 0x90, 0xF0, // 8
    0xF0, 0x90, 0xF0, 0x10, 0xF0, // 9
    0xF0, 0x90, 0xF0, 0x90, 0x90, // A
    0xE0, 0x90, 0xE0, 0x90, 0xE0, // B
    0xF0, 0x80, 0x80, 0x80, 0xF0, // C
    0xE0, 0x90, 0x90, 0x90, 0xE0, // D
    0xF0, 0x80, 0xF0, 0x80, 0xF0, // E
    0xF0, 0x80, 0xF0, 0x80, 0x80  // F
  ]

  /** The font is 16 glyphs of 5 rows and lies wholly below the entry point,
      so installing a ROM never overwrites it. */
  lemma FontLayout()
    ensures |Font| == 16 * 5
    ensures FontStart + |Font| <= EntryPoint
  {
  }

  // ---------------------------------------------------------------------------
  // ROM size guard

  /** The size guard as written: it rejects a ROM only when it is larger than
      the whole of RAM, not larger than the room above the entry point. */
  function AcceptedAsWritten(romSize: nat): bool
  {
    !(romSize > RamSize)
  }

  /** The guard as written admits exactly the sizes 3585..4096 that then do
      not fit above the entry point. */
  lemma AsWrittenGuardOverruns(romSize: nat)
    ensures (AcceptedAsWritten(romSize) && EntryPoint + romSize > RamSize)
        <==> MaxRomSize < romSize <= RamSize
  {
  }

  /** A concrete ROM size the guard as written lets through, although copying
      it at the entry point would write past the end of RAM. */
  lemma AsWrittenGuardCounterexample()
    ensures AcceptedAsWritten(3585) && EntryPoint + 3585 > RamSize
  {
  }

  /** The guard the loader uses: a ROM is accepted exactly when its bytes fit
      between the entry point and the end of RAM. */
  function RomFits(romSize: nat): (ok: bool)
    ensures ok <==> EntryPoint + romSize <= RamSize
    ensures ok ==> AcceptedAsWritten(romSize)
  {
    romSize <= MaxRomSize
  }

  /** The outcome of `init_chip8`: 0 on success, 1 on either failure. */
  datatype LoadStatus = Loaded | CannotOpen | TooLarge

  // ---------------------------------------------------------------------------
  // Fetch and dispatch

  /** The big-endian instruction word at `pc`: the byte at `pc` is its high
      byte and the byte after it its low byte. */
  function Fetch(ram: seq<Byte>, pc: nat): (opcode: Word)
    requires pc + 1 < |ram|
    ensures opcode / 0x100 == ram[pc] && opcode % 0x100 == ram[pc + 1]
  {
    ram[pc] as int * 0x100 + ram[pc + 1]
  }

  /** What the dispatch of `emulate_instruction` does with a word, by the
      branch it takes. */
  datatype Op =
    | ClearScreen                          // 00E0
    | ReturnStub(addr: Addr)               // every other 0NNN: an empty branch
    | Jump(addr: Addr)                     // 1NNN
    | SetVx(x: Nibble, nn: Byte)           // 6XNN
    | AddVx(x: Nibble, nn: Byte)           // 7XNN
    | SetIndex(addr: Addr)                 // ANNN
    | DrawStub(x: Nibble, y: Nibble, n: Nibble)  // DXYN: an empty branch
    | Unimplemented(msn: Nibble, addr: Addr)     // 2-5, 8, 9, B, C, E, F

  /** The top nibbles that have a branch of their own in the dispatch. */
  predicate Dispatched(msn: Nibble)
  {
    msn == 0x0 || msn == 0x1 || msn == 0x6 || msn == 0x7 || msn == 0xA || msn == 0xD
  }

  /** The operations that some word is classified as. */
  predicate WellFormed(op: Op)
  {
    match op
    case ReturnStub(addr) => addr != 0x0E0
    case Unimplemented(msn, _) => !Dispatched(msn)
    case _ => true
  }

  /** The word an operation is classified from. */
  function Encode(op: Op): Word
  {
    match op
    case ClearScreen => 0x00E0
    case ReturnStub(addr) => NnnWord(NnnView(addr, 0x0))
    case Jump(addr) => NnnWord(NnnView(addr, 0x1))
    case SetVx(x, nn) => XnnWord(XnnView(nn, x, 0x6))
    case AddVx(x, nn) => XnnWord(XnnView(nn, x, 0x7))
    case SetIndex(addr) => NnnWord(NnnView(addr, 0xA))
    case DrawStub(x, y, n) => XynWord(XynView(n, y, x, 0xD))
    case Unimplemented(msn, addr) => NnnWord(NnnView(addr, msn))
  }

  /** The branch the dispatch takes for a word, read off the word's views. */
  function Classify(opcode: Word): Op
  {
    var a, b, c := NnnOf(opcode), XnnOf(opcode), XynOf(opcode);
    match a.msn
    case 0x0 => if a.nnn == 0x0E0 then ClearScreen else ReturnStub(a.nnn)
    case 0x1 => Jump(a.nnn)
    case 0x6 => SetVx(b.x, b.nn)
    case 0x7 => AddVx(b.x, b.nn)
    case 0xA => SetIndex(a.nnn)
    case 0xD => DrawStub(c.x, c.y, c.n)
    case _ => Unimplemented(a.msn, a.nnn)
  }

  /** Every word is classified, and the classification loses nothing: the
      word is recovered from the branch and its fields. */
  lemma ClassifyDecodes(opcode: Word)
    ensures WellFormed(Classify(opcode)) && Encode(Classify(opcode)) == opcode
  {
    ViewsAgree(opcode);
  }

  /** Classification inverts encoding: distinct operations come from distinct
      words, so together with `Classify` this is a bijection between the
      65536 words and the well-formed operations. */
  lemma ClassifyEncode(op: Op)
    requires WellFormed(op)
    ensures Classify(Encode(op)) == op
  {
    match op
    case ClearScreen =>
      assert NnnOf(0x00E0) == NnnView(0x0E0, 0x0);
    case ReturnStub(addr) => NnnRoundTrip(NnnView(addr, 0x0));
    case Jump(addr) => NnnRoundTrip(NnnView(addr, 0x1));
    case SetVx(x, nn) =>
      XnnRoundTrip(XnnView(nn, x, 0x6));
      ViewsAgree(Encode(op));
    case AddVx(x, nn) =>
      XnnRoundTrip(XnnView(nn, x, 0x7));
      ViewsAgree(Encode(op));
    case SetIndex(addr) => NnnRoundTrip(NnnView(addr, 0xA));
    case DrawStub(x, y, n) =>
      XynRoundTrip(XynView(n, y, x, 0xD));
      ViewsAgree(Encode(op));
    case Unimplemented(msn, addr) => NnnRoundTrip(NnnView(addr, msn));
  }

  /** Only a jump leaves the program counter anywhere but two bytes on:
      every word whose top nibble is not 1 is classified as a non-jump, and a
      jump's target is always a RAM address. */
  lemma OnlyJumpsBranch(opcode: Word)
    ensures Classify(opcode).Jump? <==> opcode / 0x1000 == 0x1
    ensures Classify(opcode).Jump? ==> Classify(opcode).addr == opcode % 0x1000 < RamSize
  {
  }

  // ---------------------------------------------------------------------------
  // The machine

  /** `chip8_t`. The arrays are allocated once, with the sizes of the C
      declaration, and updated in place. */
  class Chip8 {
    var state: RunState
    const ram: array<Byte>
    const display: array<bool>
    const stack: array<Word>
    var I: Word
    var PC: Word
    const V: array<Byte>
    var delay: Byte
    var sound: Byte
    const keypad: array<bool>

    /** The array sizes of `chip8_t`, and the arrays are distinct objects. */
    ghost predicate Valid()
      reads this
    {
      ram.Length == RamSize && display.Length == DisplaySize &&
      stack.Length == StackSize && V.Length == RegisterCount &&
      keypad.Length == KeypadSize &&
      ram != V && display != keypad
    }

    /** A zero-initialised machine (`chip8_t chip8 = {0}`): every byte, flag
        and register is zero, so the run state is QUIT. */
    constructor ()
      ensures Valid()
      ensures fresh(ram) && fresh(display) && fresh(stack) && fresh(V) && fresh(keypad)
      ensures state == Quit && I == 0 && PC == 0 && delay == 0 && sound == 0
      ensures forall i :: 0 <= i < RamSize ==> ram[i] == 0
      ensures forall i :: 0 <= i < DisplaySize ==> !display[i]
      ensures forall i :: 0 <= i < StackSize ==> stack[i] == 0
      ensures forall i :: 0 <= i < RegisterCount ==> V[i] == 0
      ensures forall i :: 0 <= i < KeypadSize ==> !keypad[i]
    {
      state := Quit;
      ram := new Byte[RamSize](_ => 0);
      display := new bool[DisplaySize](_ => false);
      stack := new Word[StackSize](_ => 0);
      I, PC := 0, 0;
      V := new Byte[RegisterCount](_ => 0);
      delay, sound := 0, 0;
      keypad := new bool[KeypadSize](_ => false);
    }

    /** `init_chip8`, with the ROM file given as its contents (`None` when it
        cannot be opened). The font is installed first, whatever follows. A
        ROM that does not fit above the entry point is refused; otherwise its
        bytes are placed at the entry point, and only then are PC and the run
        state set. Nothing else in RAM, and nothing outside RAM, changes. */
    method InitChip8(romFile: Option<seq<Byte>>) returns (status: LoadStatus)
      requires Valid()
      modifies this, ram
      ensures Valid()
      ensures ram[FontStart..FontStart + |Font|] == Font
      ensures status == CannotOpen <==> romFile.None?
      ensures status == TooLarge <==> romFile.Some? && !RomFits(|romFile.value|)
      ensures status == Loaded ==>
        && ram[EntryPoint..EntryPoint + |romFile.value|] == romFile.value
        && PC == EntryPoint && state == Running
      ensures status != Loaded ==> PC == old(PC) && state == old(state)
      ensures forall i :: 0 <= i < RamSize ==>
        (FontStart <= i < FontStart + |Font|) ||
        (status == Loaded && EntryPoint <= i < EntryPoint + |romFile.value|) ||
        ram[i] == old(ram[i])
      ensures I == old(I) && delay == old(delay) && sound == old(sound)
    {
      FontLayout();
      forall i | 0 <= i < |Font| {
        ram[FontStart + i] := Font[i];
      }
      if romFile.None? {
        return CannotOpen;
      }
      var rom := romFile.value;
      if !RomFits(|rom|) {
        return TooLarge;
      }
      forall i | 0 <= i < |rom| {
        ram[EntryPoint + i] := rom[i];
      }
      state := Running;
      PC := EntryPoint;
      status := Loaded;
    }

    /** The `memset` of 00E0: every pixel of the display is switched off. */
    method ClearDisplay()
      requires Valid()
      modifies display
      ensures forall i :: 0 <= i < display.Length ==> !display[i]
    {
      forall i | 0 <= i < display.Length {
        display[i] := false;
      }
    }

    /** `emulate_instruction`: fetch the word at PC, step PC by two (wrapping
        at 16 bits), then carry out the word's branch of the dispatch. A jump
        replaces PC; 00E0 blanks the display; 6XNN and 7XNN write VX only,
        7XNN wrapping at 8 bits and touching no flag; ANNN writes I only.
        Every other word, the empty 0NNN and DXYN branches included, changes
        nothing but PC. RAM, the stack, the timers, the keypad and the run
        state are never written. */
    method EmulateInstruction()
      requires Valid()
      requires PC as int + 1 < RamSize
      modifies this, display, V
      ensures Valid()
      ensures var op := Classify(Fetch(old(ram[..]), old(PC)));
        PC == (if op.Jump? then op.addr else (old(PC) + 2) % 0x1_0000)
      ensures var op := Classify(Fetch(old(ram[..]), old(PC)));
        I == (if op.SetIndex? then op.addr else old(I))
      ensures var op := Classify(Fetch(old(ram[..]), old(PC)));
        op.SetVx? ==> V[..] == old(V[..])[op.x := op.nn]
      ensures var op := Classify(Fetch(old(ram[..]), old(PC)));
        op.AddVx? ==> V[..] == old(V[..])[op.x := (old(V[op.x]) + op.nn) % 0x100]
      ensures var op := Classify(Fetch(old(ram[..]), old(PC)));
        !op.SetVx? && !op.AddVx? ==> V[..] == old(V[..])
      ensures var op := Classify(Fetch(old(ram[..]), old(PC)));
        op == ClearScreen ==> forall i :: 0 <= i < display.Length ==> !display[i]
      ensures var op := Classify(Fetch(old(ram[..]), old(PC)));
        op != ClearScreen ==> display[..] == old(display[..])
      ensures state == old(state) && delay == old(delay) && sound == old(sound)
    {
      var opcode: Word := ram[PC] as int * 0x100 + ram[PC + 1];
      assert opcode == Fetch(ram[..], PC);
      ghost var op := Classify(opcode);
      PC := (PC + 2) % 0x1_0000;
      var nnn, xnn := NnnOf(opcode), XnnOf(opcode);
      match nnn.msn {
        case 0x0 =>
          if nnn.nnn == 0x0E0 {
            assert op == ClearScreen;
            ClearDisplay();
          } else {
            assert op == ReturnStub(nnn.nnn);
          }
        case 0x1 =>
          assert op == Jump(nnn.nnn);
          PC := nnn.nnn;
        case 0x6 =>
          assert op == SetVx(xnn.x, xnn.nn);
          ghost var v0 := V[..];
          V[xnn.x] := xnn.nn;
          assert V[..] == v0[xnn.x := xnn.nn];
        case 0x7 =>
          assert op == AddVx(xnn.x, xnn.nn);
          ghost var v0 := V[..];
          V[xnn.x] := (V[xnn.x] + xnn.nn) % 0x100;
          assert V[..] == v0[xnn.x := (v0[xnn.x] + xnn.nn) % 0x100];
        case 0xA =>
          assert op == SetIndex(nnn.nnn);
          I := nnn.nnn;
        case 0xD =>
          assert op.DrawStub?;
        case _ =>
          assert op == Unimplemented(nnn.msn, nnn.nnn);
      }
    }
  }

  /** A ROM `6A 02 6B 03` loaded at the entry point and run for two
      instructions leaves VA == 2, VB == 3 and PC == 0x204. */
  method LoadAndRunTwo() returns (va: Byte, vb: Byte, pc: Word)
    ensures va == 2 && vb == 3 && pc == 0x204
  {
    var chip8 := new Chip8();
    var rom: seq<Byte> := [0x6A, 0x02, 0x6B, 0x03];
    var status := chip8.InitChip8(Some(rom));
    assert status == Loaded;
    assert Fetch(chip8.ram[..], 0x200) == 0x6A02 && Fetch(chip8.ram[..], 0x202) == 0x6B03 by {
      assert chip8.ram[0x200..0x204] == rom;
      assert chip8.ram[0x200] == rom[0] && chip8.ram[0x201] == rom[1];
      assert chip8.ram[0x202] == rom[2] && chip8.ram[0x203] == rom[3];
    }
    ghost var mem := chip8.ram[..];
    assert Classify(Fetch(mem, 0x200)) == SetVx(0xA, 0x02);
    assert Classify(Fetch(mem, 0x202)) == SetVx(0xB, 0x03);
    chip8.EmulateInstruction();
    assert chip8.ram[..] == mem;
    assert chip8.V[0xA] == 0x02 && chip8.PC == 0x202;
    chip8.EmulateInstruction();
    va, vb, pc := chip8.V[0xA], chip8.V[0xB], chip8.PC;
  }
}
