# CHIP-8 interpreter core, modelled in Dafny

This project models the part of the GBergatto CHIP-8 emulator that has real
behaviour:

- the machine layout `chip8_t`, with its run state `emulator_state_t`;
- the three bit-field views of an instruction word (`instruction_t`);
- the one-instruction step `emulate_instruction`;
- the memory initialiser `init_chip8`;
- the input handler `handle_input`.

It then proves properties of that model.

Files and modules:

- `chip8_types.dfy`, module `Chip8Types` (`src/chip8.h`). The unsigned C
  widths are written as integer ranges: `Nibble`, `Byte`, `Addr` (12 bits)
  and `Word` (16 bits). It also holds the run state, the array sizes, and
  the views `nnn`, `xnn` and `xyn`. The views are mask-and-shift functions
  on a 16-bit value, written as `%` and `/` by powers of two. They do not
  depend on how the C compiler lays out bit-fields. Lemmas show that each
  view is a bijection with the words and that the views agree with each
  other.
- `chip8.dfy`, module `Emulator` (`src/chip8.c`):
  - the font table, the entry point and the ROM size guard;
  - `Fetch`, the big-endian word at PC;
  - `Classify`, which says which dispatch branch a word takes, with its
    inverse `Encode`;
  - the class `Chip8`. Its arrays have the sizes in the C declaration, and
    it has the methods `InitChip8` and `EmulateInstruction`.
- `graphics.dfy`, module `Graphics` (`src/graphics.c`). The QWERTY-to-keypad
  key map is checked against the layout in the comment that precedes it. The
  polled SDL events become a sequence of `Event` values. `HandleEvents` is a
  reference definition of what one call does to the run state and the
  keypad. The method `HandleInput` loops over the events as the C `while`
  loop does, and is proved equal to that reference.

Where this code departs from the usual CHIP-8 interpreter, the model follows
the code:

- Only the opcodes the dispatch actually handles are modelled:
  - 00E0 clears the display;
  - 1NNN jumps;
  - 6XNN sets VX;
  - 7XNN adds to VX, wrapping at 8 bits and writing no flag;
  - ANNN sets I.

  The 0NNN branch (commented as 00EE) and the DXYN branch are empty. So is
  every other family.
- The stack has 12 entries. Nothing uses it.
- QUIT is not terminal. A SPACE key-down after ESC in the same batch resumes
  the machine.
- The declaration at `src/chip8.h:59` gives `emulate_instruction` a
  configuration parameter, but the body at `src/chip8.c:199` has none. The
  model follows the body.
- The size guard at `src/chip8.c:125` does not enforce the limit `max_size`
  that its own error message reports (see Findings). The model's loader
  enforces `max_size`.

## Model

| member | source | states |
|---|---|---|
| `Chip8Types.NnnOf` | src/chip8.h:26-29 | The `nnn` view of an opcode is NNN (12 bits) and MSN (4 bits), and `MSN*4096 + NNN` is the opcode. |
| `Chip8Types.XnnOf` | src/chip8.h:30-34 | The `xnn` view is NN, X and MSN, and `MSN*4096 + X*256 + NN` is the opcode. |
| `Chip8Types.XynOf` | src/chip8.h:35-40 | The `xyn` view is N, Y, X and MSN, and `MSN*4096 + X*256 + Y*16 + N` is the opcode. |
| `Chip8Types.NnnRoundTrip` | src/chip8.h:26-29 | Every NNN and MSN pair is the view of the word it assembles to, so the view is a bijection. |
| `Chip8Types.XnnRoundTrip` | src/chip8.h:30-34 | Every NN, X and MSN triple is the view of the word it assembles to. |
| `Chip8Types.XynRoundTrip` | src/chip8.h:35-40 | Every N, Y, X and MSN quadruple is the view of the word it assembles to. |
| `Chip8Types.ViewsAgree` | src/chip8.h:25-42 | All three views give the same MSN, and `xnn.X == xyn.X`. NNN is `X*256 + NN`, and NN is `Y*16 + N`. |
| `Chip8Types.FieldsInBounds` | src/chip8.h:25-55 | X and Y are below 16, so they index `V`. NNN is below 4096, so it indexes `ram`. |
| `Emulator.FontLayout` | src/chip8.c:90-110 | The font has 16 glyphs of 5 bytes, placed at 0x050 and ending below the entry point 0x200. |
| `Emulator.AsWrittenGuardOverruns` | src/chip8.c:121-129 | The guard as written accepts an oversized ROM exactly when its size is between 3585 and 4096. |
| `Emulator.AsWrittenGuardCounterexample` | src/chip8.c:125-133 | A 3585-byte ROM passes the guard as written but does not fit above 0x200. |
| `Emulator.RomFits` | src/chip8.c:122 | The corrected guard accepts a size exactly when `0x200 + size <= 4096`. Anything it accepts, the guard as written accepts too. |
| `Emulator.Fetch` | src/chip8.c:201 | The fetched word has `ram[PC]` as its high byte and `ram[PC+1]` as its low byte. |
| `Emulator.ClassifyDecodes` | src/chip8.c:204-234 | Every 16-bit word takes exactly one dispatch branch. A 0x0 word other than 00E0 goes to the empty return branch. The word can be recovered from the branch and its fields. |
| `Emulator.ClassifyEncode` | src/chip8.c:204-234 | Classifying the encoding of a well-formed operation gives that operation back, so words and branches correspond one to one. |
| `Emulator.OnlyJumpsBranch` | src/chip8.c:213-215 | A word is a jump exactly when its top nibble is 1, and its target is `opcode & 0xFFF`, which is below 4096. |
| `Emulator.Chip8.constructor` | src/main.c:12 | A zero-initialised machine has its arrays at the declared sizes, every cell zero or false, and the run state QUIT. |
| `Emulator.Chip8.InitChip8` | src/chip8.c:88-143 | The font is always installed at 0x050. A ROM that cannot be opened, or that does not fit, fails and leaves PC and the run state unchanged. Otherwise the ROM is placed at 0x200, PC becomes 0x200, the state becomes RUNNING, and no other RAM cell changes. |
| `Emulator.Chip8.ClearDisplay` | src/chip8.c:208 | Every display cell becomes false, and nothing else is written. |
| `Emulator.Chip8.EmulateInstruction` | src/chip8.c:199-235 | PC becomes `(PC + 2) mod 2^16`, or NNN for 1NNN. 00E0 blanks all 2048 pixels. 6XNN sets `V[X] := NN`. 7XNN sets `V[X] := (V[X] + NN) mod 256` and changes no other register. ANNN sets `I := NNN`. Every other word changes nothing but PC. RAM, the stack, the timers, the keypad and the run state are never written. |
| `Emulator.LoadAndRunTwo` | src/chip8.c:199-235 | Loading the ROM `6A 02 6B 03` and stepping twice gives VA = 2, VB = 3 and PC = 0x204. |
| `Graphics.KeyMapFollowsLayout` | src/graphics.c:84-88 | The keys 1234/QWER/ASDF/ZXCV select the keypad keys 123C/456D/789E/A0BF, position by position. |
| `Graphics.KeyMapOnlyLayout` | src/graphics.c:112-166 | Every key that selects a keypad index is one of the 16 layout keys. |
| `Graphics.KeyMapBijective` | src/graphics.c:84-162 | No two keys select the same index, and each of the 16 indices is selected by some key. |
| `Graphics.Unpolled` | src/graphics.c:92-96 | A batch with no quit event leaves nothing in the queue. A batch with one leaves strictly fewer events than it received. |
| `Graphics.HandleAppend` | src/graphics.c:92-228 | Without a quit event, handling a batch is handling its parts one after the other. |
| `Graphics.QuitEndsBatch` | src/graphics.c:94-96 | A quit event selects QUIT. The events after it are not applied and stay in the queue. |
| `Graphics.EscapeThenSpaceResumes` | src/graphics.c:100-109 | ESC selects QUIT but processing continues, so a SPACE after it in the same batch gives RUNNING. |
| `Graphics.SpaceToggles` | src/graphics.c:103-109 | SPACE gives PAUSED when RUNNING, and RUNNING otherwise. Two SPACEs restore a RUNNING or PAUSED machine. |
| `Graphics.StateOnlyByControlEvents` | src/graphics.c:89-229 | A batch with no quit event, ESC key-down or SPACE key-down leaves the run state as it was. |
| `Graphics.UntouchedKeyKept` | src/graphics.c:112-227 | A keypad entry that no key-down or key-up in the batch maps to keeps its value. Unmapped keys and other events change no entry. |
| `Graphics.LastKeyEventDecides` | src/graphics.c:112-221 | In a batch with no quit event, a final key-down of a mapped key sets its entry and a final key-up clears it. |
| `Graphics.HandleInput` | src/graphics.c:89-229 | The loop gives exactly the run state and keypad of the reference `HandleEvents` and returns the unpolled events. RAM, V, I, PC and the display are not written. |

## Left out

- SDL work is foreign-library I/O and is not modelled: window and renderer
  setup and teardown, `clear_screen`, `update_screen` and all colour
  handling (`src/chip8.c:64-86`, `145-161`; `src/graphics.c:4-82`). The
  `puts` of the pause message is left out for the same reason.
- File handling in `init_chip8` (`fopen`, `fseek`, `ftell`, `fread`,
  `fclose`) is replaced by passing the ROM's contents: `None` when the file
  cannot be opened. A short `fread` is an I/O fault with no counterpart in
  that value, so it is not modelled.
- The driver loops in `src/chip8.c:237-287` and `src/main.c` are not
  modelled. They rely on the clock, floating-point delays and rendering.
  `src/main.c` also uses configuration fields that `config_t` does not
  declare, and calls `update_timers`, which is declared but has no body in
  these sources.
- The semantics of every opcode the dispatch does not implement are not
  modelled. That covers call and return with the stack, skips, the
  register-to-register arithmetic and its flags, drawing, keys, timers, BCD,
  register block moves, random and the quirks. The source has only empty
  branches or a default case for them, so the model makes them no-ops apart
  from the PC step.
- The older `handle_input` in `src/chip8.c:163-197` is not modelled
  separately. It handles the same events without the keypad.
- The older `main` in `src/chip8.c:244-245` does not zero the machine. The
  constructor models the zero-initialised machine of `src/main.c:12`.
- `Emulator.Chip8.EmulateInstruction`: requires `PC + 1 < 4096`. The source
  reads `ram[PC + 1]` without checking, and a larger PC reads past the end
  of RAM.

## Findings

| source | as written | input that shows it | evidently intended | confidence | as-written member | corrected member |
|---|---|---|---|---|---|---|
| src/chip8.c:125 | The check rejects a ROM only if it is larger than `sizeof(chip8->ram)` (4096). `max_size` (4096 − 0x200) is computed at line 122 but only printed. | A 3585-byte ROM passes the check. The `fread` at line 133 then writes 3585 bytes from 0x200, one byte past the end of `ram`. | Reject any ROM larger than `max_size` = 3584 bytes. | high; not executed | `Emulator.AsWrittenGuardCounterexample` | `Emulator.RomFits` |
