# VGA text writer and PIC interrupt handlers of a small x86 kernel, in Dafny

This project models two parts of a bare-metal x86 kernel written in Rust.

**The VGA text-mode writer** (`src/vga_buffer.rs`). The writer owns a copy of the 25 × 80
grid of `(character, colour)` cells, stored column-major (`chars[column][row]`), a write
column and a colour code. `write_byte` stores a byte in the bottom row at the write column
and advances the column; a newline first scrolls. `new_line` moves every row up by one.
`write_string` replaces every byte outside printable ASCII and newline by `0xfe` and writes
the bytes in order. `clear_line` and `clear` fill one row or the whole grid with blanks.
`ColorCode::new` packs a foreground and a background colour into one byte.

In Dafny (`vga_buffer.dfy`, module `VgaBuffer`) the writer is the class `VgaWriter` over an
`array2<VgaCharacter>` indexed `[column, row]`. Its methods are proved against pure functions
on grids (`Scroll`, `AfterWriteByte`, `WriteBytes`, `FillRow`, `Sanitize`). Lemmas about those
functions state what the operations mean cell by cell and over whole strings
(`vga_properties.dfy`, module `VgaProperties`).

**The PIC interrupts** (`src/interupt/pic.rs`). The program builds the two chained interrupt
controllers with vector offsets 32 and 40. The timer (vector 32) and the keyboard (vector 33) are bound
in the interrupt descriptor table. The timer handler only signals end-of-interrupt (EOI). The
keyboard handler reads one scancode from port `0x60`, feeds it to the keyboard decoder, prints
the key if one was decoded, and signals EOI.

In Dafny (`pic.dfy`, module `Pic`) the decoder is foreign. Its state is a type parameter `S`
and its two steps are arbitrary total functions held in `KeyboardDecoder<S>`. So every handler
property holds whatever the decoder does. The class `InterruptHandlers<S>` holds the decoder
state and a trace of effects (`PortRead`, `Print`, `EndOfInterrupt`). The handler methods are
proved against the function `KeyboardReaction`, and `Run` composes any sequence of deliveries.
`machine_types.dfy` defines `uint8` and `uint16`.

The model follows the code as written, including where it differs from what a VGA text
writer usually does:

- `ColorCode::new` puts the foreground in the high nibble. The VGA attribute byte has the
  foreground in the low nibble and the background in the high nibble. See "## Findings".
- `write_byte` never wraps at column 80 and never resets the column. A text writer would
  normally start a new line there. Here the 81st byte written over the writer's lifetime
  indexes column 80 and panics. The model makes `column < 80` a precondition.
- A newline is scrolled AND stored as a `0x0a` cell, and it advances the column.
- `new_line` does not clear the bottom row and does not reset the column. A text writer would
  normally do both. After a scroll the bottom row is therefore also in the row above
  (`VgaBuffer.Scroll`, `VgaProperties.NewlineSplitsOutput`).
- Sanitising to `0xfe` happens in `write_string`, not in `write_byte`: `write_byte` stores any byte.
- The controllers are only constructed with their offsets (src/interupt/pic.rs:29-30).
  Nothing in src/lib.rs, src/interupt.rs or src/main.rs calls `initialize()` on them or
  enables interrupts. So, as written, the controllers are never remapped and no IRQ is
  delivered. `Pic.IrqVector` and the handler lemmas describe what would happen once the
  controllers are initialised with these offsets and interrupts are enabled.
- Writing more than 80 bytes in total, for example two full rows of the same byte, panics
  before the second row is complete, so no lemma describes that case.

## Model

| member | source | states |
|---|---|---|
| `VgaBuffer.ColorIndex` | src/vga_buffer.rs:7-24 | every colour's discriminant is a palette index below 16 |
| `VgaBuffer.ColorIndexInjective` | src/vga_buffer.rs:7-24 | two colours have the same index exactly when they are the same colour |
| `VgaBuffer.NewColorCode` | src/vga_buffer.rs:31-34 | the packed byte is `16 * fg + bg`: the foreground is the high nibble and the background the low nibble, so the value always fits in a byte |
| `VgaBuffer.NewColorCodeInjective` | src/vga_buffer.rs:31-34 | two colour pairs give the same colour code if and only if they are the same pair (injective over all 16 × 16 pairs) |
| `VgaBuffer.AttributeByte` | src/vga_buffer.rs:32-34 | corrected packing: the foreground is the low nibble and the background the high nibble, as the VGA hardware reads them |
| `VgaBuffer.AttributeByteInjective` | src/vga_buffer.rs:32-34 | the corrected packing is injective too |
| `VgaBuffer.NewColorCodeSwapsColors` | src/vga_buffer.rs:33 | the code as written yields the hardware attribute of the swapped pair, and differs from the intended attribute whenever the two colours differ |
| `VgaBuffer.Scroll` | src/vga_buffer.rs:89-103 | after a scroll the last two rows both hold the old bottom row: the bottom row is not cleared |
| `VgaBuffer.WriteByteEffect` | src/vga_buffer.rs:71-87 | cell by cell: the byte lands at the write column of row 24; a non-newline byte changes no other cell; a newline first moves every row `r < 24` to the contents of row `r + 1` and leaves the rest of row 24 as it was |
| `VgaBuffer.WriteBytesAppend` | src/vga_buffer.rs:105-112 | writing `xs + ys` is writing `xs` and then `ys`, starting at the column where `xs` ended |
| `VgaBuffer.WriteBytesWithoutNewline` | src/vga_buffer.rs:71-112 | bytes without a newline land in order in row 24 from the write column on, and every other cell is unchanged |
| `VgaBuffer.FillRowEffect` | src/vga_buffer.rs:114-126 | filling row `n` sets all 80 cells of row `n` and leaves every other row unchanged |
| `VgaBuffer.Sanitize` | src/vga_buffer.rs:107-110 | the byte handed to `write_byte` is displayable or `0xfe`; displayable bytes (0x20 to 0x7e and newline) pass through unchanged; `0xfe` comes out exactly for non-displayable input |
| `VgaBuffer.SanitizeAll` | src/vga_buffer.rs:106-111 | sanitising keeps the length of the string |
| `VgaBuffer.SanitizeAllSnoc` | src/vga_buffer.rs:106-111 | sanitising works byte by byte, in order |
| `VgaBuffer.VgaWriter.constructor` | src/vga_buffer.rs:63-69 | the new writer's grid is a copy of the screen contents passed in, its column is 0 and its colour code is the given one |
| `VgaBuffer.VgaWriter.WriteByte` | src/vga_buffer.rs:71-87 | requires `column < 80`; the grid becomes `AfterWriteByte` of the old grid, the column grows by exactly 1 and the colour code is unchanged |
| `VgaBuffer.VgaWriter.NewLine` | src/vga_buffer.rs:89-103 | the grid becomes `Scroll` of the old grid (row `r` gets old row `r + 1` for `r < 24`, row 24 unchanged); column and colour code are unchanged |
| `VgaBuffer.VgaWriter.WriteString` | src/vga_buffer.rs:105-112 | requires `column + |s| <= 80`; the grid is the result of writing the sanitised bytes of `s` one by one with `write_byte`; the column grows by `|s|`; the colour code is unchanged |
| `VgaBuffer.VgaWriter.ClearLine` | src/vga_buffer.rs:114-126 | requires `n < 25`; row `n` becomes 80 blanks in the writer's colour; other rows, column and colour code are unchanged |
| `VgaBuffer.VgaWriter.Clear` | src/vga_buffer.rs:128-132 | every one of the 25 × 80 cells becomes a blank in the writer's colour; column and colour code are unchanged |
| `VgaBuffer.VgaWriter.WriteStr` | src/vga_buffer.rs:135-139 | does what `WriteString` does and always returns `Ok` |
| `VgaProperties.SanitizeAllKeepsDisplayable` | src/vga_buffer.rs:107-110 | a string of displayable bytes is not changed by sanitising |
| `VgaProperties.SanitizeAllIdempotent` | src/vga_buffer.rs:107-110 | sanitising twice gives the same bytes as sanitising once |
| `VgaProperties.PrintableStringFromLeftEdge` | src/vga_buffer.rs:105-112 | a printable string written from column 0 fills the first `|s|` cells of row 24 in order, and no other cell changes |
| `VgaProperties.NewlineSplitsOutput` | src/vga_buffer.rs:71-112 | writing `xs`, newline, `ys` leaves `xs` on row 23, keeps `xs` on row 24 before the stored newline cell, and puts `ys` on row 24 after it, with row 23 above `ys` holding the old bottom row |
| `Pic.IrqVector` | src/interupt/pic.rs:11-12 | line `l` lands on vector `32 + l`: lines 0 to 7 on vectors 32 to 39 of the primary controller, lines 8 to 15 on vectors 40 to 47 of the secondary |
| `Pic.IrqLine` | src/interupt/pic.rs:11-12 | vector `v` in 32 to 47 belongs to line `v - 32`, below 16, on the primary controller exactly when `v` is below 40 |
| `Pic.IrqVectorRoundTrip` | src/interupt/pic.rs:11-12 | lines and vectors correspond one to one, in both directions |
| `Pic.InterruptVector` | src/interupt/pic.rs:16-21 | both serviced vectors lie in the primary controller's range 32 to 39 |
| `Pic.InterruptVectors` | src/interupt/pic.rs:11-21 | the offsets are 32 and 40; the timer is vector 32 (line 0) and the keyboard vector 33 (line 1) |
| `Pic.SetPicHandlers` | src/interupt/pic.rs:23-27 | entry 32 is bound to the timer handler, entry 33 to the keyboard handler, and every other entry of the 256 is unchanged |
| `Pic.OutputOf` | src/interupt/pic.rs:57-60 | `Unicode(c)` is printed as the character `c` and `RawKey(k)` as the name of key `k`; a character is printed exactly when the key is a character |
| `Pic.CountsAppend` | src/interupt/pic.rs:52-68 | counts of acknowledgements and port reads add up over concatenated traces |
| `Pic.KeyboardReaction` | src/interupt/pic.rs:52-68 | the effects are a read of port `0x60` first, at most one print, and an EOI with vector 33 last; exactly one EOI (none for any other vector) and exactly one port read; a print happens if and only if the decoder completed an event and decoded it to a key, and prints that key |
| `Pic.InterruptHandlers.constructor` | src/interupt/pic.rs:34-42 | the handlers start with the given decoder state and an empty trace |
| `Pic.InterruptHandlers.ReadDataPort` | src/interupt/pic.rs:54 | returns the data port's contents and records one read of port `0x60` |
| `Pic.InterruptHandlers.PrintOutput` | src/interupt/pic.rs:58-59 | records exactly one print |
| `Pic.InterruptHandlers.NotifyEndOfInterrupt` | src/interupt/pic.rs:63-67 | records exactly one EOI for the given vector |
| `Pic.InterruptHandlers.TimerInterruptHandler` | src/interupt/pic.rs:44-50 | appends exactly one EOI with vector 32 and nothing else; the decoder state is unchanged |
| `Pic.InterruptHandlers.KeyboardInterruptHandler` | src/interupt/pic.rs:52-68 | the decoder state and the appended effects are those of `KeyboardReaction`, for every decoder outcome |
| `Pic.EveryDeliveryAcknowledgedOnce` | src/interupt/pic.rs:44-68 | for any sequence of deliveries and any decoder, each vector gets exactly one EOI per delivery on it, and port `0x60` is read exactly once per keyboard delivery |

## Left out

- Volatile access: the writer's copy of video memory is read once at construction. The model receives those contents as the constructor's `screen` parameter and treats every cell access as a plain array access.
- `VgaBuffer.VgaWriter.WriteByte`: the source panics (index out of bounds) when the column is 80; the model requires `column < 80` instead of modelling the panic.
- `VgaBuffer.VgaWriter.WriteString`, `VgaBuffer.VgaWriter.WriteStr`: for the same reason both require `column + |s| <= 80`; the model does not describe the bytes written before a panic.
- `VgaBuffer.VgaWriter.ClearLine`: a row number of 25 or more panics in the source; the model requires `n < 25`.
- Strings: a Rust `&str` is modelled as its sequence of UTF-8 bytes. Each byte of a multi-byte character is sanitised on its own.
- The `Debug`, `Clone`, `PartialEq` derivations and the `#[repr]` layouts are not modelled, except the colour discriminants.
- `print!`: the macro is not part of this model. A print is an abstract `Print` token in the trace: a character or a key's debug name. The model does not connect it to `VgaWriter`, and it does not model `core::fmt` formatting.
- Keyboard decoder internals (scancode set 1, the US 104-key layout, modifier tracking): foreign crate. Its state and its two steps are parameters.
- Interrupt controller internals: the EOI command bytes sent to the controllers' ports, and the command sequence of `ChainedPics::initialize`, belong to a foreign crate. An EOI is a trace event carrying the vector.
- Controller initialisation and enabling interrupts: the kernel never calls `initialize()` and never enables interrupts. The model assumes both have happened. `IrqVector` states the mapping the two offsets would give once the controllers are initialised.
- `spin::Lazy` and `spin::Mutex`, and interrupt versus normal context: each handler is one sequential method. The locking order and the lock state are not modelled.
- The hardware data port: the byte the keyboard presents is the handler's `portValue` parameter.
- Interrupt table entries: an entry is the handler it dispatches to. Entry options and the library's panic on indexing reserved exception vectors below 32 are not modelled.
- `src/serial.rs`, `src/gdt.rs`, `src/interupt.rs`, `src/lib.rs`, `src/main.rs` and `tests/`: these are UART port I/O, processor descriptor tables, exception handlers that depend on real faults, and boot orchestration. None of them is part of this model.

## Findings

| source | as written | input that shows it | evidently intended | confidence | as-written member | corrected member |
|---|---|---|---|---|---|---|
| src/vga_buffer.rs:33 | `(foreground as u8) << 4 \| (background as u8)`: foreground in the high nibble | `ColorCode::new(White, Black)` gives `0xf0`, which VGA text mode shows as black text on a white background (with blinking enabled, blinking black on light grey) | foreground in the low nibble and background in the high nibble, as the VGA attribute byte lays them out | medium, not executed; nothing in src/vga_buffer.rs, src/lib.rs, src/main.rs or src/interupt/pic.rs calls `ColorCode::new` | `VgaBuffer.NewColorCodeSwapsColors` | `VgaBuffer.AttributeByte` |
