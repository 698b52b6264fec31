# X65 board model

A Dafny model of the X65 home-computer board emulator (`emulator/systems/x65.h`):
the board state that ties a 6502 CPU, two 6522 VIAs, a 6561 VIC video/audio
chip, a keyboard matrix and 5 KB of RAM plus 20 KB of ROM together, and the
entry points a host program calls on it.

The model has two layers.

- **The value layer** (modules `Pins`, `Memory`, `Keyboard`, `Board`):
  - the 64-bit pin word;
  - the byte banks and the two layered memory maps (CPU-visible and VIC-visible);
  - the key registrations;
  - the whole board as a `Machine` value, with one tick (`Board.Tick`), the free and
    debug execution loops (`Board.Run`, `Board.RunDebug`, `Board.Exec`), reset,
    quickload, and snapshot save/load, each as a function of the state.
- **The object layer** (`X65System.X65`): a class with the board's fields, updated in
  place, and a fixed-size sample buffer `array`. Every method is proved to leave
  the object in the state the matching value-layer function gives.

Its loops are proved with invariants:

- the tick loops of `x65_exec`;
- the key-map scan of `_x65_init_key_map`;
- the write loop of `x65_quickload`.

The chips are opaque. Their states are abstract types, and their behaviour is
supplied as functions in a `Board.Chips` value. So every property proved here
holds whatever the chips do. The bit positions of the pin word come from the
chip headers m6502.h, m6522.h and m6561.h. Those headers, and mem.h, kbd.h
and clk.h, are not part of this model. The memory map semantics are modelled
as x65.h uses them:

- registrations on two layers, where layer 0 overlays layer 1 and the latest
  registration wins a tie;
- writes to read-only regions are dropped;
- unmapped addresses read 0xFF.

Proved properties include:

- The interrupt wiring of a tick. The CPU's NMI is VIA 1's IRQ and its IRQ is
  VIA 2's, whatever the CPU drove.
- Which chip drives the data bus after a tick.
- Every other pin is left as the CPU drove it.
- An I/O-window access never touches memory, and no CPU write changes a ROM.
- The memory layout of both address spaces, and that the VIC sees CPU writes to
  main RAM and the zero page.
- The audio buffer hands exactly `numSamples` samples to the callback as one
  block, in order.
- Under any debug hook, the debug loop runs a prefix of the free loop's ticks.
  The hook sees the pins after each tick, and the loop ends early only when
  the debugger stops it. A hook that never stops runs every tick, and a
  stopped debug loop stays stopped.
- The key map registers every non-blank character at the last cell that holds
  it (so `$` and `*` land on their shifted cells), with the named keys laid
  over it.
- Quickload writes every payload byte that lands in RAM, reads back, and
  leaves the ROMs alone.
- Save followed by load restores the board exactly, provided the CPU's and
  the VIC's on-load fix-ups undo their on-save fix-ups.

## Model

| member | source | states |
|---|---|---|
| Pins.GetAddr | emulator/systems/x65.h:300 | the address is the low 16 bits of the pin word |
| Pins.GetData | emulator/systems/x65.h:302 | the data byte is bits 16-23 of the pin word |
| Pins.SetData | emulator/systems/x65.h:302 | the data bus then holds the byte, and every other pin is unchanged |
| Pins.CopyData | emulator/systems/x65.h:340 | the data bus is copied, and every other pin is unchanged |
| Pins.SetPortA | emulator/systems/x65.h:365 | port A lines hold the byte, and every other pin is unchanged |
| Pins.GetPortB | emulator/systems/x65.h:367 | port B is the top byte of the pin word |
| Pins.IoWindowRange | emulator/systems/x65.h:271 | the mask test selects exactly addresses 0x9000..0x93FF |
| Pins.VicSelectedInWindow | emulator/systems/x65.h:277-290 | inside the I/O window the VIC answers exactly on 0x9000..0x90FF |
| Memory.Banks.Put | emulator/systems/x65.h:103-110 | one byte of one bank changes; the other banks and the expansion RAM do not |
| Memory.Winner | emulator/systems/x65.h:220-221 | the answering registration covers the address, or none does |
| Memory.WinnerIsLowest | emulator/systems/x65.h:220-221 | nothing answers iff nothing covers the address; what answers has the lowest covering layer |
| Memory.Read | emulator/systems/x65.h:302 | an address no registration covers reads 0xFF; otherwise it reads the winning registration's bank byte at its offset |
| Memory.Write | emulator/systems/x65.h:305 | a write through a read-write region stores the byte; otherwise the banks are unchanged |
| Memory.WriteChangesOneByte | emulator/systems/x65.h:305 | a write changes only the winning region's byte for that address |
| Memory.WriteThenRead | emulator/systems/x65.h:302-305 | reading back a write to read-write memory gives the written byte |
| Memory.ReadAfterOtherWrite | emulator/systems/x65.h:302-305 | with no shared banks, a write leaves every other address's reading unchanged |
| Memory.LayerZeroWins | emulator/systems/x65.h:220-221 | a region alone on layer 0 at an address overlays layer 1 there |
| Memory.WriteAllSnoc | emulator/systems/x65.h:496-498 | a run of writes extended by one byte is the run followed by that write |
| Memory.WriteRun | emulator/systems/x65.h:494-498 | the 16-bit address loop writes the first end-start bytes from start on, and nothing when end is not above start |
| Memory.WriteAll | emulator/systems/x65.h:496-498 | a run of writes keeps the banks well-sized and never touches the unmapped expansion RAM |
| Memory.WriteAllFrame | emulator/systems/x65.h:496-498 | with no shared banks, every address outside the run reads as before |
| Memory.WriteAllKeeps | emulator/systems/x65.h:496-498 | a run of writes never changes a bank that is mapped only read-only |
| Memory.WriteAllReadBack | emulator/systems/x65.h:496-498 | after a run of writes, each address in read-write memory reads its byte of the run |
| Memory.ReadBackBeforeLast | emulator/systems/x65.h:496-498 | the same for a byte before the last: the last write lands elsewhere |
| Memory.CpuMap | emulator/systems/x65.h:223-229 | the CPU map's registrations fit the 16-bit space and their banks |
| Memory.VicMap | emulator/systems/x65.h:239-244 | the VIC map's registrations fit the 16-bit space and their banks |
| Memory.MapsHaveDistinctBanks | emulator/systems/x65.h:223-244 | neither map reaches a bank through two registrations |
| Memory.OnlyCover | emulator/systems/x65.h:223-229 | an address covered by exactly one registration is answered by it |
| Memory.CpuWinner | emulator/systems/x65.h:200-229 | which CPU registration answers each address, and that none answers in the gaps |
| Memory.VicWinner | emulator/systems/x65.h:231-244 | which VIC registration answers each address |
| Memory.CpuMapLayout | emulator/systems/x65.h:200-229 | what each CPU address reads: RAM, ROM or 0xFF, by range |
| Memory.CpuWritable | emulator/systems/x65.h:223-229 | the CPU can write exactly 0000-03FF, 1000-1FFF and 9400-97FF |
| Memory.CpuWriteKeepsRoms | emulator/systems/x65.h:226-229 | no CPU write changes a ROM |
| Memory.VicSeesCpuWrites | emulator/systems/x65.h:243-244 | the VIC reads a CPU write to main RAM 0x2000 higher, and one to the zero page at 0x2000 up |
| Memory.VicMapReadOnly | emulator/systems/x65.h:240-244 | a write through the VIC map changes nothing |
| Memory.VicFetch | emulator/systems/x65.h:422-426 | the fetched word's high byte is the color-RAM byte at addr mod 0x400 and its low byte the VIC map's byte |
| Keyboard.ScanStep | emulator/systems/x65.h:456-465 | registering one more cell keeps the registrations those of the cells scanned so far |
| Keyboard.ScanColumn | emulator/systems/x65.h:458-463 | after one column, every non-blank character scanned so far is registered at its latest cell, and only such characters are |
| Keyboard.ScanKeyMap | emulator/systems/x65.h:456-465 | the same after both layers, all eight columns and all eight lines |
| Keyboard.ScanWithSpecials | emulator/systems/x65.h:467-483 | the scan with the named keys laid over it meets the registration spec |
| Keyboard.InitKeyMap | emulator/systems/x65.h:428-484 | two modifiers; the named keys exactly; every other code at the last key-map cell holding it, and only codes of the key map |
| Keyboard.DollarTakesLastCell | emulator/systems/x65.h:443-450 | '$' is registered at column 7, line 1 of the shifted layer |
| Keyboard.StarTakesLastCell | emulator/systems/x65.h:436-446 | '*' is registered at column 7, line 3 of the shifted layer |
| Board.PushSample | emulator/systems/x65.h:384-393 | the sample is stored at the position, which advances and wraps to 0; the block is handed over iff a callback is set and the buffer filled |
| Board.PushAll | emulator/systems/x65.h:383-394 | pushing samples keeps the audio state valid, its size and callback |
| Board.PartialBlock | emulator/systems/x65.h:384-393 | fewer samples than fill the buffer are stored in order, and nothing is handed over |
| Board.FullBlockDelivered | emulator/systems/x65.h:385-392 | from empty, numSamples samples are handed over as one block, in order, and the buffer restarts |
| Board.PushAllSplit | emulator/systems/x65.h:383-394 | pushing two runs in turn is pushing their concatenation |
| Board.Via1Select | emulator/systems/x65.h:269-293 | VIA 1 is selected iff the address is in the I/O window with A4 high |
| Board.Via2Select | emulator/systems/x65.h:270-296 | VIA 2 is selected iff the address is in the I/O window with A5 high |
| Board.VicSelect | emulator/systems/x65.h:268-290 | the VIC is selected iff the address is in the I/O window and on its snooped lines |
| Board.MemAccess | emulator/systems/x65.h:298-307 | outside the I/O window a read puts the mapped byte on the bus and a write stores the bus byte; inside it nothing changes |
| Board.Via1Input | emulator/systems/x65.h:334 | port A lines 0, 1 and 7 are high, and nothing else changes |
| Board.Via1Merge | emulator/systems/x65.h:336-341 | NMI is raised iff VIA 1's IRQ is; the data comes from VIA 1 iff it is selected and read |
| Board.Via2Merge | emulator/systems/x65.h:369-374 | IRQ is raised iff VIA 2's IRQ is; the data comes from VIA 2 iff it is selected and read |
| Board.VicMerge | emulator/systems/x65.h:380-382 | the data comes from the VIC iff it is selected and read |
| Board.VicAudio | emulator/systems/x65.h:383-394 | a sample is pushed iff the VIC strobes SAMPLE |
| Board.MergeInterrupts | emulator/systems/x65.h:264-371 | after clearing, NMI ends up as VIA 1's IRQ and IRQ as VIA 2's |
| Board.MergeKeepsOtherPins | emulator/systems/x65.h:264-382 | the merges change only the data bus and the interrupt lines |
| Board.MemAccessKeepsRoms | emulator/systems/x65.h:298-307 | a memory access through the CPU map never changes a ROM |
| Board.Fetcher | emulator/systems/x65.h:422-426 | the fetch function the VIC is given answers every address with the VIC fetch over the given banks |
| Board.Via1Step | emulator/systems/x65.h:331-342 | VIA 1 ticks on the selected pins with PA0, PA1 and PA7 high, and its output is merged into the CPU's pins |
| Board.Via2Step | emulator/systems/x65.h:363-375 | VIA 2 ticks with port A holding the inverted keyboard scan lines; the keyboard's active columns become the inverted port B; its output is merged into the CPU's pins |
| Board.VicStep | emulator/systems/x65.h:378-382 | the VIC ticks on the selected pins with the fetch function, and its data goes onto the bus iff it is selected and read, every other pin kept |
| Board.StagesOf | emulator/systems/x65.h:260-382 | a tick's chip stages keep the banks well-sized |
| Board.TickWiring | emulator/systems/x65.h:262-368 | the CPU ticks on the given pins and its interrupt lines are cleared; VIA 1 ticks with PA0, PA1 and PA7 high over its decoded pins; VIA 2's port A gets the inverted keyboard scan lines, and the keyboard's active columns become VIA 2's inverted port B |
| Board.TickInterrupts | emulator/systems/x65.h:264-371 | a tick's returned NMI is VIA 1's IRQ and its IRQ is VIA 2's, whatever the CPU drove |
| Board.TickDataBus | emulator/systems/x65.h:339-382 | a tick's data bus comes from the VIC, else VIA 2, else VIA 1, else the memory access |
| Board.TickOtherPins | emulator/systems/x65.h:262-382 | a tick returns every other pin as the CPU drove it |
| Board.TickMemory | emulator/systems/x65.h:271-307 | the memory stage is the access on the CPU's pins with interrupts cleared; an I/O-window access leaves memory alone, and no tick changes a ROM |
| Board.TickVic | emulator/systems/x65.h:268-289 | the VIC ticks on the CPU's shared pins, selected exactly for the window's VIC addresses, and fetches through its map over the banks after the memory access |
| Board.Tick | emulator/systems/x65.h:260-398 | a tick keeps the board valid and leaves the stored pins, valid flag, debug hook and key map alone |
| Board.TickOutcome | emulator/systems/x65.h:260-398 | a tick returns the stages' pins and stores the chips' new states and banks; the VIC's sample is pushed into the audio buffer exactly when the VIC strobes SAMPLE, and otherwise audio is unchanged with nothing handed over |
| Board.TickIgnoresDebug | emulator/systems/x65.h:260-398 | a tick neither reads nor changes the debug hook |
| Board.TicksFor | emulator/systems/x65.h:402 | the tick count is a 32-bit floor of frequency times microseconds over a million |
| Board.TicksExamples | emulator/systems/x65.h:67 | 1000 us is 1108 ticks and 0 us none |
| Board.Run | emulator/systems/x65.h:406-408 | n steps are n ticks, delivering at most one block each |
| Board.RunDebug | emulator/systems/x65.h:412-415 | at most n ticks, and fewer only when the debugger has stopped; the hook keeps its callbacks (what the run and the hook state are is `Board.RunDebugTrace`) |
| Board.StepKeepsBoards | emulator/systems/x65.h:260-398 | the tick takes every valid board to a valid one with the same pins, flag, hook presence and keys |
| Board.RunKeepsValid | emulator/systems/x65.h:406-408 | the free loop keeps the board valid, with the same pins, flag, hook presence and keys |
| Board.RunDebugKeepsValid | emulator/systems/x65.h:412-415 | the same for the debug loop |
| Board.StoppedRunStays | emulator/systems/x65.h:412 | once stopped, a larger tick budget changes nothing |
| Board.NeverStoppedRunsAll | emulator/systems/x65.h:404-416 | a hook that never stops runs exactly the free loop's ticks |
| Board.RunDebugTrace | emulator/systems/x65.h:412-415 | for every hook: the debug loop runs the free loop's first ticks; after them the hook state is the hook's step applied to the pins of each tick in turn; the debugger let every one of those ticks start; and a run that ended early was stopped by the debugger |
| Board.Exec | emulator/systems/x65.h:400-420 | the computed tick count is returned; the board is the free run's (or, with a hook, the debug run's) final board with the run's final pins stored, the keyboard updated by `us` and, with a hook, the hook after the run; the delivered blocks are the run's; with a hook, fewer ticks run only when the debugger stopped |
| Board.ExecZero | emulator/systems/x65.h:400-420 | zero microseconds run no tick and only update the keyboard |
| Board.SampleCount | emulator/systems/x65.h:169 | the configured sample count, or 128 when it is 0 |
| Board.Zeros | emulator/systems/x65.h:165 | n zero bytes |
| Board.Reset | emulator/systems/x65.h:252-258 | RES is raised with the other pins kept; the VIAs and VIC are reset; CPU, memory, keyboard, audio, memory maps, key map, valid flag and debug hook are kept |
| Board.LoadAddress | emulator/systems/x65.h:492 | the load address is the first two bytes, little-endian |
| Board.LoadCount | emulator/systems/x65.h:494-498 | all payload bytes are written when they fit below 0x10000; otherwise the count runs from the start address up to the 16-bit end address (start + length) mod 0x10000, and is 0 when that end is not above the start |
| Board.Quickload | emulator/systems/x65.h:486-500 | refused iff the file is shorter than two bytes, leaving memory unchanged |
| Board.QuickloadKeepsRoms | emulator/systems/x65.h:494-498 | a quickload never changes a ROM |
| Board.QuickloadKeepsOthers | emulator/systems/x65.h:494-498 | every CPU address outside the payload's range reads as before, and the expansion RAM is untouched |
| Board.QuickloadReadBack | emulator/systems/x65.h:494-498 | each written payload byte in RAM reads back from its address |
| Board.QuickloadExample | emulator/systems/x65.h:486-500 | the file 00 10 AA BB puts AA at 0x1000 and BB at 0x1001 |
| Board.Save | emulator/systems/x65.h:542-552 | a snapshot drops the debug hook and audio callback, applies the CPU's and VIC's on-save fix-ups, and copies memory, pins, VIAs, keyboard, audio state, valid flag, key map and both memory maps |
| Board.Load | emulator/systems/x65.h:554-569 | another version is refused with the board unchanged; otherwise the board becomes the snapshot with the live debug hook and audio callback and the CPU's and VIC's on-load fix-ups |
| Board.SaveLoadRoundTrip | emulator/systems/x65.h:542-569 | saving and loading back restores the board exactly, when the chips' on-load fix-ups undo their on-save ones |
| Board.SaveLoadSave | emulator/systems/x65.h:542-569 | a snapshot of a restored snapshot equals the original snapshot, under the same condition |
| X65System.X65.constructor | emulator/systems/x65.h:159-245 | a new board is valid and in the initial state: zeroed RAM, ROMs copied, chips initialised, key map registered, both maps built; it keeps the given chips, and its sample buffer is new |
| X65System.X65.Discard | emulator/systems/x65.h:247-250 | only the valid flag changes, to false |
| X65System.X65.Reset | emulator/systems/x65.h:252-258 | the object becomes the reset board value |
| X65System.X65.PushSample | emulator/systems/x65.h:384-393 | the buffer array and position change as the value-level push says, and the same block is handed over |
| X65System.X65.Sound | emulator/systems/x65.h:383-394 | only the audio changes, as the VIC's strobe says |
| X65System.X65.RunStages | emulator/systems/x65.h:260-382 | the chip and bank fields become those of the tick's stages |
| X65System.X65.Tick | emulator/systems/x65.h:260-398 | the object, returned pins and handed-over block are those of the value-level tick |
| X65System.X65.RunFree | emulator/systems/x65.h:406-408 | the loop of n ticks ends in the state of the free run |
| X65System.X65.RunHooked | emulator/systems/x65.h:412-415 | the debug loop ends in the state of the debug run, with its tick count and hook |
| X65System.X65.Exec | emulator/systems/x65.h:400-420 | the object, tick count and delivered blocks are those of the value-level exec |
| X65System.X65.KeyDown | emulator/systems/x65.h:502-505 | only the keyboard changes, by the key going down |
| X65System.X65.KeyUp | emulator/systems/x65.h:507-510 | only the keyboard changes, by the key going up |
| X65System.X65.Quickload | emulator/systems/x65.h:486-500 | the banks and result are those of the value-level quickload |
| X65System.X65.SaveSnapshot | emulator/systems/x65.h:542-552 | returns the snapshot version and the saved board value |
| X65System.X65.LoadSnapshot | emulator/systems/x65.h:554-569 | the object becomes the value-level load's result |
| X65System.X65.Store | emulator/systems/x65.h:567 | the whole object becomes the given board value |

## Left out

- Floating point: the VIC's sample rate and volume settings, and the sample type. A sample is an opaque value.
- The framebuffer, `x65_display_info` and the screen geometry.
- The optional expansion RAM blocks (3 KB and 4 x 8 KB). They are held in `Memory.Banks` but never registered, so no address reaches them. Joystick, serial and cassette lines are not modelled.
- `insert_rom_cartridge` and the other cartridge code are not part of this model.
- The chip emulators (m6502, m6522, m6561) and the keyboard matrix's own state machine (kbd.h) are opaque: the functions in `Board.Chips` stand for them. The registrations the board makes are modelled; how kbd.h scans or times keys is not. `Keyboard.InitKeyMap` returns the registrations as a value instead of calling `kbd_register_key`.
- The memory maps are values (`seq<Region>`), and the banks are one `Banks` value that each write replaces. The aliasing between the two maps' pointers into the same arrays is modelled as both maps naming the same `Bank`.
- The VIC's fetch callback is the closure `Board.Fetcher` over the banks after the tick's memory access, not a pointer back to the board.
- `Board.StagesOf` computes a tick's chip stages as a value, and `X65System.X65.RunStages` stores them. The fields are not updated one chip at a time as in the C function, though the order of the chips and the values each sees are the same.
- Audio and debug callbacks are not called. A block handed to the audio callback is returned as a value. The debug hook's callback and its `stopped` flag are a step function and a predicate over a debugger state the board carries.
- A snapshot is a `Machine` value, not a second board object. The `mem_snapshot_onsave`/`onload` pointer fix-ups have nothing to do on values and are left out.
- X65System.X65.constructor: requires a sample count of at least 0, which the C code does not check. A negative count would index outside the buffer.
- X65System.X65.LoadSnapshot: requires the snapshot to be a valid board value (sizes and maps). The C code copies any bytes.
- Board.Step: the step function leaves an invalid board as it is. Only valid boards are ever run.
- Board.Kept: compares only whether a debug hook is present, not the hook itself. Hooks hold functions, which have no equality.
- Board.TicksFor: the `clk_us_to_ticks` helper is not part of this model. The tick count is the floor of frequency times microseconds over a million, cut to 32 bits. The microsecond count (here and in `Board.Exec`, `X65System.X65.Exec`) is an unbounded `nat`, where `x65_exec` takes a `uint32_t`: every count the C function can be passed is covered.
- The `CHIPS_ASSERT` checks that the board pointer is non-null have no counterpart. Checks on the board's valid flag become `requires valid` on the methods.
