# gones-emu core in Dafny

A model of the hardware core of gones-emu, a NES emulator written in Go, with
proofs about it. These parts are modelled:

- **memory components**: the RAM, the ROM, the address mirror and the PPU's
  register window. They all share one interface: a window
  `[StartAddr, EndAddr]`, a `Read` into a byte buffer that may be nil, and a
  `Write`.
- **the system bus**: it forwards an access to the first registered component
  whose window holds the address.
- **the 6502 CPU**: registers and flags, the stack helpers, power-up and
  reset, the operand fetch, the opcode table with its linear lookup, the
  addressing-mode resolver, every instruction handler, and the cycle loop
  `DoCycle`.
- **the PPU's timing loop**: `Execute`. It counts dots, asks the video backend
  to draw visible dots, raises the vertical-blank status bit and flushes once
  per screen.
- **the iNES cartridge loader**: header, signature, trainer offset and
  mapper number, then PRG and CHR payloads wired as mapper 0.
- **the console's bus**, as the entry point wires it: 2 KiB of RAM, the PPU
  window and 1023 mirrors of it.

Modules follow the Go packages:

| module | models | file |
|---|---|---|
| `Common` | shared types | `common.dfy` |
| `Ram` | `memory/ram` | `ram.dfy` |
| `Rom` | `memory/rom` | `rom.dfy` |
| `PpuRegisters` | the PPU seen from the CPU bus | `ppu_registers.dfy` |
| `Hardware` | the `Component` interface over a closed set of devices | `hardware.dfy` |
| `Mirror` | `mirror` | `mirror.dfy` |
| `Bus` | `bus` | `bus.dfy` |
| `Instructions` | `instruction.go` | `instructions.dfy` |
| `CpuState` | registers, flags, stack and operand fetch of `cpu.go` | `cpu_state.dfy` |
| `Stack` | how the stack behaves on a bus whose page 1 is RAM | `stack.dfy` |
| `Impl` | `impl.go` | `impl.dfy` |
| `Cpu` | `DoCycle` and the `CPU6502` object | `cpu.dfy` |
| `Ppu` | `ppu.go` | `ppu.dfy` |
| `Cartridge` | `cardridge.go` | `cartridge.dfy` |
| `Console` | the wiring in `cmd/main.go` | `console.dfy` |

How Go's behaviour is represented:

- **Failures.** Every Go `error` is an `Error` value. A Go runtime panic is
  the error `RuntimePanic`. These are the panics:
  - a modulo by a RAM size of 0;
  - a ROM index past its data;
  - a handler reading `opperand[2]` of a two-byte row;
  - a nil destination buffer in the PPU's `Read`.
  A panic in a read or write whose error the caller ignores does not stop
  the model; "## Left out" says where that applies.
- **Buffers.** The `*uint8` destination of a read is `Ptr` (`Nil` or
  `Cell(v)`). A read returns the buffer as it was left.
- **Integer widths.** The source's `uint8`, `uint16` and `uint32`
  wrap-around is written out: `Wrap8`, `Wrap16`, `Inc8`/`Dec8`, `Inc16` and
  `Ppu.Inc32`.
- **Flags.** The flag byte `p` and the PPU registers are `bv8`.
- **Components.** The bus holds components as values in a `seq`. A mirror
  names its backing component by its position on the bus. A bus access
  returns the new component sequence, because a read of PPU status changes the
  PPU.
- **Imperative objects are classes.** They are `Bus.SystemBus`,
  `Cpu.Cpu6502` and `Ppu.PictureUnit`:
  - each keeps the Go object's fields;
  - each method is proved equal to a function on the object's state
    (`Bus.Load`, `Cpu.Cycle`, `Ppu.Tick`, …);
  - the properties are proved about those functions.
- **Loops** are `while` loops with invariants: `fetchOpperand` and the PPU's
  `Execute`.

## Model

| member | source | states |
|---|---|---|
| Ram.Index | pkg/hardware/memory/ram/ram.go:39 | an in-window address selects a cell inside the memory, its offset from the start modulo the size |
| Ram.New | pkg/hardware/memory/ram/ram.go:17-26 | the RAM has the given window and size, and all of its cells are zero |
| Ram.Read | pkg/hardware/memory/ram/ram.go:29-41 | a nil buffer is a null-buffer error; an address outside the window is out of range; size 0 panics; otherwise the buffer receives the addressed cell; the RAM never changes on a read; it succeeds exactly in the last case |
| Ram.Write | pkg/hardware/memory/ram/ram.go:43-50 | outside the window it is out of range and changes nothing; size 0 panics; otherwise exactly the addressed cell takes the value and every other cell, the window and the size stay |
| Ram.ReadAfterWrite | pkg/hardware/memory/ram/ram.go:39-48 | reading an address just written returns the written value |
| Ram.WriteKeepsOtherCells | pkg/hardware/memory/ram/ram.go:39-48 | a write leaves the bytes read at every address that maps to another cell unchanged |
| Ram.Aliasing | pkg/hardware/memory/ram/ram.go:39-48 | two addresses with the same offset modulo the size read the same byte, and a write through one is read through the other |
| Ram.ConsoleRamAliasing | cmd/main.go:55 | in the console's RAM (window [0, 0x800], size 2048), a write to 0x800 is read back at 0 |
| Rom.New | pkg/hardware/memory/rom/rom.go:17-26 | the ROM keeps its window, size and data as given |
| Rom.Read | pkg/hardware/memory/rom/rom.go:29-40 | nil buffer: null-buffer error; outside the window: out of range; an offset past the data panics; otherwise the byte at the offset; never changes the ROM |
| Rom.Write | pkg/hardware/memory/rom/rom.go:42-44 | every write is refused with an error and changes nothing |
| Rom.CoveredWindowReads | pkg/hardware/memory/rom/rom.go:34-38 | when the data covers the whole window, every in-window read succeeds with the byte at its offset |
| PpuRegisters.Initial | pkg/hardware/ppu/ppu.go:166-179 | a fresh PPU answers [0x2000, 0x2007] with control, mask and status all zero |
| PpuRegisters.ClearStatusBits | pkg/hardware/ppu/ppu.go:243-245 | the given status bits become 0, all other status bits and registers stay |
| PpuRegisters.SetStatusBits | pkg/hardware/ppu/ppu.go:247-249 | the given status bits become 1, all other status bits and registers stay |
| PpuRegisters.Read | pkg/hardware/ppu/ppu.go:254-280 | 0x2000 and 0x2001 return control and mask; 0x2002 returns status and clears the vertical-blank bit; those three panic on a nil buffer; any other address leaves buffer and registers as they were |
| PpuRegisters.Write | pkg/hardware/ppu/ppu.go:285-288 | a write succeeds and changes nothing |
| PpuRegisters.StatusReadAcknowledges | pkg/hardware/ppu/ppu.go:265-268 | a status read returns the status and clears vertical blank, so a second read sees the bit clear and every other bit as before |
| Hardware.Read | pkg/hardware/component.go:3-8 | the interface read is exactly the read of the RAM, ROM or PPU register file inside; it keeps the device's kind and window; only the PPU changes state when read; a non-nil buffer stays non-nil |
| Hardware.Write | pkg/hardware/component.go:3-8 | the interface write is exactly the write of the RAM, ROM or PPU register file inside; it keeps the device's kind and window; only a RAM changes state when written |
| Hardware.ReadNeverPanics | pkg/hardware/memory/ram/ram.go:39 | a read into a destination from a RAM with cells, a ROM whose data covers its window, or the PPU never panics |
| Hardware.WriteNeverPanics | pkg/hardware/memory/ram/ram.go:48 | a write to a RAM with cells, a ROM or the PPU never panics |
| Mirror.Translate | pkg/hardware/mirror/mirror.go:36-37 | the backing address is the backing's start plus the offset into the mirror window, truncated to 16 bits |
| Mirror.Read | pkg/hardware/mirror/mirror.go:28-47 | outside the window: out of range; a translated address past the backing's end: beyond-reach error; otherwise exactly the backing's read at the translated address |
| Mirror.Write | pkg/hardware/mirror/mirror.go:49-66 | the same three cases for writes, forwarding to the backing's write |
| Mirror.WriteThroughThenReadBacking | pkg/hardware/mirror/mirror.go:57-65 | a write through a mirror onto a RAM is read back from the RAM at the corresponding address |
| Bus.SelectFrom | pkg/hardware/bus/sysbus.go:25-33 | the result is the first position at or after `i` whose window holds the address, or none when no such position exists |
| Bus.Select | pkg/hardware/bus/sysbus.go:25-33 | `getComponent`: the first registered component whose window holds the address; none exactly when no window holds it |
| Bus.Target | pkg/hardware/bus/sysbus.go:35-53 | the position an access acts on exists exactly when some component holds the address, lies on the bus, and is the selected mirror itself only when that mirror is not wired to a device |
| Bus.Delegate | pkg/hardware/bus/sysbus.go:42 | a device answers with its own read, its new state replacing it; a wired mirror answers with `Mirror.Read` on its backing, whose new state replaces the backing; an unwired mirror fails and changes nothing; every component keeps its kind and window |
| Bus.Load | pkg/hardware/bus/sysbus.go:35-43 | `SystemBus.Read`: an address no component holds fails with "no component" and changes nothing; otherwise error, buffer and new state are those of the selected device's own read, or of `Mirror.Read` on the selected mirror's backing; the bus layout is kept |
| Bus.LoadFrame | pkg/hardware/bus/sysbus.go:35-43 | a bus read changes no component other than a PPU register file |
| Bus.DelegateWrite | pkg/hardware/bus/sysbus.go:52 | a device answers with its own write, its new state replacing it; a wired mirror answers with `Mirror.Write` on its backing; an unwired mirror fails and changes nothing; every component keeps its kind and window |
| Bus.Store | pkg/hardware/bus/sysbus.go:45-53 | `SystemBus.Write`: an address no component holds fails and changes nothing; otherwise error and new state are those of the selected device's own write, or of `Mirror.Write` on the selected mirror's backing; only the access's target, and only if it is a RAM, can change |
| Bus.LoadNeverPanics | pkg/hardware/bus/sysbus.go:35-43 | on a bus whose devices are all sound, a read into a destination never panics, whether it is forwarded to a device or through a mirror |
| Bus.StoreNeverPanics | pkg/hardware/bus/sysbus.go:45-53 | on a bus whose devices are all sound, a write never panics |
| Bus.SelectFromLayout | pkg/hardware/bus/sysbus.go:25-33 | buses of the same layout select the same component from any position on |
| Bus.SelectLayout | pkg/hardware/bus/sysbus.go:25-33 | accesses, which keep the layout, never change which component owns an address |
| Bus.AppendKeepsOwners | pkg/hardware/bus/sysbus.go:21-33 | appending a component never takes an address from an earlier owner, and it gains exactly the unowned addresses in its window |
| Bus.FirstMatch | pkg/hardware/bus/sysbus.go:26-29 | the first component in registration order that holds the address is the one selected |
| Bus.EmptyWindowNeverSelected | pkg/hardware/bus/sysbus.go:27 | a component whose start lies above its end is never selected |
| Bus.EmptyBusFails | pkg/hardware/bus/sysbus.go:13-19 | on a bus with no components every read and write fails and changes nothing |
| Bus.SystemBus.constructor | pkg/hardware/bus/sysbus.go:13-19 | `NewSystembus`: no components |
| Bus.SystemBus.AddComponent | pkg/hardware/bus/sysbus.go:21-23 | the component is appended after all earlier ones |
| Bus.SystemBus.Read | pkg/hardware/bus/sysbus.go:35-43 | the error, the buffer and the new components are those of `Bus.Load` |
| Bus.SystemBus.Write | pkg/hardware/bus/sysbus.go:45-53 | the error and the new components are those of `Bus.Store` |
| Instructions.Ordinal | pkg/hardware/cpu/cpu6502/instruction.go:15-80 | every mnemonic's `InstrID` is below 64 |
| Instructions.Table | pkg/hardware/cpu/cpu6502/instruction.go:99-311 | `cpuInstructions` has 178 rows |
| Instructions.SearchFrom | pkg/hardware/cpu/cpu6502/instruction.go:315-319 | the first row at or after `i` with the opcode, or none when no later row has it |
| Instructions.GetInstr | pkg/hardware/cpu/cpu6502/instruction.go:313-324 | a found row is in the table and has the opcode; "invalid opcode" exactly when no row has it |
| Instructions.TableRanked | pkg/hardware/cpu/cpu6502/instruction.go:99-311 | the lookup index `RowIndex` maps every listed opcode to the position of its row |
| Instructions.TableWellFormed | pkg/hardware/cpu/cpu6502/instruction.go:99-311 | the table has 178 rows; each row's length is 1 to 3 and fits its mode; each has at least 2 cycles and at most 1 page-cross cycle; exactly the branch mnemonics use REL |
| Instructions.OpcodesDistinct | pkg/hardware/cpu/cpu6502/instruction.go:99-311 | no two rows share an opcode |
| Instructions.GetInstrFindsRow | pkg/hardware/cpu/cpu6502/instruction.go:313-319 | looking up the opcode of any row returns that row |
| Instructions.GetInstrWellFormed | pkg/hardware/cpu/cpu6502/instruction.go:313-319 | every row the lookup returns is well formed |
| Instructions.UnlistedOpcode | pkg/hardware/cpu/cpu6502/instruction.go:321-323 | an opcode of no row is "invalid opcode" |
| Instructions.GetInstrLdaImmediate | pkg/hardware/cpu/cpu6502/instruction.go:100 | 0xa9 is LDA immediate, 2 bytes, 2 cycles |
| Instructions.GetInstrInvalid | pkg/hardware/cpu/cpu6502/instruction.go:321-323 | 0xff and 0x02 are not in the table |
| CpuState.SetFlag | pkg/hardware/cpu/cpu6502/cpu.go:101-103 | the given bits of p become 1; every other bit and register stays |
| CpuState.ClearFlag | pkg/hardware/cpu/cpu6502/cpu.go:105-107 | the given bits of p become 0; every other bit and register stays |
| CpuState.SetThenHas | pkg/hardware/cpu/cpu6502/cpu.go:101-111 | after setting a flag it is reported set |
| CpuState.ClearThenHasNot | pkg/hardware/cpu/cpu6502/cpu.go:105-111 | after clearing a non-empty flag it is reported clear |
| CpuState.WordOfBytes | pkg/hardware/cpu/cpu6502/cpu.go:139-152 | splitting a word into low and high byte and joining them again gives the word |
| CpuState.Peek | pkg/hardware/cpu/cpu6502/cpu.go:67-68 | a read whose error is ignored delivers the byte `Bus.Load` leaves in the destination and the bus `Bus.Load` leaves, so on failure the destination's old value; it keeps the bus layout and changes nothing but the PPU |
| CpuState.Poke | pkg/hardware/cpu/cpu6502/impl.go:219-221 | a write whose error is ignored leaves the bus `Bus.Store` leaves and keeps the bus layout |
| CpuState.StackAddr | pkg/hardware/cpu/cpu6502/cpu.go:127-135 | every stack address lies in page 1, 0x100 to 0x1ff |
| CpuState.Push8 | pkg/hardware/cpu/cpu6502/cpu.go:127-130 | `doPush8`: only s moves, down by one with wrap-around; the bus keeps its layout |
| CpuState.Pop8 | pkg/hardware/cpu/cpu6502/cpu.go:132-135 | `doPop8`: only s moves, up by one with wrap-around |
| CpuState.Push16 | pkg/hardware/cpu/cpu6502/cpu.go:139-142 | `doPush16`: s moves down by two |
| CpuState.Pop16 | pkg/hardware/cpu/cpu6502/cpu.go:144-152 | `doPop16`: s moves up by two |
| CpuState.Initialize | pkg/hardware/cpu/cpu6502/cpu.go:54-76 | a, x and y are 0, s is 0xff, p is interrupt-disable with the reserved bit; pc is the little-endian word of the reads of 0xfffc and then 0xfffd (a failed read giving 0), and the bus is the one the second read leaves; nothing else changes |
| CpuState.InitializeQuiet | pkg/hardware/cpu/cpu6502/cpu.go:64-72 | when the reset vector reads have no side effect, power-up leaves the bus as it was and pc is the word of the bytes at 0xfffc and 0xfffd |
| CpuState.Reset | pkg/hardware/cpu/cpu6502/cpu.go:78-85 | s drops by 3 with wrap-around, interrupt-disable is set, pc is 0xfffc; a, x and y stay |
| CpuState.FetchFrom | pkg/hardware/cpu/cpu6502/cpu.go:87-99 | from byte `i` on the fetch keeps the operand's length and the bus layout |
| CpuState.FetchFromStep | pkg/hardware/cpu/cpu6502/cpu.go:90-95 | one round of the loop: a failed read stops with its error; a successful one stores the byte and continues at `i + 1` |
| CpuState.FetchFromEnd | pkg/hardware/cpu/cpu6502/cpu.go:90-98 | once every byte is read the fetch ends without error, keeping the bytes and the bus |
| CpuState.FetchOperand | pkg/hardware/cpu/cpu6502/cpu.go:87-99 | the fetched operand has the instruction's length |
| CpuState.QuietLoad | pkg/hardware/bus/sysbus.go:35-43 | on a bus with no PPU, reads change nothing |
| CpuState.QuietAtLoad | pkg/hardware/bus/sysbus.go:35-43 | a read whose target is not a PPU register file changes no component |
| CpuState.FetchFromQuiet | pkg/hardware/cpu/cpu6502/cpu.go:87-99 | when no byte address from `i` on reaches a PPU register file, the fetch changes nothing, and succeeds exactly when every byte address is readable |
| CpuState.FetchFromQuietByte | pkg/hardware/cpu/cpu6502/cpu.go:90-91 | when no byte address reaches a PPU register file, byte j of a successful fetch is the byte at pc + j |
| CpuState.FetchStepQuiet | pkg/hardware/cpu/cpu6502/cpu.go:90-95 | a successful fetch whose byte `i` does not reach a PPU register file reads that byte and continues with it stored |
| CpuState.LoadErrorIgnoresBuffer | pkg/hardware/bus/sysbus.go:35-43 | for a read that does not reach a PPU register file, its error, and on success its result, do not depend on the buffer's old value |
| CpuState.FetchOperandQuiet | pkg/hardware/cpu/cpu6502/cpu.go:87-99 | when none of the `len` addresses from pc reaches a PPU register file (for instance a fetch from PRG ROM or RAM), the operand fetch succeeds exactly when every byte is readable; it then holds byte j at pc + j for every j, and the bus is unchanged |
| Stack.StackRamLayout | pkg/hardware/cpu/cpu6502/cpu.go:127-152 | accesses keep the stack on its RAM |
| Stack.StackLoad | pkg/hardware/cpu/cpu6502/cpu.go:132-135 | a read of a stack address returns the stack cell and changes nothing |
| Stack.StackStore | pkg/hardware/cpu/cpu6502/cpu.go:127-130 | a write to a stack address changes that stack cell and no other |
| Stack.PushThenPop8 | pkg/hardware/cpu/cpu6502/cpu.go:127-135 | popping a pushed byte returns it and restores every register |
| Stack.Pop8Cell | pkg/hardware/cpu/cpu6502/cpu.go:132-135 | a pop returns the cell above s and changes no memory |
| Stack.Push16Cells | pkg/hardware/cpu/cpu6502/cpu.go:139-142 | a word push stores the high byte at s and the low byte at s - 1 |
| Stack.Pop16Cells | pkg/hardware/cpu/cpu6502/cpu.go:144-152 | a word pop joins the cells at s + 1 (low) and s + 2 (high) |
| Stack.PushThenPop16 | pkg/hardware/cpu/cpu6502/cpu.go:139-152 | popping a pushed word returns it and restores every register |
| Impl.Address16 | pkg/hardware/cpu/cpu6502/impl.go:10-14 | operand bytes 1 and 2 are the low and high byte of the address |
| Impl.RowLongEnough | pkg/hardware/cpu/cpu6502/impl.go:16-94 | every table row's length covers the operand bytes its mode's resolver indexes |
| Impl.Signed | pkg/hardware/cpu/cpu6502/impl.go:25 | `int8` of a byte lies in [-128, 127] |
| Impl.RelTarget | pkg/hardware/cpu/cpu6502/impl.go:24-33 | the branch target is pc + Len plus the signed offset, except that offset -128 goes forward 128 |
| Impl.NegatedOffset | pkg/hardware/cpu/cpu6502/impl.go:30-32 | negating a non-positive offset in `int8` gives its magnitude, except -128 which stays negative |
| Impl.DirectAddr | pkg/hardware/cpu/cpu6502/impl.go:20-52 | REL, ZPG, ZPX, ZPY (8-bit wrap), ABS, ABX and ABY (16-bit wrap) give their textbook address; IMM, IMP, ACC and IND give 0 |
| Impl.Indirect | pkg/hardware/cpu/cpu6502/impl.go:53-86 | IDX reads the pointer at operand + x in page zero; IDY reads it at the operand and adds y |
| Impl.Locate | pkg/hardware/cpu/cpu6502/impl.go:16-88 | the resolver's address: direct modes read nothing; indirect modes change nothing but the PPU |
| Impl.Resolve | pkg/hardware/cpu/cpu6502/impl.go:16-94 | IMM yields operand byte 1 without a read; every other mode yields the value of an ignored-error read at the located address, on the bus the pointer reads left, and the bus that read leaves (0 when it fails) |
| Impl.FlagTo | pkg/hardware/cpu/cpu6502/impl.go:96-127 | a flag is set or cleared as asked; every other bit stays |
| Impl.NegativeCheck | pkg/hardware/cpu/cpu6502/impl.go:96-102 | Negative becomes bit 7 of the value; nothing else changes |
| Impl.ZeroCheck | pkg/hardware/cpu/cpu6502/impl.go:113-119 | Zero is set exactly when the value is 0 |
| Impl.CarryCheck | pkg/hardware/cpu/cpu6502/impl.go:121-127 | Carry is set exactly when the sum exceeds 256 |
| Impl.OverflowCheck | pkg/hardware/cpu/cpu6502/impl.go:105-111 | Overflow is set exactly when prev <= 127 and prev + value >= 128 |
| Impl.CheckNZ | pkg/hardware/cpu/cpu6502/impl.go:96-119 | Negative and Zero report the value; no other flag changes |
| Impl.Put | pkg/hardware/cpu/cpu6502/impl.go:520-552 | writing one of a, x, y leaves the other two, s, p and pc alone |
| Impl.LoadReg | pkg/hardware/cpu/cpu6502/impl.go:520-552 | LDA/LDX/LDY: the register takes the resolved value, N and Z report it, and nothing else changes |
| Impl.Adc | pkg/hardware/cpu/cpu6502/impl.go:132-171 | ADC adds the resolved operand with `AddWithCarry` |
| Impl.AddWithCarry | pkg/hardware/cpu/cpu6502/impl.go:132-171 | a becomes a + v + C modulo 256; C is set when the sum > 256; V follows the overflow check; N and Z report a; no other flag moves |
| Impl.And | pkg/hardware/cpu/cpu6502/impl.go:172-188 | a becomes a AND value, N and Z report it |
| Impl.Ora | pkg/hardware/cpu/cpu6502/impl.go:560-574 | a becomes value AND a (as the code does it), N and Z report it |
| Impl.Asl | pkg/hardware/cpu/cpu6502/impl.go:189-225 | ASL panics exactly on a memory row shorter than 3 bytes and then changes nothing; otherwise it is `AslAccumulator` for the accumulator mode and `AslMemory` for the others; it never moves s, pc or the jump request |
| Impl.AslAccumulator | pkg/hardware/cpu/cpu6502/impl.go:193-202 | a doubles modulo 256; C is set if it was set or the low three bits of a were all 1; N and Z report a |
| Impl.AslMemory | pkg/hardware/cpu/cpu6502/impl.go:203-222 | the doubled value is written to `get16BitAddressLE`'s address; C as for the accumulator; N, Z report the new value |
| Impl.RolValue | pkg/hardware/cpu/cpu6502/impl.go:621-653 | the value doubles, or-ed with 1 when C was set; C becomes "low three bits all 1" |
| Impl.RorValue | pkg/hardware/cpu/cpu6502/impl.go:654-685 | the value halves, or-ed with 7 when C was set; C becomes bit 0 |
| Impl.Rotate | pkg/hardware/cpu/cpu6502/impl.go:621-685 | ROL/ROR on the accumulator write a; on memory they write the resolved address |
| Impl.Branch | pkg/hardware/cpu/cpu6502/impl.go:226-330 | a failed test changes nothing; a passed test requests the resolved address as next pc; no flag or register changes |
| Impl.CompareFlags | pkg/hardware/cpu/cpu6502/impl.go:351-372 | N is bit 7 of the 8-bit difference, C is set when it is <= 0 as `int8`, Z when the two are equal |
| Impl.Compare | pkg/hardware/cpu/cpu6502/impl.go:351-416 | CMP/CPX/CPY compare the register with the resolved value |
| Impl.Step | pkg/hardware/cpu/cpu6502/impl.go:417-487 | a byte steps by +1 or -1 with 8-bit wrap-around |
| Impl.StepMemory | pkg/hardware/cpu/cpu6502/impl.go:417-467 | INC/DEC write the stepped value to the resolved address; N and Z report it |
| Impl.StepReg | pkg/hardware/cpu/cpu6502/impl.go:431-487 | INX/INY/DEX/DEY step the register; N and Z report it |
| Impl.Jmp | pkg/hardware/cpu/cpu6502/impl.go:488-506 | an operand shorter than three bytes panics and changes nothing; otherwise no error, and the requested target is operand bytes 1-2, or for IND the little-endian word of the reads at that address and the next one (16-bit wrap), with the bus those reads leave |
| Impl.PointerAt | pkg/hardware/cpu/cpu6502/impl.go:493-499 | the JMP (IND) pointer is the word of the byte read at the address and the byte read at the next one, on the bus the first read leaves |
| Impl.Jsr | pkg/hardware/cpu/cpu6502/impl.go:507-519 | pushes pc + Len - 1 after the resolver's read and requests the resolved address |
| Impl.Rts | pkg/hardware/cpu/cpu6502/impl.go:699-708 | pops a word and requests it plus 1; registers and bus are those `Pop16` leaves; nothing else changes |
| Impl.Rti | pkg/hardware/cpu/cpu6502/impl.go:686-698 | pops p, then one byte into pc |
| Impl.Pla | pkg/hardware/cpu/cpu6502/impl.go:595-604 | pops a byte into a |
| Impl.Plp | pkg/hardware/cpu/cpu6502/impl.go:605-614 | pops p with B and reserved cleared |
| Impl.StoreReg | pkg/hardware/cpu/cpu6502/impl.go:724-751 | STA/STX/STY write the register to the resolved address |
| Impl.Flag | pkg/hardware/cpu/cpu6502/impl.go:331-350 | CLC…SEI set or clear exactly one flag |
| Impl.ExecuteValue | pkg/hardware/cpu/cpu6502/impl.go:132-552 | value handlers never move s, pc, the jump request or the cycle state |
| Impl.ExecuteMemory | pkg/hardware/cpu/cpu6502/impl.go:417-751 | memory handlers keep s, pc and the jump request |
| Impl.ExecuteImplied | pkg/hardware/cpu/cpu6502/impl.go:331-559 | implied handlers leave the bus untouched |
| Impl.ExecuteStack | pkg/hardware/cpu/cpu6502/impl.go:575-776 | stack handlers never request a jump or write pc |
| Impl.ExecuteControl | pkg/hardware/cpu/cpu6502/impl.go:226-708 | branch and jump handlers fail only for a JMP row shorter than 3 |
| Impl.Execute | pkg/hardware/cpu/cpu6502/impl.go:129-780 | the handler table: only jumps request a jump, only stack handlers move s, only RTI writes pc; a failed handler changes nothing |
| Impl.ExecuteErrors | pkg/hardware/cpu/cpu6502/impl.go:129-780 | "unimplemented" exactly for BIT, BRA, BRK, EOR, LSR, SBC, STZ, TRB, TSB, the transfers other than TXS and the X/Y pushes and pulls; a panic exactly for a short JMP or memory ASL; no other error |
| Impl.GroupFacts | pkg/hardware/cpu/cpu6502/impl.go:129-780 | the handlers that only fail are exactly the unimplemented ones |
| Impl.BranchTarget | pkg/hardware/cpu/cpu6502/impl.go:226-330 | a REL branch requests pc + Len + offset exactly when its test passes, and changes no register |
| Impl.PeekQuiet | pkg/hardware/bus/sysbus.go:35-43 | with no PPU, an ignored-error read changes nothing |
| Impl.ResolveQuiet | pkg/hardware/cpu/cpu6502/impl.go:89-90 | with no PPU the resolver's value is the byte at its address |
| Impl.LocateQuiet | pkg/hardware/cpu/cpu6502/impl.go:53-86 | with no PPU, IDX and IDY pointers are the bytes read in page zero |
| Impl.JmpIndirectQuiet | pkg/hardware/cpu/cpu6502/impl.go:491-499 | when both pointer reads have no side effect, JMP (IND) leaves the bus as it was and targets the word of the two bytes at the operand address and the next |
| Impl.ZeroPageWraps | pkg/hardware/cpu/cpu6502/impl.go:37-39 | zero page 0xff indexed by x = 1 is address 0 |
| Impl.RelOffsetMinus128 | pkg/hardware/cpu/cpu6502/impl.go:27-33 | offset 0x80 branches forward 128, not back |
| Impl.JsrThenRts | pkg/hardware/cpu/cpu6502/impl.go:507-519 | a JSR followed by an RTS returns to pc + Len and restores s |
| Impl.ReturnAddrNext | pkg/hardware/cpu/cpu6502/impl.go:509 | the pushed return address plus 1 is pc + Len |
| Impl.RtsReturns | pkg/hardware/cpu/cpu6502/impl.go:699-708 | RTS requests the popped word plus 1 |
| Impl.JsrLeavesReturn | pkg/hardware/cpu/cpu6502/impl.go:507-519 | after JSR the word on the stack is pc + Len - 1 |
| Impl.JsrPushes | pkg/hardware/cpu/cpu6502/impl.go:507-519 | the table's JSR handler is `Jsr` |
| Impl.RtsPops | pkg/hardware/cpu/cpu6502/impl.go:699-708 | the table's RTS handler is `Rts` |
| Impl.ControlDispatch | pkg/hardware/cpu/cpu6502/impl.go:226-708 | control mnemonics dispatch to `ExecuteControl` |
| Impl.ValueDispatch | pkg/hardware/cpu/cpu6502/impl.go:129-780 | ADC, AND, ORA, CMP, CPX, CPY, LDA, LDX and LDY run `ExecuteValue`, which picks their handler, and never fail |
| Impl.ShiftDispatch | pkg/hardware/cpu/cpu6502/impl.go:189-225 | ASL runs `Asl` |
| Impl.MemoryDispatch | pkg/hardware/cpu/cpu6502/impl.go:129-780 | DEC, INC, ROL, ROR, STA, STX and STY run `ExecuteMemory`, which picks their handler, and never fail |
| Impl.ImpliedDispatch | pkg/hardware/cpu/cpu6502/impl.go:129-780 | the flag instructions, the register steps and NOP run `ExecuteImplied`, which picks their handler, and never fail |
| Impl.StackDispatch | pkg/hardware/cpu/cpu6502/impl.go:129-780 | PHA, PHP, TXS, PLA and PLP run `ExecuteStack`, which picks their handler, and never fail |
| Impl.AdcCarryAt256 | pkg/hardware/cpu/cpu6502/impl.go:122 | 0xff + 1 gives 0 with Zero set but Carry clear |
| Impl.CompareCarryReversed | pkg/hardware/cpu/cpu6502/impl.go:363 | CMP 5 with 3 clears Carry and 3 with 5 sets it; equal operands set Carry and Zero |
| Cpu.FetchInstrImpl | pkg/hardware/cpu/cpu6502/cpu.go:154-168 | no handler exactly when the id is past the table or its entry carries another id |
| Cpu.HandlerIdFollowsEnumeration | pkg/hardware/cpu/cpu6502/impl.go:129-780 | every mnemonic's id lies inside the 64-entry handler table, and the entry at that position carries that id |
| Cpu.FetchInstrImplTotal | pkg/hardware/cpu/cpu6502/cpu.go:154-168 | `fetchInstrImpl` finds a handler for every mnemonic |
| Cpu.Decode | pkg/hardware/cpu/cpu6502/cpu.go:183-202 | with an instruction in progress nothing happens; otherwise a read or lookup failure is returned, or the instruction starts with count 0 |
| Cpu.Commit | pkg/hardware/cpu/cpu6502/cpu.go:232-241 | pc moves to the requested jump target, or past the instruction; the instruction and request are cleared |
| Cpu.Finish | pkg/hardware/cpu/cpu6502/cpu.go:208-242 | a failure keeps registers and instruction; success clears them; the cycle count stays |
| Cpu.Dispatch | pkg/hardware/cpu/cpu6502/cpu.go:218-240 | the handler part of the last cycle keeps the bus layout and the cycle count; a failure keeps registers, jump request and instruction; a success clears the instruction and the jump request |
| Cpu.Cycle | pkg/hardware/cpu/cpu6502/cpu.go:178-245 | `DoCycle` keeps the CPU's invariant; a failure leaves the registers as they were |
| Cpu.Run | cmd/main.go:78-85 | the cycle loop keeps the CPU's invariant |
| Cpu.CycleKeepsCounting | pkg/hardware/cpu/cpu6502/cpu.go:205-208 | the cycle count never passes the instruction's cycles |
| Cpu.IdleCycle | pkg/hardware/cpu/cpu6502/cpu.go:204-208 | a cycle before the last one only counts |
| Cpu.DecodeCycle | pkg/hardware/cpu/cpu6502/cpu.go:183-205 | a decoded opcode starts its instruction with one cycle counted |
| Cpu.DecodeErrorKeepsState | pkg/hardware/cpu/cpu6502/cpu.go:187-198 | a failed opcode read or unknown opcode changes only what the read changed |
| Cpu.FinalCycle | pkg/hardware/cpu/cpu6502/cpu.go:208 | the cycle that reaches the count runs the instruction |
| Cpu.FinishCommits | pkg/hardware/cpu/cpu6502/cpu.go:210-241 | a successful finish is fetch, handler, then commit |
| Cpu.IdleRun | pkg/hardware/cpu/cpu6502/cpu.go:204-208 | n cycles short of the count only add n |
| Cpu.InstructionTakesItsCycles | pkg/hardware/cpu/cpu6502/cpu.go:178-245 | an instruction decoded at cycle 1 waits its cycles - 2 idle cycles and runs on cycle `Cycles` |
| Cpu.Cpu6502.constructor | pkg/hardware/cpu/cpu6502/cpu.go:255-265 | `New`: zero registers, no instruction, count 0 |
| Cpu.Cpu6502.Initialize | pkg/hardware/cpu/cpu6502/cpu.go:54-76 | the object's new state is `CpuState.Initialize` of the old |
| Cpu.Cpu6502.Reset | pkg/hardware/cpu/cpu6502/cpu.go:78-85 | the object's new state is `CpuState.Reset` of the old |
| Cpu.Cpu6502.SetFlag | pkg/hardware/cpu/cpu6502/cpu.go:101-103 | registers become `CpuState.SetFlag`; nothing else changes |
| Cpu.Cpu6502.ClearFlag | pkg/hardware/cpu/cpu6502/cpu.go:105-107 | registers become `CpuState.ClearFlag`; nothing else changes |
| Cpu.Cpu6502.HasFlag | pkg/hardware/cpu/cpu6502/cpu.go:109-111 | true exactly when all the given bits are set |
| Cpu.Cpu6502.DoPush8 | pkg/hardware/cpu/cpu6502/cpu.go:127-130 | the new state is `CpuState.Push8` |
| Cpu.Cpu6502.DoPop8 | pkg/hardware/cpu/cpu6502/cpu.go:132-135 | value and new state are `CpuState.Pop8` |
| Cpu.Cpu6502.DoPush16 | pkg/hardware/cpu/cpu6502/cpu.go:139-142 | the new state is `CpuState.Push16` |
| Cpu.Cpu6502.DoPop16 | pkg/hardware/cpu/cpu6502/cpu.go:144-152 | value and new state are `CpuState.Pop16` |
| Cpu.Cpu6502.FetchOpperand | pkg/hardware/cpu/cpu6502/cpu.go:87-99 | the loop over the operand array gives `CpuState.FetchFrom` from byte 0 |
| Cpu.Cpu6502.ReadOperandByte | pkg/hardware/cpu/cpu6502/cpu.go:91-95 | one round of the loop matches `FetchFrom` |
| Cpu.Cpu6502.DoCycle | pkg/hardware/cpu/cpu6502/cpu.go:178-245 | error and new state are `Cpu.Cycle` of the old state |
| Cpu.Cpu6502.DecodeAtPc | pkg/hardware/cpu/cpu6502/cpu.go:183-202 | error and new state are `Cpu.Decode` |
| Cpu.Cpu6502.RunInstruction | pkg/hardware/cpu/cpu6502/cpu.go:210-241 | error and new state are `Cpu.Finish` |
| Cpu.Cpu6502.RunHandler | pkg/hardware/cpu/cpu6502/cpu.go:218-240 | error and new state are `Cpu.Dispatch` of the old state and the fetched bytes |
| Ppu.PaletteIndex | pkg/hardware/ppu/ppu.go:215 | the palette index is below 64 |
| Ppu.Initial | pkg/hardware/ppu/ppu.go:91-180 | a fresh PPU: counter 0, nothing drawn or flushed, registers as created |
| Ppu.Render | pkg/hardware/ppu/ppu.go:205-225 | the drawing part of a tick changes only the registers and the trace, adds at most one draw, and never both draws and changes the registers |
| Ppu.Advance | pkg/hardware/ppu/ppu.go:228-234 | the counter step changes only the counter and the flush count; the counter ends below one screen, and a flush happens only when it wraps to 0 |
| Ppu.Tick | pkg/hardware/ppu/ppu.go:200-235 | one round of `Execute`: x and y are the counter's dot and line, the counter ends below one screen, earlier draws are kept and at most one draw and one flush are added |
| Ppu.Run | pkg/hardware/ppu/ppu.go:197-237 | `Execute(ticks)`: a count of 0 or less changes nothing; otherwise the counter ends below one screen and at most one draw per tick is added |
| Ppu.TickClock | pkg/hardware/ppu/ppu.go:228-234 | the counter advances by one modulo 89342, flushing at the wrap |
| Ppu.TickCoordinates | pkg/hardware/ppu/ppu.go:202-203 | x = clock mod 341 in [0, 340], y = clock / 341 in [0, 261] |
| Ppu.TickDraws | pkg/hardware/ppu/ppu.go:205-216 | a dot is drawn exactly on lines below 240 or 261, outside dots 257-320; its palette entry exists |
| Ppu.TickStatus | pkg/hardware/ppu/ppu.go:218-221 | the vertical-blank bit is set at line 241 dot 1, and no other tick changes the registers |
| Ppu.ScreenShift | pkg/hardware/ppu/ppu.go:231-234 | one more screen of dots adds one wrap and no remainder |
| Ppu.RunClock | pkg/hardware/ppu/ppu.go:197-237 | n ticks end at (c + n) mod 89342 with ⌊(c + n) / 89342⌋ more flushes |
| Ppu.FullScreen | pkg/hardware/ppu/ppu.go:197-237 | 89342 ticks from 0 return to 0 with one flush |
| Ppu.RunKeepsDraws | pkg/hardware/ppu/ppu.go:197-237 | ticks only add draws and flushes |
| Ppu.PictureUnit.constructor | pkg/hardware/ppu/ppu.go:91-180 | the object's state is `Ppu.Initial` |
| Ppu.PictureUnit.SetStatusBits | pkg/hardware/ppu/ppu.go:247-249 | registers become `PpuRegisters.SetStatusBits` |
| Ppu.PictureUnit.ClearStatusBits | pkg/hardware/ppu/ppu.go:243-245 | registers become `PpuRegisters.ClearStatusBits` |
| Ppu.PictureUnit.Execute | pkg/hardware/ppu/ppu.go:197-237 | the loop ends in `Ppu.Run` of the old state and reports success |
| Ppu.PictureUnit.DoTick | pkg/hardware/ppu/ppu.go:200-235 | one round is `Ppu.Tick` |
| Ppu.PictureUnit.Read | pkg/hardware/ppu/ppu.go:254-280 | error, buffer and registers are those of `PpuRegisters.Read` |
| Ppu.PictureUnit.Write | pkg/hardware/ppu/ppu.go:285-288 | a write succeeds |
| Cartridge.HeaderSizes | pkg/hardware/memory/cartridge/cardridge.go:21-41 | PRG is 16 KiB × byte 4 (0 means one bank), CHR is 8 KiB × byte 5, and the flags are bytes 6 and 7 |
| Cartridge.MapperNumber | pkg/hardware/memory/cartridge/cardridge.go:72 | high nibble from flags 7, low nibble from the high nibble of flags 6 |
| Cartridge.PrgOffset | pkg/hardware/memory/cartridge/cardridge.go:76-80 | PRG starts at 16, or at 528 exactly when flags 6 has both low bits set |
| Cartridge.ReadHeader | pkg/hardware/memory/cartridge/cardridge.go:60-64 | fails exactly on an empty file; otherwise 16 bytes, the file's then zeros |
| Cartridge.ReadAt | pkg/hardware/memory/cartridge/cardridge.go:86-99 | fails exactly when a non-empty range runs past the end; otherwise the bytes at the offset |
| Cartridge.PrgRom | pkg/hardware/memory/cartridge/cardridge.go:105-108 | the PRG ROM starts at 0x8000, holds the PRG payload, and for up to 32 KiB ends at 0x8000 + size - 1 |
| Cartridge.ChrRom | pkg/hardware/memory/cartridge/cardridge.go:109 | the CHR ROM starts at 0 and holds the CHR payload; it ends at size - 1, and at 0xffff when there is no CHR (16-bit wrap of 0 - 1) |
| Cartridge.PrgRomSound | pkg/hardware/memory/cartridge/cardridge.go:105-108 | a PRG ROM of one or two full 16 KiB banks has data covering its window |
| Cartridge.EmptyChrPanics | pkg/hardware/memory/cartridge/cardridge.go:109 | without CHR data the CHR ROM's window [0, 0xffff] holds no bytes, so every read of it panics (rom.go's index past its data) |
| Cartridge.Mapper0 | pkg/hardware/memory/cartridge/cardridge.go:100-125 | mapper 0 puts the CHR ROM alone on the PPU bus; on the CPU bus the PRG ROM comes last, preceded for 16 KiB only by a mirror [0xc000, 0] whose backing is the slot the ROM lands in |
| Cartridge.Load | pkg/hardware/memory/cartridge/cardridge.go:43-132 | an empty file fails to read; every failure is one of the five loader errors; a success needs a file of at least 16 + 16384 bytes starting with "NES", and yields one CHR component and one or two PRG components |
| Cartridge.BadSignatureRejected | pkg/hardware/memory/cartridge/cardridge.go:66-68 | a file not starting with "NES" is rejected |
| Cartridge.OtherMapperRejected | pkg/hardware/memory/cartridge/cardridge.go:101-128 | once the reads succeed, loading succeeds exactly for mapper 0 |
| Cartridge.LoadedPayloads | pkg/hardware/memory/cartridge/cardridge.go:83-125 | a loaded cartridge is mapper 0, its PRG ROM holds the file's PRG bytes and its CHR ROM the CHR bytes |
| Cartridge.Mapper0Windows | pkg/hardware/memory/cartridge/cardridge.go:102-125 | 32 KiB PRG covers [0x8000, 0xffff]; 16 KiB covers [0x8000, 0xbfff] behind a mirror [0xc000, 0]; CHR sits at 0 |
| Cartridge.SmallPrgMirrorUnused | pkg/hardware/memory/cartridge/cardridge.go:113-117 | the 16 KiB mirror is wired to the PRG ROM but never selected |
| Cartridge.OneBankImage | pkg/hardware/memory/cartridge/cardridge.go:43-132 | a one-bank NROM image loads to its exact layout |
| Cartridge.LoadCardridge | pkg/hardware/memory/cartridge/cardridge.go:43-132 | on failure neither bus changes; on success the PRG components go to the CPU bus and the CHR ROM to the PPU bus |
| Console.PpuMirror | cmd/main.go:63-65 | every mirror ends by 0x3fff |
| Console.Wiring | cmd/main.go:55-65 | the console bus has 1025 components: the RAM, then the PPU register window, then mirror i at position i + 2 |
| Console.MainBus | cmd/main.go:55-65 | the entry point's bus: a zeroed 2 KiB RAM over [0, 0x800] first, a fresh PPU register window second, then the 1023 mirrors in order |
| Console.MirrorOf | cmd/main.go:63-65 | an address of 0x2008-0x3fff lies in its mirror at offset (addr - 0x2000) mod 8 |
| Console.MainBusShaped | cmd/main.go:55-65 | the entry point's bus is well formed and has the console's shape |
| Console.ShapeKept | cmd/main.go:55-65 | accesses keep that shape |
| Console.ShapedSound | cmd/main.go:55-65 | the console's bus is sound, so none of its reads and writes can panic |
| Console.Owners | cmd/main.go:55-65 | RAM owns up to 0x800, nothing 0x801-0x1fff or above 0x3fff, the PPU 0x2000-0x2007, mirror MirrorOf above |
| Console.ConsoleStack | cmd/main.go:55 | the stack page is in the console's RAM |
| Console.PpuWindowRepeats | cmd/main.go:58-65 | each of 0x2000-0x3fff reaches PPU register (addr - 0x2000) mod 8 |
| Console.LastStatusCopy | cmd/main.go:63-65 | reading 0x3ffa acts like reading 0x2002 |
| Console.RamReads | cmd/main.go:55 | a RAM read returns the cell at addr mod 2048 |

## Left out

- Video output (`pkg/video`), SDL, fonts and debug logging are not modelled. The PPU's calls into the video backend are an event trace instead: `Draw` records and a flush count.
- Opening the ROM file is not modelled, and neither is its `os.Open` error. The file is a byte sequence.
- `Cartridge.ReadHeader`: assumes `f.Read` reads `min(16, |file|)` bytes and fails only on an empty file.
- `RaiseNmi`, `PostFrame` and the PPU's `ppuRead`/`ppuWrite` are empty or unfinished in the source, and are not modelled.
- The CPU:PPU cycle ratio and the `Pb_cross_cycles` page-cross penalty are not modelled: the source never uses them.
- `doJump` and `doRelativeJump` are not modelled because nothing calls them.
- The RGBA values of the palette are not modelled. Only its length, 65, is kept.
- A Go mirror holds a pointer to its backing component, so it can never dangle. The model names the backing by its position on the bus instead. The `DanglingMirror` error of `Bus.Delegate` and `Bus.DelegateWrite` exists only in the model and covers a position that is not a device.
- Hardware aliasing is not modelled. Handlers transform values; the RAM lives inside the bus as a value; the `Ppu.PictureUnit` object and the PPU registers on the bus are separate copies.
- `cmd/main.go` calls `LoadCardridge` with one bus, while the loader takes two. The model follows the loader.
- The handlers in `impl.go` write a `next_pc` field that the CPU struct in `cpu.go` does not declare, so the code as given does not compile. The model gives the machine its own `nextPc` field and makes `Cpu.Commit` jump there instead of to pc + Len; this resolution is the model's, not the code's.
- CpuState.Peek, CpuState.Poke: a Go access that panics (a modulo by a RAM size of 0, a ROM index past its data) aborts the program even when the caller ignores the returned error. The model instead treats it as a failed access that keeps the destination and the bus, and the emulation goes on. `Bus.LoadNeverPanics` and `Bus.StoreNeverPanics` prove that no access on a `Bus.Sound` bus can panic, and `Console.ShapedSound` proves the console's bus sound, so the departure never shows there. Soundness is not part of `Bus.Valid`, because a cartridge without CHR data has a ROM that panics on every read (`Cartridge.EmptyChrPanics`).

## Where the code departs from the 6502

Each of these is modelled as the code does it:

- ADC sets Carry only when the sum exceeds 256 (`Impl.AdcCarryAt256`).
- ORA computes `a & value`.
- BVS tests Negative.
- ASL and ROL set Carry when the low three bits are all 1. ASL on the accumulator never clears Carry.
- ROR ORs in 7 instead of bit 7.
- CMP sets Carry when the difference is <= 0 (`Impl.CompareCarryReversed`).
- TXS pushes X instead of setting s.
- RTI pops a single byte into pc, and pc still advances by Len afterwards.
- Offset -128 branches forward 128 (`Impl.RelOffsetMinus128`).
- JMP (IND) reads the target's high byte from the next address with 16-bit wrap-around, where the 6502 stays inside the page (`Impl.Jmp`).
- The 16 KiB mirror window [0xc000, 0] is empty (`Cartridge.SmallPrgMirrorUnused`).
- RAM [0, 0x800] leaves 0x801-0x1fff unmapped.
- `n_cycles` is a Go `byte` and wraps.
