# A verified model of the Dancy Game Boy engine

Dancy emulates the original monochrome Game Boy (DMG). Its engine is written in Rust and exists in two trees.

- **src/** is the complete engine. It has:
  - the Sharp SM83 CPU, with its instruction executor and register file;
  - the memory bus and address map;
  - a pixel-FIFO picture processing unit (PPU) with its background fetcher;
  - the DIV/TIMA timer, the serial port and the joypad register;
  - the cartridge with its MBC1 bank controller.
- **rust/** is a newer bus and PPU that are still being written. It adds OAM DMA and Game Boy Color register handling to the bus. Its PPU, fetcher and register file are stubs.

This project models both trees in Dafny and proves properties of the model. The modules are:

- **Bits**: bytes and words as bounded integers, bit operations and wrapping arithmetic.
- **Registers** and **RustRegisters**: the two register files.
- **Instructions**: operand descriptors and branch conditions.
- **Decoder**: the opcode table.
- **Alu**: what each instruction computes.
- **BusView**: the CPU's view of the bus.
- **Cpu**: interrupts, HALT, EI/DI and every executor.
- **Cartridge**, **FlatCartridge**, **Mbc0** and **Mbc1**: the cartridges.
- **Timer**, **Serial** and **Joypad**: the IO devices.
- **PixelFifo**, **Ppu**, **RustPpu** and **RustFetcher**: the picture pipeline.
- **Mmu** and **RustMmu**: the two buses.

Objects whose fields the source updates in place are classes. Each class's methods are proved against value-level functions of its state.

Integer widths are explicit:

- `u8` and `u16` values are bounded integers.
- The source's wrapping operations are written out.
- A plain `+` that would overflow is modelled as an error, with two exceptions: the PPU dot counters are unbounded naturals, and the serial shift counter wraps (`Serial.StepSerial`). Both are listed under Left out.

A panic of the source becomes `None`, or an `ok` result of `false`, wherever a ROM can reach it. This covers the timer's `unreachable!()` clock select and the fetcher's tile-row overflow. After a panic the model's state is left unspecified: contracts speak of the new state only when `ok` holds. A precondition stands for an `unreachable!()` arm only where the caller's own routing excludes it, such as the timer's address match behind the bus's FF04-FF07 decode.

Where the source has a bug (see Findings), the running model executes the code as written. The corrected definition stands beside it, with the intended property proved. The one exception is the executor's two-argument `write_u16` calls, which do not compile as written; the model gives them the order each evidently means.

## Model

| member | source | states |
|---|---|---|
| Registers.FlagsToByte | src/cpu/registers.rs:16-23 | packing puts Z, N, H, C in bits 7, 6, 5, 4 and leaves the low nibble zero |
| Registers.ByteToFlags | src/cpu/registers.rs:24-33 | unpacking reads bits 7-4 only: packing the flags again gives the byte with its low nibble cleared |
| Registers.UnpackPack | src/cpu/registers.rs:16-33 | unpacking a packed flag register gives back the same four flags |
| Registers.PackAf | src/cpu/registers.rs:55-58 | `get_af` has A as its high byte and a zero low nibble |
| Registers.AfRoundTrip | src/cpu/registers.rs:55-63 | `set_af` then `get_af` gives back the word with its low nibble cleared |
| Registers.Registers.constructor | src/cpu/registers.rs:51-53 | `new` zeroes every register and flag |
| Registers.Registers.SetAf | src/cpu/registers.rs:60-63 | A becomes the high byte, F the flags of bits 7-4 of the low byte, and `get_af` reads back the word masked with 0xFFF0 |
| Registers.Registers.SetBc | src/cpu/registers.rs:65-72 | B and C become the high and low bytes and `get_bc` reads the word back |
| Registers.Registers.GetBc | src/cpu/registers.rs:65-67 | `get_bc` has B as its high byte and C as its low byte |
| Registers.Registers.SetDe | src/cpu/registers.rs:74-81 | D and E become the high and low bytes and `get_de` reads the word back |
| Registers.Registers.GetDe | src/cpu/registers.rs:74-76 | `get_de` has D as its high byte and E as its low byte |
| Registers.Registers.SetHl | src/cpu/registers.rs:83-90 | H and L become the high and low bytes and `get_hl` reads the word back |
| Registers.Registers.GetHl | src/cpu/registers.rs:83-85 | `get_hl` has H as its high byte and L as its low byte |
| RustRegisters.FromLeBytes | rust/src/cpu/registers.rs:74-76 | `u16::from_le_bytes([lo, hi])` has lo as its low byte and hi as its high byte |
| RustRegisters.ToLeBytes | rust/src/cpu/registers.rs:74-82 | `to_le_bytes` is undone by `from_le_bytes` |
| RustRegisters.BootFlags | rust/src/cpu/registers.rs:50-53 | the boot F value 0xB0 unpacks to Z, H and C set and N clear |
| RustRegisters.Registers.constructor | rust/src/cpu/registers.rs:50-61 | `new` loads the post-boot values A=01, F=B0, BC=0013, DE=00D8, HL=014D |
| RustRegisters.Registers.GetAf | rust/src/cpu/registers.rs:63-66 | `get_af` has A as its high byte and a zero low nibble |
| RustRegisters.Registers.SetAf | rust/src/cpu/registers.rs:68-72 | A becomes the high byte, F the flags of the low byte, and `get_af` reads back the word masked with 0xFFF0 |
| RustRegisters.Registers.SetBc | rust/src/cpu/registers.rs:74-82 | B and C become the high and low bytes and `get_bc` reads the word back |
| RustRegisters.Registers.GetBc | rust/src/cpu/registers.rs:74-76 | `get_bc` has B as its high byte and C as its low byte |
| RustRegisters.Registers.SetDe | rust/src/cpu/registers.rs:84-92 | D and E become the high and low bytes and `get_de` reads the word back |
| RustRegisters.Registers.GetDe | rust/src/cpu/registers.rs:84-86 | `get_de` has D as its high byte and E as its low byte |
| RustRegisters.Registers.SetHl | rust/src/cpu/registers.rs:94-102 | H and L become the high and low bytes and `get_hl` reads the word back |
| RustRegisters.Registers.GetHl | rust/src/cpu/registers.rs:94-96 | `get_hl` has H as its high byte and L as its low byte |
| Instructions.LocationSource | src/cpu/instructions.rs:75-88 | each location converts to the source of the same name |
| Instructions.LocationDest | src/cpu/instructions.rs:90-103 | each location converts to the destination of the same name |
| Instructions.WordLocationSource | src/cpu/instructions.rs:112-121 | each register pair converts to the word source of the same name |
| Instructions.WordLocationDest | src/cpu/instructions.rs:123-132 | each register pair converts to the word destination of the same name |
| Instructions.ConversionsInjective | src/cpu/instructions.rs:75-132 | no two locations convert to the same operand |
| Instructions.LocationSourceAndDestAgree | src/cpu/instructions.rs:75-103 | a location's destination and source name the same register or (HL) |
| Instructions.SourceOfDest | src/cpu/instructions.rs:3-40 | the source that reads what a destination writes is never an immediate |
| Instructions.OnlyImmediatesLackADest | src/cpu/instructions.rs:3-40 | a byte source is an immediate exactly when no destination writes it |
| FlatCartridge.Cartridge.constructor | src/cartridge.rs:7-12 | the ROM image is kept and the 8 KiB external RAM starts zeroed |
| FlatCartridge.Cartridge.Read | src/cartridge.rs:13-19 | a ROM address reads the image at the address itself (absent past its end, where the source panics); a RAM address reads external RAM at `addr - 0xA000` |
| FlatCartridge.Cartridge.Write | src/cartridge.rs:20-26 | a write fails only on a ROM index past the image; a successful write reads back and every other address reads as before |
| Mbc0.ReadRom | rust/src/cartridge/mbc/mbc0.rs:12-14 | `read_rom` is the image byte at the address, absent past its end |
| Mbc0.WriteRom | rust/src/cartridge/mbc/mbc0.rs:15-17 | a ROM write has no register to reach: every ROM read is as before |
| Mbc0.ReadRam | rust/src/cartridge/mbc/mbc0.rs:18-20 | there is no RAM: every RAM read gives 0xFF |
| Mbc0.WriteRam | rust/src/cartridge/mbc/mbc0.rs:21-23 | a RAM write has nowhere to go: every ROM read is as before |
| Mbc0.WritesChangeNothing | rust/src/cartridge/mbc/mbc0.rs:15-23 | after any sequence of ROM and RAM writes, ROM reads are unchanged and RAM reads 0xFF |
| Cartridge.SelectMbc | src/cartridge/mod.rs:9-20 | header type 0x00 picks MBC0, 0x01 and 0x02 a plain MBC1, 0x03 a battery MBC1, every other type fails |
| Cartridge.Cartridge.Flat | src/cartridge/mod.rs:12 | the MBC0 cartridge holds the image |
| Cartridge.Cartridge.Banked | src/cartridge/mod.rs:13-15 | the MBC1 cartridge holds the controller built for the image |
| Cartridge.Cartridge.Read | src/cartridge/mod.rs:21-27 | ROM addresses go to the controller's `read_rom`, RAM addresses to its `read_ram` |
| Cartridge.Cartridge.Write | src/cartridge/mod.rs:28-34 | ROM addresses update the MBC1 registers as `write_rom` does and leave RAM alone; RAM addresses store at the banked RAM index, if any, and leave the registers alone; MBC0 is unchanged |
| Cartridge.CartRead | src/cartridge/mod.rs:21-27 | a RAM address always reads a byte; without a controller ROM addresses read the image (absent past its end) and RAM addresses 0xFF |
| Cartridge.CartWrite | src/cartridge/mod.rs:28-34 | a write changes only MBC1's registers (from a ROM address, as `write_rom` says) or its RAM (from a RAM address); without a controller it changes nothing |
| Cartridge.CartWriteThenRead | src/cartridge/mod.rs:21-34 | a RAM write that MBC1 maps reads back and leaves every ROM read as it was; without a controller no write changes any read |
| Cartridge.Cartridge.State | src/cartridge/mod.rs:4-6 | a valid cartridge is a well-formed cartridge value |
| Cartridge.New | src/cartridge/mod.rs:9-20 | `new` succeeds exactly for an image that reaches byte 0x147, names a supported controller and, for MBC1, has a header that decodes; the controller starts from its initial registers |
| Mbc1.RomBankCount | src/cartridge/mbc/mbc1.rs:17 | the ROM bank count is 2^(code+1), at least 2; codes whose `+ 1` or shift overflows fail |
| Mbc1.RamBankCount | src/cartridge/mbc/mbc1.rs:18-25 | RAM size codes 0, 2, 3, 4, 5 give 0, 1, 4, 16, 8 banks; any other code fails |
| Mbc1.Geometry | src/cartridge/mbc/mbc1.rs:16-25 | the header decodes exactly when the image reaches 0x149 and both counts decode, and then gives both counts |
| Mbc1.RomBank | src/cartridge/mbc/mbc1.rs:41-57 | the bank read is below the bank count; 0000-3FFF shows bank 0 in the simple mode and `(reg2 << 5) mod banks` in the advanced mode; 4000-7FFF shows `(reg2 << 5)` OR `reg1` modulo the bank count, which is reg2 * 32 + reg1 |
| Mbc1.RomIndex | src/cartridge/mbc/mbc1.rs:41-57 | the image index is the bank times 0x4000 plus the offset within the 16 KiB window, and stays below the banked size |
| Mbc1.WriteRegs | src/cartridge/mbc/mbc1.rs:59-69 | each of the four write ranges changes only its own register (RAM enable from the low nibble 0xA, bank 1 from bits 4-0 with 0 read as 1, bank 2 from bits 1-0, the mode from bit 0) and keeps the registers in range |
| Mbc1.RamIndex | src/cartridge/mbc/mbc1.rs:71-95 | there is a RAM index exactly when RAM is enabled and present; it lies within the RAM at the window offset, and in bank 0 in the simple mode |
| Mbc1.SelectRomBank | src/cartridge/mbc/mbc1.rs:52-64 | in the simple mode, writing a bank number to 2000-3FFF makes 4000-7FFF show it (0 as 1) modulo the bank count while 0000-3FFF stays on bank 0 |
| Mbc1.AdvancedModeBanks | src/cartridge/mbc/mbc1.rs:44-77 | in the advanced mode the 2-bit register picks the RAM bank and the upper ROM bank bits of 0000-3FFF |
| Mbc1.Mbc1.constructor | src/cartridge/mbc/mbc1.rs:16-37 | `new` keeps the image, sets both counts from the header, zeroes the RAM and starts with RAM disabled, bank 1, bank 2 zero, simple mode |
| Mbc1.Mbc1.ReadRom | src/cartridge/mbc/mbc1.rs:41-57 | `read_rom` is the image byte at the banked index, absent where the index passes the image |
| Mbc1.Mbc1.WriteRom | src/cartridge/mbc/mbc1.rs:59-69 | `write_rom` updates the registers as WriteRegs says |
| Mbc1.Mbc1.ReadRam | src/cartridge/mbc/mbc1.rs:71-82 | `read_ram` is the RAM byte at the banked index, or 0xFF while RAM is disabled or absent |
| Mbc1.Mbc1.WriteRam | src/cartridge/mbc/mbc1.rs:84-95 | `write_ram` stores at the banked index only, drops the write while RAM is disabled or absent, and the address then reads back the value |
| Joypad.LowNibble | src/io/joypad.rs:18-26 | bit i of the low nibble is set (released) unless a selected group holds button i |
| Joypad.NibbleOfPressed | src/io/joypad.rs:21-25 | the action nibble carries bits 3-0 of the button byte and the d-pad nibble bits 7-4 |
| Joypad.NibbleBits | src/io/joypad.rs:28-32 | OR-ing the high part onto the low nibble keeps the nibble's bits |
| Joypad.P1 | src/io/joypad.rs:17-34 | a read has bits 7-6 set, bits 5-4 echo the two select lines, and bits 3-0 show each button as released unless a selected group holds it |
| Joypad.NothingSelected | src/io/joypad.rs:17-34 | with neither group selected P1 reads 0xFF |
| Joypad.NothingPressed | src/io/joypad.rs:17-34 | with no button held the low nibble reads 0xF whatever is selected |
| Joypad.BothSelected | src/io/joypad.rs:19-26 | with both groups selected the low nibble is the AND of the two button nibbles |
| Joypad.Joypad.constructor | src/io/joypad.rs:7-13 | `new` holds no button, selects neither group, and reads 0xFF |
| Joypad.Joypad.SetButtons | src/io/joypad.rs:14-16 | only the button byte changes, to the new one |
| Joypad.Joypad.Read | src/io/joypad.rs:17-34 | `read` is P1 of the current state |
| Joypad.Joypad.Write | src/io/joypad.rs:35-38 | `write` keeps bits 5 and 4 as the select lines, and a later read echoes them |
| Serial.ShiftIn | src/io/serial.rs:56-58 | one shift drops bit 7, moves the rest up and feeds a 1 into bit 0 |
| Serial.ReadSerial | src/io/serial.rs:23-29 | SB reads as stored; SC reads bits 7 and 0 as stored and bits 6-1 as 1 |
| Serial.WriteSerial | src/io/serial.rs:30-45 | an SB write stores the byte; an SC write with bits 7 and 0 set also latches SB and restarts the 512-cycle countdown and the bit count; any other SC write only stores the byte |
| Serial.StepSerial | src/io/serial.rs:47-80 | an idle port does nothing; otherwise the countdown drops by t, saturating at 0; at 0 one bit is shifted, and the interrupt is reported exactly when that was the eighth bit, which also clears SC bit 7; an earlier bit restarts the countdown |
| Serial.ShiftInKeepsOnes | src/io/serial.rs:58 | a shift keeps a run of ones at the bottom of SB and lengthens it by one |
| Serial.EightShiftsGiveFF | src/io/serial.rs:56-59 | with nothing connected, eight shifts leave SB = 0xFF whatever it held |
| Serial.InFlight | src/io/serial.rs:52-77 | in a started transfer stepped at least 512 cycles at a time, each of the first seven steps shifts one bit and none reports the interrupt |
| Serial.TransferCompletes | src/io/serial.rs:35-77 | after starting a transfer, the eighth step of at least 512 cycles reports the interrupt with SB = 0xFF, SC bit 7 clear and the sent byte latched |
| Serial.Countdown | src/io/serial.rs:52-58 | with 4-cycle steps a countdown of 4j cycles passes j - 1 quiet steps before the j-th shifts |
| Serial.AfterFirst | src/io/serial.rs:47-80 | n + 1 steps are one step followed by n |
| Serial.WriteThenRead | src/io/serial.rs:23-45 | SB reads back what was written, SC its bits 7 and 0 |
| Serial.Serial.constructor | src/io/serial.rs:12-21 | `new` starts with every register zero |
| Serial.Serial.Read | src/io/serial.rs:23-29 | `read` is ReadSerial of the current state |
| Serial.Serial.Write | src/io/serial.rs:30-45 | `write` moves the state as WriteSerial says |
| Serial.Serial.Step | src/io/serial.rs:47-80 | `step` moves the state and reports the interrupt as StepSerial says |
| Timer.TacBitIndexAsWritten | src/io/timer.rs:58-66 | the clock-select match as written accepts only 0x00, 0x01, 0x10 and 0x11, so `tac & 3` of 2 or 3 reaches `unreachable!()` |
| Timer.TacBitIndex | src/io/timer.rs:58-66 | the corrected select: the watched counter bit falls every 1024, 16, 64 and 256 cycles for clock selects 0 to 3 |
| Timer.Signal | src/io/timer.rs:56-69 | with the binary clock select, the signal is high exactly while the timer is on and the counter is in the second half of a period of 1024, 16, 64 or 256 cycles |
| Timer.Falls | src/io/timer.rs:46-49 | TIMA ticks only on a change of the signal, and exactly on a change from high |
| Timer.SignalAsWritten | src/io/timer.rs:56-69 | the signal panics (`None`) exactly for clock selects 2 and 3, enabled or not; otherwise it is the selected bit AND the enable bit, so a disabled timer's signal is low |
| Timer.IncTima | src/io/timer.rs:71-79 | TIMA goes up by one modulo 256; only an overflow schedules the reload 4 cycles ahead, and nothing else changes |
| Timer.TickIfFell | src/io/timer.rs:42-49 | a change that moves the counter or TAC panics exactly when the old or new select is 2 or 3, and otherwise ticks TIMA exactly when the signal fell |
| Timer.Reload | src/io/timer.rs:32-40 | with no reload pending nothing changes; a reload due within the step loads TMA and requests the interrupt; otherwise the countdown shrinks by the step |
| Timer.StepTimer | src/io/timer.rs:31-54 | `step` panics exactly for clock selects 2 and 3; otherwise the counter advances by the step modulo 2^16, TIMA is ticked (IncTima) exactly when the signal falls, TMA and TAC stay, and the interrupt is reported exactly when a request was pending or a reload fell due |
| Timer.ReadTimer | src/io/timer.rs:81-89 | DIV reads the counter's high byte; TAC reads with bits 7-3 set and its low three bits as stored |
| Timer.WriteTimer | src/io/timer.rs:90-116 | a DIV write panics on select 2 or 3, a TAC write when the old or new select is 2 or 3; otherwise a DIV write zeroes the counter, a TAC write stores it and keeps the counter; a TIMA write stores it and cancels a pending reload; a TMA write stores it |
| Timer.FallsOncePerPeriod | src/io/timer.rs:42-69 | with a step of at most half a period, the enabled signal falls exactly when the counter passes a multiple of the period; as written the signal exists exactly for selects 0 and 1, where the same holds |
| Timer.StepTicksOncePerPeriod | src/io/timer.rs:31-54 | an enabled `step` on select 0 or 1, no longer than half a period, ticks TIMA exactly when the counter passes a multiple of the period; on select 2 or 3 it panics |
| Timer.DisabledNeverFalls | src/io/timer.rs:56-69 | with TAC bit 2 clear the signal never falls; as written it reads low on selects 0 and 1 and panics on 2 and 3 |
| Timer.DivWriteTicksOnSetBit | src/io/timer.rs:92-99 | a DIV write panics on select 2 or 3, and otherwise ticks TIMA exactly when the signal was high |
| Timer.DisablingTicks | src/io/timer.rs:106-113 | a TAC write that disables the timer panics if the old or new select is 2 or 3, and otherwise ticks TIMA exactly when the signal was high |
| Timer.OverflowDelaysReload | src/io/timer.rs:71-79 | a `step` whose falling edge overflows TIMA panics on select 2 or 3; otherwise TIMA reads 0, the interrupt is not reported yet and the reload is 4 cycles away |
| Timer.ReloadAfterFourCycles | src/io/timer.rs:32-40 | 4 cycles after an overflow the step panics on select 2 or 3; otherwise the interrupt is reported and TIMA is TMA, or TMA + 1 (wrapping) when the same step ticks it; a TIMA write in between cancels the report |
| Timer.WriteThenRead | src/io/timer.rs:81-116 | DIV reads 0 after a write, which succeeds exactly on select 0 or 1; TIMA and TMA read back what was written; a TAC write succeeds exactly when both selects are 0 or 1 and reads back its low three bits |
| Timer.HexTacArms | src/io/timer.rs:58-66 | the as-written selection is defined exactly for clock selects 0 and 1, agrees with the binary reading there, and fails for 2 and 3 where the binary reading picks bits 5 and 7 |
| Timer.Timer.constructor | src/io/timer.rs:11-22 | `new` starts with every field zero and no request |
| Timer.Timer.GetTimerSignal | src/io/timer.rs:56-69 | the signal is SignalAsWritten of the fields: it panics exactly for clock selects 2 and 3 |
| Timer.Timer.IncTimerCounter | src/io/timer.rs:71-79 | `inc_timer_counter` moves the state as IncTima says |
| Timer.Timer.Step | src/io/timer.rs:31-54 | `step` fails exactly for clock selects 2 and 3; otherwise it moves the state and reports the interrupt as StepTimer says |
| Timer.Timer.Read | src/io/timer.rs:81-89 | `read` is ReadTimer of the current state |
| Timer.Timer.Write | src/io/timer.rs:90-116 | `write` fails exactly where WriteTimer panics, and otherwise moves the state as WriteTimer says |
| PixelFifo.Pushed | src/io/ppu/pixel.rs:35-44 | a push succeeds exactly when fewer than 16 pixels are held, and then appends the pixel; a refused push changes nothing |
| PixelFifo.Popped | src/io/ppu/pixel.rs:45-54 | a pop yields nothing exactly when the queue is empty, and otherwise the oldest pixel, the rest staying in order |
| PixelFifo.PushAll | src/io/ppu/pixel.rs:35-44 | successive pushes never hold more than 16 pixels |
| PixelFifo.PushAllAppends | src/io/ppu/pixel.rs:35-44 | while there is room, pushing pixels one by one appends them in order |
| PixelFifo.PopNTakesOldest | src/io/ppu/pixel.rs:45-54 | popping n pixels yields the n oldest in order and leaves the rest |
| PixelFifo.FirstInFirstOut | src/io/ppu/pixel.rs:35-54 | up to 16 pixels pushed into an empty queue pop out in the order they went in, leaving it empty |
| PixelFifo.FullAndEmptyUnchanged | src/io/ppu/pixel.rs:36-47 | a full queue refuses a push and an empty one yields nothing, neither changing what is held |
| PixelFifo.PixelQueue.constructor | src/io/ppu/pixel.rs:27-34 | `new` is an empty ring over a fresh 16-slot array |
| PixelFifo.PixelQueue.Push | src/io/ppu/pixel.rs:35-44 | the ring's contents and the result move as Pushed says, keeping head, tail and length consistent |
| PixelFifo.PixelQueue.Pop | src/io/ppu/pixel.rs:45-54 | the ring's contents and the result move as Popped says, keeping head, tail and length consistent |
| PixelFifo.PixelQueue.Len | src/io/ppu/pixel.rs:55-57 | `len` is the number of pixels held, at most 16 |
| PixelFifo.PixelQueue.Clear | src/io/ppu/pixel.rs:58-62 | `clear` empties the queue |
| RustFetcher.NewFifo | rust/src/io/ppu/fetcher.rs:21-27 | the FIFO starts as sixteen pixels of colour 0 on OBP1 |
| RustFetcher.NextCycles | rust/src/io/ppu/fetcher.rs:58-74 | the state order is a cycle of length five through every state |
| RustFetcher.FetcherStep | rust/src/io/ppu/fetcher.rs:51-75 | below two ticks a state other than Push only counts the tick; otherwise the tick resets and the next state follows |
| RustFetcher.Steps | rust/src/io/ppu/fetcher.rs:51-75 | between steps the tick count stays 0 or 1 |
| RustFetcher.StepsAdd | rust/src/io/ppu/fetcher.rs:51-75 | a + b steps are a steps followed by b |
| RustFetcher.StateLength | rust/src/io/ppu/fetcher.rs:51-75 | every state but Push lasts two steps and Push one |
| RustFetcher.CycleTakesNineSteps | rust/src/io/ppu/fetcher.rs:43-75 | a fetch cycle from the state `new` leaves takes exactly nine steps back to it |
| RustFetcher.Fetcher.constructor | rust/src/io/ppu/fetcher.rs:43-49 | `new` starts in GetTileID with tick 0 and the initial FIFO |
| RustFetcher.Fetcher.Step | rust/src/io/ppu/fetcher.rs:51-75 | `step` moves the state as FetcherStep says |
| Ppu.ModeBits | src/io/ppu.rs:194-199 | the mode number STAT reports is below 4 (HBlank 0, VBlank 1, OAM scan 2, drawing 3) |
| Ppu.StatCompare | src/io/ppu.rs:273-277 | STAT bit 2 is set exactly when LY equals LYC; every other bit is kept |
| Ppu.StatWrite | src/io/ppu.rs:406 | a STAT write keeps the stored bits 2-0 and takes bits 7-3 from the value |
| Ppu.ReadStatAsWritten | src/io/ppu.rs:389 | the STAT read as written sets bit 7, passes bits 6-2 through, and ORs the stored bits 1-0 with the mode |
| Ppu.ReadStat | src/io/ppu.rs:389 | the corrected STAT read: bit 7 set, bits 6-2 as stored, bits 1-0 exactly the current mode |
| Ppu.StatModeBitsStuck | src/io/ppu.rs:240 | from the power-on STAT 0x85, compare updates and writes keep bits 1-0 at 1, so the as-written read shows HBlank as VBlank and OAM scan as drawing; the corrected read reports 0 and 2 |
| Ppu.Shade | src/io/ppu.rs:367 | the shade a palette gives colour c is made of its bits 2c+1 (high) and 2c (low), a number below 4 |
| Ppu.ResolvePixelColor | src/io/ppu.rs:359-369 | the ARGB value is the palette entry for the shade that BGP, OBP0 or OBP1 (by the pixel's palette number) gives its colour |
| Ppu.BootPalette | src/io/ppu.rs:1-6 | with the power-on BGP 0xFC, colour 0 is white and colours 1-3 are black |
| Ppu.BgMapAddress | src/io/ppu.rs:154-159 | the map entry index is 0x1C00 or 0x1800 (LCDC bit 6 for the window, bit 3 for the background) plus 32 map_y + map_x, inside the two tile maps |
| Ppu.TileDataAddress | src/io/ppu.rs:168-175 | with LCDC bit 4 set the row is at 16 tile + 2 row, otherwise at 0x1000 + 16 (signed tile) + 2 row; both bytes of a row lie in tile data |
| Ppu.TileRowAsWritten | src/io/ppu.rs:115 | the tile row as written exists exactly when LY + SCY fits in a byte, and is then (LY + SCY) mod 8 |
| Ppu.TileRow | src/io/ppu.rs:102-106 | the wrapping tile row is (LY + SCY) mod 8 for every LY and SCY |
| Ppu.TileRowOverflow | src/io/ppu.rs:115 | the two tile rows agree whenever the as-written one is defined, and LY 100 with SCY 200 overflows it |
| Ppu.ColorOf | src/io/ppu.rs:135-144 | the colour number of a tile pixel is below 4 |
| Ppu.ColorBits | src/io/ppu.rs:135-144 | pixel i's colour takes its high bit from bit i of the high data byte and its low bit from bit i of the low byte |
| Ppu.RowPixels | src/io/ppu.rs:135-144 | a tile row is eight background pixels (palette BGP, colour below 4) |
| Ppu.RowBitsOrder | src/io/ppu.rs:135-144 | pixel k from the left has the colour of bit 7 - k: the leftmost pixel is bit 7 |
| Ppu.RangePixels | src/io/ppu.rs:135 | a range loop pushes hi - lo pixels, and none when lo >= hi |
| Ppu.FetcherTick | src/io/ppu.rs:92-149 | the fetcher as written acts on every second call only; it never pushes a pixel; in Push with fewer than 8 queued it moves one tile right and back to GetTile, with 8 or more it waits; it panics exactly when it reads a background data byte with LY + SCY past 255 |
| Ppu.FetcherCycle | src/io/ppu.rs:92-149 | for the fetcher as written (where it does not panic) and the intended one alike, each acting call moves GetTile, GetDataLow, GetDataHigh, Push round in a cycle; Push stays while the FIFO is full |
| Ppu.FetcherRowAfterEightCalls | src/io/ppu.rs:92-149 | with the intended push loop, eight calls from GetTile with an empty FIFO push the fetched tile row and move one tile to the right |
| Ppu.Fetcher.constructor | src/io/ppu.rs:80-91 | a new fetcher starts in GetTile with every counter and byte zero and the background selected |
| Ppu.Fetcher.StartFetchingWindow | src/io/ppu.rs:177-182 | switching to the window restarts at GetTile, map column 0 and the given window line, the other fields kept |
| Ppu.Fetcher.PushRange | src/io/ppu.rs:135-144 | a `for i in lo..hi` loop appends the pixels of bits lo to hi - 1 to the FIFO |
| Ppu.Fetcher.PushRowAsWritten | src/io/ppu.rs:135-144 | the push loop as written, over the empty range 8..0, leaves the FIFO unchanged |
| Ppu.Fetcher.PushRow | src/io/ppu.rs:131-147 | the corrected push loop appends the tile row's eight pixels, bit 7 first |
| Ppu.Fetcher.Tick | src/io/ppu.rs:92-149 | one tick fails exactly where `FetcherTick` panics and otherwise changes the fetcher's fields as it says; the FIFO is left unchanged |
| Ppu.FetcherTickIntended | src/io/ppu.rs:92-149 | the intended fetcher never fails and pushes exactly when it acts in Push with fewer than 8 queued: then the tile row's eight pixels, moving one tile right |
| Ppu.FetcherTickAgrees | src/io/ppu.rs:92-149 | where the as-written fetcher does not panic it moves its registers exactly as the intended one; they differ only in the pixels pushed |
| Ppu.FetcherTileAfterEightCalls | src/io/ppu.rs:92-149 | as written, eight calls from GetTile with room in the FIFO and no overflow go once round the cycle and move one tile right, pushing no pixel |
| Ppu.EndOfLine | src/io/ppu.rs:331-353 | at 456 dots a blank line ends: LY goes up (wrapping after 153), HBlank goes to OAM scan or, at LY 144, to VBlank with the VBlank interrupt and the window line counter reset; before 456 nothing changes |
| Ppu.BlankStep | src/io/ppu.rs:331-353 | a blank dot keeps LY at most 153, and below 144 outside VBlank |
| Ppu.BlankRun | src/io/ppu.rs:331-353 | any number of blank dots keeps LY in range |
| Ppu.WithinLine | src/io/ppu.rs:331-353 | before dot 456 only the dot counter moves |
| Ppu.OneBlankLine | src/io/ppu.rs:331-353 | a blank line lasts 456 dots and then moves to the next line: OAM scan after HBlank, VBlank at line 144, OAM scan on line 0 after line 153 |
| Ppu.BlankRunAdds | src/io/ppu.rs:331-353 | running a + b blank dots is running a and then b |
| Ppu.VBlankLines | src/io/ppu.rs:344-353 | from the start of line 144 + k VBlank lasts 10 - k lines of 456 dots and ends in OAM scan on line 0 |
| Ppu.VBlankLastsTenLines | src/io/ppu.rs:344-353 | VBlank lasts 4560 dots, from line 144 until OAM scan on line 0 |
| Ppu.LcdRead | src/io/ppu.rs:386-402 | STAT reads through the as-written STAT read, LY reads LY, and an address without a register (FF46 among them) reads 0xFF |
| Ppu.LcdWrite | src/io/ppu.rs:403-419 | a STAT write keeps bits 2-0; writes to LY, FF46 or an address without a register change nothing; LY is never written |
| Ppu.RegisterRoundTrip | src/io/ppu.rs:386-419 | every LCD register but STAT and LY reads back the value written; STAT reads back bits 6-3 of it |
| Ppu.OamScanStep | src/io/ppu.rs:288-301 | OAM scan keeps the PPU well formed and hands over to drawing at dot 80 |
| Ppu.ShiftStep | src/io/ppu.rs:312-323 | the pixel shift pops the oldest FIFO pixel, keeps the line, registers and fetcher, and moves LX exactly when a pixel was popped and none is left to discard; an empty FIFO changes nothing |
| Ppu.EndDrawingStep | src/io/ppu.rs:324-329 | drawing goes to HBlank exactly when LX reaches 160 |
| Ppu.DrawingStep | src/io/ppu.rs:302-330 | a drawing dot that does not panic keeps the PPU well formed and leaves every LCD register and LY alone (its full effect is `DrawingStepFacts`) |
| Ppu.DrawingStepFacts | src/io/ppu.rs:302-330 | a drawing dot fails exactly when the fetcher does; otherwise the fetcher is its tick after the window check, the registers stay, the FIFO loses its oldest pixel, LX moves by the pixel drawn and HBlank comes exactly at LX 160 |
| Ppu.BlankLineStep | src/io/ppu.rs:331-353 | a blank dot moves the line timing as `EndOfLine` says and changes only the timing and LY |
| Ppu.ModeStep | src/io/ppu.rs:287-354 | the mode part of a dot keeps the PPU well formed; only drawing can panic, and only HBlank and VBlank can raise VBlank |
| Ppu.PpuDot | src/io/ppu.rs:271-355 | a dot keeps the PPU well formed; it can panic only while drawing, and only an HBlank or VBlank dot raises VBlank |
| Ppu.DotFacts | src/io/ppu.rs:271-355 | a dot panics only in drawing with LY + SCY past 255; of the registers only STAT's LY=LYC flag and LY change; STAT is requested on the line's rising edge; blank dots follow `BlankStep`, other dots keep LY; OAM scan hands over at dot 80 and drawing at LX 160 |
| Ppu.PpuRun | src/io/ppu.rs:268-357 | n dots, stopping at the first panic, keep the PPU well formed |
| Ppu.RunDotsKeepsRegisters | src/io/ppu.rs:268-357 | n dots change no LCD register but STAT and LY |
| Ppu.RunDotsNext | src/io/ppu.rs:268-357 | n + 1 dots are n dots and one more, the requests ORed |
| Ppu.RunDotsFails | src/io/ppu.rs:268-357 | once a dot panics, every longer run fails |
| Ppu.StuckDot | src/io/ppu.rs:302-330 | as written, a drawing dot on LY 0 at LX 0 with an empty FIFO succeeds and stays there, with the back buffer unwritten and no VBlank |
| Ppu.OamScanRun | src/io/ppu.rs:288-301 | OAM scan before dot 80 only counts dots |
| Ppu.OamScanEnds | src/io/ppu.rs:288-301 | as written, from the start of OAM scan on LY 0, dot 80 starts drawing at LX 0 with an empty FIFO and the back buffer unwritten, without a VBlank request |
| Ppu.StuckOnLineZero | src/io/ppu.rs:268-357 | as written, from the start of OAM scan on LY 0 the PPU draws for ever after dot 80: LX 0, an empty FIFO, the back buffer unwritten and no VBlank request |
| Ppu.StuckRunStep | src/io/ppu.rs:302-330 | as written, one more dot of a run stuck drawing on LY 0 at LX 0 with an empty FIFO leaves it stuck there, with no VBlank request |
| Ppu.Ppu.constructor | src/io/ppu.rs:234-266 | the PPU starts with LCDC 0x91, STAT 0x85, BGP 0xFC, OBP0 and OBP1 0xFF, OAM scan on line 0, an empty FIFO and zeroed VRAM |
| Ppu.Ppu.BeginDot | src/io/ppu.rs:272-285 | each dot advances the dot counter, updates the LY=LYC bit, and requests a STAT interrupt exactly on a rising edge of the combined STAT line |
| Ppu.Ppu.OamScanDot | src/io/ppu.rs:288-301 | at dot 80 drawing starts at x 0 with an empty FIFO, the fetcher at tile SCX / 8 in GetTile on the background, and SCX mod 8 pixels to discard; before that nothing changes |
| Ppu.Ppu.EnterWindow | src/io/ppu.rs:303-309 | the fetcher switches to the window exactly when LCDC bit 5 is set, LY >= WY and LX + 7 >= WX |
| Ppu.Ppu.FetchDot | src/io/ppu.rs:310-311 | one as-written fetcher tick per drawing dot: fails exactly where `FetcherTick` panics, otherwise moves the fetcher as it says and leaves the FIFO unchanged |
| Ppu.Ppu.ShiftPixel | src/io/ppu.rs:312-323 | the oldest FIFO pixel is popped; LX advances exactly when a pixel was popped and none is left to discard, and that pixel's resolved colour is written at (LX, LY) |
| Ppu.Ppu.DrawPixel | src/io/ppu.rs:316-321 | a pixel not discarded has its resolved colour written to the back buffer at LY * 160 + LX when that index is inside it, and LX moves on by one |
| Ppu.Ppu.EndDrawing | src/io/ppu.rs:324-329 | drawing ends in HBlank exactly when LX reaches 160, counting a window line if the window was drawn |
| Ppu.Ppu.FinishDrawing | src/io/ppu.rs:312-329 | the rest of a drawing dot after the fetcher is the pixel shift and the end-of-line check, as `ShiftStep` then `EndDrawingStep` say |
| Ppu.Ppu.DrawingDot | src/io/ppu.rs:302-330 | a drawing dot is `DrawingStep` of the state: it fails exactly where the fetcher panics; otherwise the fetcher is its tick after the window check, the FIFO loses its oldest pixel, LX moves by the pixel drawn and the line goes to HBlank exactly at LX 160 (DrawingStepFacts) |
| Ppu.Ppu.BlankDot | src/io/ppu.rs:331-353 | HBlank and VBlank dots change the line timing as `EndOfLine` says |
| Ppu.Ppu.ModeDot | src/io/ppu.rs:287-354 | the mode part of a dot is `ModeStep`: line timing in HBlank and VBlank, OAM scan ends at dot 80, drawing runs the as-written fetcher and ends exactly at LX 160 |
| Ppu.Ppu.Dot | src/io/ppu.rs:271-355 | one dot is `PpuDot` of the state, so it fails only in drawing with LY + SCY past 255, keeps the LCD registers but STAT and LY, raises STAT on a rising edge only and follows the line timing (DotFacts); the buffers are kept |
| Ppu.Ppu.NextDot | src/io/ppu.rs:271-355 | the dot after n dots of a run extends `PpuRun` by one dot, ORing its requests, or stops the whole run at its panic; the frame buffers stay |
| Ppu.Ppu.Step | src/io/ppu.rs:268-357 | t dots are `PpuRun` of the state: they fail exactly when a dot panics, and otherwise give its state and the OR of the dots' VBlank and STAT requests; the buffers are kept |
| Ppu.Ppu.UpdateFrontBuffer | src/io/ppu.rs:371-373 | the front and back buffers swap |
| Ppu.Ppu.ReadVram | src/io/ppu.rs:374-376 | a VRAM read at 8000-9FFF returns the byte at addr - 0x8000 |
| Ppu.Ppu.WriteVram | src/io/ppu.rs:377-379 | a VRAM write replaces that one byte, which reads back |
| Ppu.Ppu.ReadOam | src/io/ppu.rs:380-382 | an OAM read at FE00-FE9F returns the byte at addr - 0xFE00 |
| Ppu.Ppu.WriteOam | src/io/ppu.rs:383-385 | an OAM write replaces that one byte, which reads back |
| Ppu.Ppu.ReadRegister | src/io/ppu.rs:386-402 | a register read is `LcdRead` of the current registers and mode |
| Ppu.Ppu.WriteRegister | src/io/ppu.rs:403-419 | a register write changes the registers as `LcdWrite` says |
| RustPpu.RustDot | rust/src/io/ppu/mod.rs:69-107 | one dot keeps LY in range; drawing only counts; OAM scan turns to drawing exactly at dot 80; a blank line ends at 456 dots, carrying the excess and moving LY on modulo 154 |
| RustPpu.RunDots | rust/src/io/ppu/mod.rs:65-110 | any number of dots keeps LY at most 153, and below 144 outside VBlank |
| RustPpu.RunDotsAdds | rust/src/io/ppu/mod.rs:65-110 | running a + b dots is running a and then b |
| RustPpu.QuietRun | rust/src/io/ppu/mod.rs:69-107 | while drawing, before dot 80 of OAM scan, or before dot 456 of a blank line, only the dot counter moves |
| RustPpu.DrawingNeverEnds | rust/src/io/ppu/mod.rs:80-83 | once drawing, the PPU stays in drawing on the same line for ever |
| RustPpu.OamScanLasts80Dots | rust/src/io/ppu/mod.rs:73-79 | OAM scan hands over to drawing exactly 80 dots after it starts, with LX 0 and tile row LY mod 8 |
| RustPpu.ScanThenDrawForEver | rust/src/io/ppu/mod.rs:69-107 | from the start of OAM scan, every later dot count finds the PPU drawing on the same line |
| RustPpu.StuckOnLineZero | rust/src/io/ppu/mod.rs:37-110 | from power-on the PPU scans OAM for 80 dots and then draws line 0 for ever |
| RustPpu.BlankLine | rust/src/io/ppu/mod.rs:84-105 | a blank line lasts 456 dots and moves to OAM scan on the next line, to VBlank at 144, or from 153 to OAM scan on line 0 |
| RustPpu.VBlankLines | rust/src/io/ppu/mod.rs:96-105 | VBlank entered at line 144 + k lasts 10 - k lines and ends in OAM scan on line 0 |
| RustPpu.RustStat | rust/src/io/ppu/mod.rs:131 | a STAT read forces bit 7 on and adds no mode bits |
| RustPpu.RustRead | rust/src/io/ppu/mod.rs:128-143 | register reads agree with the src/ tree's except STAT, which reads `RustStat` |
| RustPpu.StatWriteThenRead | rust/src/io/ppu/mod.rs:128-160 | a STAT write then read gives bit 7 set, bits 6-3 of the value and the register's own bits 2-0 |
| RustPpu.VramIndex | rust/src/io/ppu/mod.rs:112-118 | `addr & 0x1FFF` stays inside VRAM and is addr - 0x8000 on 8000-9FFF |
| RustPpu.OamIndex | rust/src/io/ppu/mod.rs:120-126 | `addr & 0xFF` is below 256 and is addr - 0xFE00 on FE00-FE9F |
| RustPpu.RustPpu.constructor | rust/src/io/ppu/mod.rs:37-62 | the PPU starts with LCDC 0x91, STAT 0x85, BGP 0xFC, OBP0 and OBP1 0xFF, in OAM scan on line 0 |
| RustPpu.RustPpu.Step | rust/src/io/ppu/mod.rs:65-110 | t dots move the line fields as t runs of `RustDot`, and no interrupt is reported |
| RustPpu.RustPpu.ReadVram | rust/src/io/ppu/mod.rs:112-114 | a VRAM read returns the byte at the masked address |
| RustPpu.RustPpu.WriteVram | rust/src/io/ppu/mod.rs:116-118 | a VRAM write replaces the byte at the masked address, which reads back |
| RustPpu.RustPpu.ReadOam | rust/src/io/ppu/mod.rs:120-122 | an OAM read fails exactly when the masked index is 160 or more, and otherwise returns that byte |
| RustPpu.RustPpu.WriteOam | rust/src/io/ppu/mod.rs:124-126 | an OAM write fails, changing nothing, exactly when the masked index is 160 or more; otherwise it replaces that byte, which reads back |
| RustPpu.RustPpu.ReadRegister | rust/src/io/ppu/mod.rs:128-143 | a register read is `RustRead` of the current registers |
| RustPpu.RustPpu.WriteRegister | rust/src/io/ppu/mod.rs:145-160 | a register write changes the registers as the src/ tree's `LcdWrite` says |
| Mmu.Decode | src/mmu.rs:108-133 | each address falls in exactly one region of the map (cartridge ROM, VRAM, cartridge RAM, work RAM with its echo, OAM, unusable, IO, high RAM, IE), with the work RAM index (addr - 0xC000) mod 0x2000 and the high RAM index addr - 0xFF80 |
| Mmu.EchoMirrorsWorkRam | src/mmu.rs:121 | E000-FDFF reaches the same byte as the address 0x2000 below it |
| Mmu.WorkRamAliases | src/mmu.rs:119-121 | two work-RAM addresses share a byte exactly when they are equal or 0x2000 apart |
| Mmu.DecodeIo | src/mmu.rs:134-149 | FF00 is the joypad, FF01-FF02 the serial port, FF04-FF07 the timer, FF0F IF and FF40-FF4B the LCD; every other IO address is unmapped |
| Mmu.FrameTick | src/mmu.rs:68-75 | each tick counts one machine cycle; the 17556th ends the frame, signals it and restarts the count at 0 |
| Mmu.FrameRun | src/mmu.rs:68-75 | the frame counter stays below 17556 over any number of ticks |
| Mmu.FrameRunAdds | src/mmu.rs:68-75 | a + b ticks are a ticks then b ticks, their frames added |
| Mmu.WithinFrame | src/mmu.rs:68-75 | before the end of a frame the counter only counts and signals nothing |
| Mmu.FramesEvery17556Ticks | src/mmu.rs:68-75 | from a fresh counter, 17556 k ticks signal exactly k frames and leave the counter at 0 |
| Mmu.TickFlags | src/mmu.rs:61-66 | a tick sets IF bit 2 on a timer request and bit 3 on a serial request and keeps every other bit |
| Mmu.Store | src/mmu.rs:160-172 | a store keeps the bus's own memory well formed and changes none of it when aimed elsewhere |
| Mmu.LoadStore | src/mmu.rs:119-131 | a byte stored in work RAM, high RAM or IE reads back there, and no other byte of that memory changes |
| Mmu.DistinctCells | src/mmu.rs:95-106 | `addr` and `addr + 1` never name the same byte of the bus's own memory |
| Mmu.WordStore | src/mmu.rs:95-106 | the two stores of `write_u16` keep the bus's own memory well formed |
| Mmu.WordStoreOrder | src/mmu.rs:95-106 | the bus's own memory ends the same whichever byte `write_u16` stores first |
| Mmu.WordStoreReads | src/mmu.rs:95-106 | after `write_u16`'s stores the low byte loads at `addr` and the high byte at `addr + 1` (wrapping) |
| Mmu.WordOrder | src/mmu.rs:95-106 | `write_u16` writes `addr` and `addr + 1` (wrapping), each once: with `le` the low byte to `addr` first, otherwise the high byte to `addr + 1` first |
| Mmu.UpdatesCommute | src/mmu.rs:95-106 | two stores to different bytes give the same memory in either order |
| Mmu.IoRead | src/mmu.rs:134-149 | an IO read fails exactly on an unmapped address; IF reads IF, and the timer, serial, joypad and LCD registers read through their devices' value-level reads |
| Mmu.IoWrite | src/mmu.rs:176-190 | an IO write fails exactly on an unmapped address or a timer write the timer panics on; it changes only the device addressed, and of the PPU only its LCD registers |
| Mmu.IoWriteThenRead | src/mmu.rs:134-190 | after an IO write every other port reads as before; IF and the LCD registers other than STAT and LY read back the value written, and P1 echoes the written select bits |
| Mmu.DeviceWrite | src/mmu.rs:151-174 | a raw write stores a VRAM or OAM byte, goes through `IoWrite` on IO, and leaves the devices alone anywhere else; it fails exactly where `IoWrite` does |
| Mmu.TickDevices | src/mmu.rs:58-76 | a tick fails exactly when a PPU dot or the timer step panics; otherwise VRAM, OAM and the joypad stay, no IF bit is cleared, the timer and serial port take their 4-cycle steps, the frame counter follows `FrameTick`, and at a frame's end the two frame buffers swap |
| Mmu.StepParts | src/mmu.rs:59-66 | the device steps fail exactly when a PPU dot or the timer step panics, and leave the frame counter and the front buffer alone |
| Mmu.CountFrame | src/mmu.rs:68-75 | the frame count of a tick advances as `FrameTick` says and keeps the devices well formed |
| Mmu.TickRun | src/mmu.rs:58-76 | n ticks that do not fail leave the frame counter at `FrameRun`'s count, signal a frame exactly when `FrameRun` ends one, and leave VRAM and OAM as they were |
| Mmu.WriteTick | src/mmu.rs:84-87 | a write followed by a tick keeps the devices well formed |
| Mmu.WordWriteTick | src/mmu.rs:95-106 | the two writes of `write_u16`, each with its tick, keep the devices well formed |
| Mmu.CartStore | src/mmu.rs:154-158 | a raw write reaches the cartridge only at a cartridge address and keeps it well formed |
| Mmu.CartWordStore | src/mmu.rs:95-106 | `write_u16`'s two stores keep the cartridge well formed |
| Mmu.Bus.Memory | src/mmu.rs:28-34 | the bus's work RAM is 8 KiB and its high RAM 127 bytes |
| Mmu.Bus.Devices | src/mmu.rs:26-37 | a bus whose PPU is well formed and whose frame counter is below 17556 holds well-formed devices |
| Mmu.Bus.constructor | src/mmu.rs:41-56 | a new bus has zeroed RAM, IF and IE 0, the frame counter at 0, and the timer, serial port and joypad in their power-on states |
| Mmu.Bus.ReadIo | src/mmu.rs:134-149 | an IO read goes to the device `DecodeIo` names, IF reads IF, and an unmapped address fails |
| Mmu.Bus.RawRead | src/mmu.rs:108-133 | a read returns the owned byte for work RAM, high RAM and IE, 0xFF on FEA0-FEFF, the VRAM or OAM byte, the IO read, or the cartridge read |
| Mmu.Bus.WriteIo | src/mmu.rs:176-190 | an IO write fails exactly where `WriteFails` says (an unmapped address, or a DIV or TAC write the timer panics on) and otherwise leaves the devices as `IoWrite` says; the cartridge and the bus's own memory stay |
| Mmu.Bus.WriteJoypad | src/mmu.rs:179 | a P1 write sets only the joypad's select lines, as `IoWrite` says |
| Mmu.Bus.WriteSerialPort | src/mmu.rs:181 | an SB or SC write changes only the serial port, as `IoWrite` says |
| Mmu.Bus.WriteTimerPort | src/mmu.rs:183 | a timer write fails exactly where the timer panics and otherwise changes only the timer, as `IoWrite` says |
| Mmu.Bus.WriteFlag | src/mmu.rs:185 | an IF write replaces IF, as `IoWrite` says |
| Mmu.Bus.WriteLcd | src/mmu.rs:187 | an LCD write changes only the PPU's LCD registers, as `IoWrite` says |
| Mmu.Bus.WriteWorkRam | src/mmu.rs:160-162 | a work-RAM or echo write, the echo through `addr - 0x2000`, replaces exactly the decoded byte |
| Mmu.Bus.WriteInternal | src/mmu.rs:160-172 | writes to work RAM, its echo, high RAM and IE store the value; FEA0-FEFF drops it |
| Mmu.Bus.WriteDevice | src/mmu.rs:151-190 | a write to the cartridge, VRAM, OAM or IO fails exactly where `WriteFails` and `DeviceWrite` say; the devices become `DeviceWrite`'s result, the cartridge `CartStore`'s, and the bus's own memory stays |
| Mmu.Bus.WriteCart | src/mmu.rs:154-158 | a cartridge write changes the cartridge as `CartStore` says and leaves the devices and the bus's own memory alone |
| Mmu.Bus.WriteVideo | src/mmu.rs:156 | a VRAM write stores the byte, as `DeviceWrite` says |
| Mmu.Bus.WriteObject | src/mmu.rs:164 | an OAM write stores the byte, as `DeviceWrite` says |
| Mmu.Bus.RawWrite | src/mmu.rs:151-174 | a raw write fails exactly where `WriteFails` and `DeviceWrite` say; the bus's own memory becomes `Store`'s result, the devices `DeviceWrite`'s and the cartridge `CartStore`'s; a byte written to work RAM, high RAM or IE reads back |
| Mmu.Bus.CountCycle | src/mmu.rs:68-75 | the frame counter advances as `FrameTick` says; at the end of a frame the front and back buffers swap and the frame is signalled; the devices become `CountFrame`'s result and VRAM, OAM, the cartridge and the bus's own memory stay |
| Mmu.Bus.StepDevices | src/mmu.rs:59-66 | the PPU, timer and serial port each run 4 dots; it fails exactly when `StepParts` does (a PPU dot or the timer step panics) and otherwise leaves the devices as `StepParts` says; the frame counter, VRAM, OAM, the cartridge and the bus's own memory stay |
| Mmu.Bus.StepPpu | src/mmu.rs:60 | the PPU's 4 dots fail exactly when `PpuRun` does and otherwise replace the PPU state by `PpuRun`'s, every other device staying |
| Mmu.Bus.StepTimers | src/mmu.rs:61-66 | the timer step fails exactly when `StepTimer` does; otherwise the timer and serial port take their steps' states and their two requests are ORed into IF (`TickFlags`), every other device staying |
| Mmu.Bus.Tick | src/mmu.rs:58-76 | one tick fails exactly when `TickDevices` does and otherwise leaves the devices as `TickDevices` says and counts a cycle; the bus's own memory, VRAM, OAM and the cartridge stay |
| Mmu.Bus.TickKeepsReads | src/mmu.rs:108-133 | when the cartridge, the bus's own memory, VRAM and OAM are unchanged (as `Tick` ensures), every read outside the IO registers is unchanged and every read keeps succeeding or failing |
| Mmu.Bus.Read | src/mmu.rs:78-82 | a read succeeds exactly when the raw read does and `TickDevices` does not fail; it returns the raw read from before its tick, the devices become `TickDevices`' result, and a byte outside IO still reads the same afterwards |
| Mmu.Bus.Write | src/mmu.rs:84-87 | a write succeeds exactly when `WriteTick` does and then leaves the devices as `WriteTick` says; the bus's own memory becomes `Store`'s result, the cartridge `CartStore`'s, and VRAM and OAM take the byte |
| Mmu.Bus.ReadU16 | src/mmu.rs:89-93 | a word read succeeds exactly when both raw reads and both ticks do; the devices then are two `TickDevices` steps on; the low byte is the byte read at `addr`, and the high byte the byte at `addr + 1` (wrapping) whenever that is not an IO register |
| Mmu.Bus.WriteU16 | src/mmu.rs:95-106 | a word write succeeds exactly when `WordWriteTick` does and then leaves the devices as it says; the cartridge becomes `CartWordStore`'s result and, when it succeeds, the bus's own memory `WordStore`'s, in the order `le` picks; VRAM takes both bytes, and a word stored in the bus's own memory reads back, low byte at `addr` |
| Mmu.Bus.WriteTwice | src/mmu.rs:99-104 | two writes succeed exactly when both `WriteTick` steps do, and leave the devices two `WriteTick` steps on, the cartridge after both `CartStore`s and the bus's own memory after both `Store`s; VRAM takes both bytes, in either order when they differ |
| Mmu.NewDevices | src/mmu.rs:44-49 | the devices a new bus builds are fresh and in their power-on states |
| Mmu.New | src/mmu.rs:41-56 | a bus is built exactly when the cartridge loads, with IF and IE 0 |
| RustMmu.DecodeIo | rust/src/mmu.rs:212-266 | FF00 joypad, FF01-FF02 serial, FF04-FF07 timer, FF0F IF, FF10-FF26 sound, FF46 DMA (ahead of the LCD range), the rest of FF40-FF4B LCD, the listed CGB registers CGB, everything else unmapped |
| RustMmu.DmaStart | rust/src/mmu.rs:252-257 | a write to FF46 starts a transfer from that page at byte 0 with a 2-cycle delay |
| RustMmu.DmaStep | rust/src/mmu.rs:82-95 | an idle transfer does nothing; the delay counts down first; then byte i of the page is copied to OAM slot i and i advances, ending after byte 159 |
| RustMmu.DmaRun | rust/src/mmu.rs:82-95 | over any number of ticks the transfer stays within 160 bytes and keeps its page |
| RustMmu.CopyPhase | rust/src/mmu.rs:86-93 | from byte k with no delay left, 160 - k ticks copy bytes k to 159 of the page to the same OAM slots, in order, and end the transfer |
| RustMmu.DmaTransfer | rust/src/mmu.rs:82-95 | after a write of b to FF46, 162 ticks copy page b's 160 bytes to OAM slots 0 to 159 in order, and the transfer is over |
| RustMmu.DmaBusy | rust/src/mmu.rs:82-95 | a transfer keeps running for all of its first 161 ticks |
| RustMmu.BusyFrom | rust/src/mmu.rs:86-93 | fewer than 160 - k ticks from byte k leave the transfer running |
| RustMmu.RaiseFlags | rust/src/mmu.rs:98-113 | a tick ORs VBlank into IF bit 0, STAT into bit 1, the timer into bit 2 and serial into bit 3; no bit is ever cleared |
| RustMmu.IoRead | rust/src/mmu.rs:212-237 | an IO read fails only on a sound register (the sound unit is not modelled); CGB registers read 0, unmapped ones 0xFF, and P1 reads the joypad through its select lines |
| RustMmu.IoWrite | rust/src/mmu.rs:239-266 | an IO write fails exactly on a timer write the timer panics on; it changes only the device addressed; FF46 starts a transfer as `DmaStart` says and no other write touches the transfer; sound, CGB and unmapped writes change nothing |
| RustMmu.IoWriteThenRead | rust/src/mmu.rs:212-266 | after an IO write every other port reads as before; IF reads back the value with bits 7-5 set, FF46 and the LCD registers other than STAT and LY read back the value, and P1 echoes the written select bits |
| RustMmu.DeviceWrite | rust/src/mmu.rs:188-210 | a raw write stores a VRAM or OAM byte, goes through `IoWrite` on IO and leaves the devices alone anywhere else; only a write to FF46 changes the transfer |
| RustMmu.UnblockedLoad | rust/src/mmu.rs:155-180 | the address map without DMA blocking: the owned byte, 0xFF on FEA0-FEFF, the VRAM or OAM byte, `IoRead` on IO, or the cartridge's read |
| RustMmu.BusLoad | rust/src/mmu.rs:146-153 | while a transfer runs every address but high RAM reads 0xFF; high RAM always reads its byte; with no transfer it is the unblocked read |
| RustMmu.BusStore | rust/src/mmu.rs:182-210 | a write blocked by a running transfer changes nothing; otherwise it fails exactly where `DeviceWrite` does, and the cartridge, the bus's own memory and the devices take `CartStore`'s, `Store`'s and `DeviceWrite`'s results |
| RustMmu.StoreThenLoad | rust/src/mmu.rs:146-210 | with no transfer in the way, a byte stored to the bus's own memory, VRAM or OAM reads back, and a store other than to FF46 leaves every other owned cell reading as before |
| RustMmu.DmaCopyStep | rust/src/mmu.rs:82-95 | the transfer advances as `DmaStep` says; the byte it copies is the unblocked read of its source and lands in its OAM slot; it fails exactly when that read cannot be made; the cartridge, the bus's own memory and every other device stay, and with no transfer nothing changes |
| RustMmu.StepParts | rust/src/mmu.rs:97-113 | the PPU runs 4 dots (`RunDots`) with LY kept in step, the timer and serial port take their 4-cycle steps, no IF bit is cleared and bits 0 and 1 never change; it fails exactly when the timer panics, and nothing else changes |
| RustMmu.TickState | rust/src/mmu.rs:81-114 | a tick keeps the cartridge, the bus's own memory, VRAM and the frame signal; with no transfer running it fails exactly when the timer panics and keeps OAM and the transfer |
| RustMmu.TickKeepsLoads | rust/src/mmu.rs:146-180 | with no transfer running, a tick leaves every read outside the IO registers as it was |
| RustMmu.WriteTick | rust/src/mmu.rs:122-125 | a write followed by a tick keeps the bus well formed |
| RustMmu.WordWriteTick | rust/src/mmu.rs:133-144 | the two writes of `write_u16`, each with its tick, keep the bus well formed |
| RustMmu.WordWriteStores | rust/src/mmu.rs:133-144 | with no transfer running and FF46 not among the two addresses, a word write leaves the bus's own memory and the cartridge as `WordStore` and `CartWordStore` say and starts no transfer; on the bus's own memory the two bytes read back as the word |
| RustMmu.Bus.Memory | rust/src/mmu.rs:28-29 | the bus's work RAM is 8 KiB and its high RAM 127 bytes |
| RustMmu.Bus.Devices | rust/src/mmu.rs:28-50 | a bus whose PPU and transfer are well formed holds well-formed devices |
| RustMmu.Bus.State | rust/src/mmu.rs:28-50 | a valid bus is a well-formed `BusState` |
| RustMmu.Bus.constructor | rust/src/mmu.rs:53-79 | a new bus has zeroed RAM, IF and IE 0, no transfer running, and its devices in their power-on states |
| RustMmu.Bus.ReadIo | rust/src/mmu.rs:212-237 | an IO read is `IoRead` of the bus's devices |
| RustMmu.Bus.UnblockedRead | rust/src/mmu.rs:155-180 | a read without DMA blocking is `UnblockedLoad` of the bus's state |
| RustMmu.Bus.RawRead | rust/src/mmu.rs:146-153 | a raw read is `BusLoad` of the bus's state: 0xFF where a transfer blocks the address, high RAM always its byte |
| RustMmu.Bus.WriteIo | rust/src/mmu.rs:239-266 | an IO write fails exactly where `IoWrite` does (a DIV or TAC write the timer panics on) and otherwise leaves the devices as `IoWrite` says; the cartridge and the bus's own memory stay |
| RustMmu.Bus.WriteJoypad | rust/src/mmu.rs:242 | a P1 write sets only the joypad's select lines, as `IoWrite` says |
| RustMmu.Bus.WriteSerialPort | rust/src/mmu.rs:244 | an SB or SC write changes only the serial port, as `IoWrite` says |
| RustMmu.Bus.WriteTimerPort | rust/src/mmu.rs:246 | a timer write fails exactly where the timer panics and otherwise changes only the timer, as `IoWrite` says |
| RustMmu.Bus.WriteFlag | rust/src/mmu.rs:248 | an IF write replaces IF, as `IoWrite` says |
| RustMmu.Bus.StartDma | rust/src/mmu.rs:252-257 | a write to FF46 starts a transfer from that page, as `DmaStart` says |
| RustMmu.Bus.WriteLcd | rust/src/mmu.rs:259 | an LCD write changes only the PPU's LCD registers, as `IoWrite` says |
| RustMmu.Bus.WriteWorkRam | rust/src/mmu.rs:196-198 | a work-RAM or echo write, the echo through `addr - 0x2000`, replaces exactly the decoded byte and leaves the devices and the cartridge alone |
| RustMmu.Bus.WriteInternal | rust/src/mmu.rs:196-208 | a write to work RAM, its echo, FEA0-FEFF, high RAM or IE changes the bus's own memory as `Store` says (FEA0-FEFF drops it) and leaves the devices and the cartridge alone |
| RustMmu.Bus.WriteDevice | rust/src/mmu.rs:188-204 | a write to the cartridge, VRAM, OAM or IO fails exactly where `DeviceWrite` does; the devices become `DeviceWrite`'s result, the cartridge `CartStore`'s, and the bus's own memory stays |
| RustMmu.Bus.WriteCart | rust/src/mmu.rs:190-194 | a cartridge write changes the cartridge as `CartStore` says and leaves the devices and the bus's own memory alone |
| RustMmu.Bus.WriteVideo | rust/src/mmu.rs:192 | a VRAM write stores the byte, as `DeviceWrite` says |
| RustMmu.Bus.WriteObject | rust/src/mmu.rs:200 | an OAM write stores the byte, as `DeviceWrite` says |
| RustMmu.Bus.RawWrite | rust/src/mmu.rs:182-210 | a raw write fails exactly where `BusStore` does and otherwise leaves the whole bus as `BusStore` says: dropped while a transfer blocks the address, else the cartridge, the bus's own memory and the devices each take their part |
| RustMmu.Bus.CopyDmaByte | rust/src/mmu.rs:87-89 | the byte at page * 0x100 + i, read without blocking, lands in OAM slot i; the copy fails exactly when that read cannot be made |
| RustMmu.Bus.DmaTick | rust/src/mmu.rs:82-95 | the DMA part of a tick fails exactly where `DmaCopyStep` does and otherwise leaves the devices as it says; the cartridge and the bus's own memory stay |
| RustMmu.Bus.CopyStep | rust/src/mmu.rs:86-93 | a copying DMA step fails exactly where `DmaCopyStep` does and otherwise leaves the devices as it says |
| RustMmu.Bus.StepDevices | rust/src/mmu.rs:97-113 | the PPU, timer and serial port each run 4 dots; it fails exactly when `StepParts` does (the timer step panics) and otherwise leaves the devices as `StepParts` says, counting a cycle; the cartridge and the bus's own memory stay |
| RustMmu.Bus.StepPpu | rust/src/mmu.rs:97-98 | the PPU runs 4 dots as `RunDots` says, LY kept in step, and requests no interrupt |
| RustMmu.Bus.StepTimers | rust/src/mmu.rs:99-113 | the timer step fails exactly when `StepTimer` does; otherwise the timer and serial port take their steps' states, all four requests are ORed into IF as `RaiseFlags` says, and VBlank signals a frame |
| RustMmu.Bus.Tick | rust/src/mmu.rs:81-114 | one tick fails exactly where `TickState` does and otherwise leaves the whole bus as `TickState` says, counting a cycle |
| RustMmu.Bus.Read | rust/src/mmu.rs:116-120 | a read succeeds exactly when `BusLoad` and `TickState` do, returns `BusLoad` of the bus from before its tick, and leaves the bus as `TickState` says |
| RustMmu.Bus.Write | rust/src/mmu.rs:122-125 | a write succeeds exactly when `WriteTick` does (a raw write, then a tick) and leaves the whole bus as `WriteTick` says |
| RustMmu.Bus.ReadU16 | rust/src/mmu.rs:127-131 | a word read succeeds exactly when both reads and both ticks do; the bus is then two `TickState` steps on, the low byte is `BusLoad` at `addr` before the first tick and the high byte `BusLoad` at `addr + 1` (wrapping) before the second; with no transfer running and `addr + 1` not IO, the high byte is the byte that address held at the start |
| RustMmu.Bus.WriteU16 | rust/src/mmu.rs:133-144 | a word write succeeds exactly when `WordWriteTick` does and leaves the whole bus as it says, in the order `le` picks; with no transfer running and FF46 not written, the bus's own memory becomes `WordStore`'s result, and a word stored there reads back, low byte at `addr` |
| RustMmu.Bus.WriteTwice | rust/src/mmu.rs:136-143 | two writes succeed exactly when both `WriteTick` steps do and leave the bus two `WriteTick` steps on |
| RustMmu.NewDevices | rust/src/mmu.rs:59-64 | the devices a new bus builds are fresh and in their power-on states |
| RustMmu.New | rust/src/mmu.rs:53-79 | a bus is built exactly when the cartridge loads, with no transfer running and IF 0 |
| BusView.StoreWord | src/mmu.rs:95-106 | storing a word changes only the bytes at `addr` and `addr + 1` |
| BusView.LoadStoreWord | src/mmu.rs:89-106 | a word stored at `addr` loads back unchanged |
| BusView.PendingMask | src/cpu/mod.rs:61 | bit i of the pending mask, for the five sources, is set exactly when IE and IF both have bit i set |
| BusView.Memory.constructor | src/mmu.rs:41-56 | the flat memory starts as the image given, at cycle 0 |
| BusView.Memory.Pending | src/cpu/mod.rs:61 | the pending requests are the mask of IE (FFFF) and IF (FF0F) |
| BusView.Memory.Tick | src/mmu.rs:58-76 | a tick counts one machine cycle |
| BusView.Memory.Read | src/mmu.rs:78-82 | a read returns the byte at `addr` and costs one cycle |
| BusView.Memory.Write | src/mmu.rs:84-87 | a write replaces the byte at `addr`, which reads back, and costs one cycle |
| BusView.Memory.ReadU16 | src/mmu.rs:89-93 | a word read costs two cycles and gives the low byte from `addr`, the high one from `addr + 1` |
| BusView.Memory.WriteU16 | src/mmu.rs:95-106 | in either write order a word write costs two cycles, stores the low byte at `addr` and the high byte at `addr + 1`, and reads back |
| BusView.Memory.ClearFlag | src/cpu/mod.rs:43 | acknowledging a request clears its IF bit and keeps the others |
| Alu.Update | src/cpu/executor.rs:576-589 | each flag passed as `None` keeps its old value |
| Alu.Add | src/cpu/executor.rs:181-189 | ADD: result plus 0x100 when C equals A + v; low nibble plus 0x10 when H equals the sum of the low nibbles; Z says the result is 0, N clear |
| Alu.Adc | src/cpu/executor.rs:191-202 | ADC: as ADD with the old carry added in, for both the byte and the nibble sums |
| Alu.NibbleOfSum | src/cpu/executor.rs:191-202 | the low nibble of a byte sum is the low nibble of the nibbles' sum |
| Alu.Sub | src/cpu/executor.rs:204-212 | SUB: result + v equals A, plus 0x100 exactly when C (the borrow) is set; the nibbles likewise with H; Z says A == v, N set |
| Alu.Sbc | src/cpu/executor.rs:214-226 | SBC: as SUB with the old carry taken away too, for both the byte and the nibble |
| Alu.And | src/cpu/executor.rs:228-235 | AND: each result bit is the conjunction of the operand bits; H set, N and C clear |
| Alu.Xor | src/cpu/executor.rs:237-244 | XOR: each result bit is the exclusive or of the operand bits; N, H, C clear |
| Alu.Or | src/cpu/executor.rs:246-253 | OR: each result bit is the disjunction of the operand bits; N, H, C clear |
| Alu.Cp | src/cpu/executor.rs:255-262 | CP leaves A alone, sets Z when A == v, C when A < v, H on a nibble borrow, and N |
| Alu.AluOpOf | src/cpu/mod.rs:240-280 | opcode bits 5-3 pick the ALU operation, and the operation gives those bits back |
| Alu.AluOpBits | src/cpu/mod.rs:240-280 | each ALU operation has a 3-bit field |
| Alu.RunAlu | src/cpu/mod.rs:240-312 | of the eight ALU operations only CP leaves A as it was |
| Alu.Inc8 | src/cpu/executor.rs:130-137 | INC wraps 0xFF to 0, sets H when the new low nibble is 0, Z when the value wrapped, clears N and keeps C |
| Alu.Dec8 | src/cpu/executor.rs:139-146 | DEC wraps 0 to 0xFF, sets H when the new low nibble is 0xF, Z when the value was 1, sets N and keeps C |
| Alu.Daa | src/cpu/executor.rs:264-282 | DAA keeps N, clears H, sets C when C was set or, after an addition, A was over 0x99, and Z says the result is 0 |
| Alu.Scf | src/cpu/executor.rs:284-286 | SCF as written clears N, H and C and keeps Z |
| Alu.ScfIntended | src/cpu/executor.rs:284-286 | the corrected SCF sets C, clears N and H and keeps Z |
| Alu.Cpl | src/cpu/executor.rs:288-294 | CPL flips every bit of A and sets N and H, keeping Z and C |
| Alu.Ccf | src/cpu/executor.rs:296-298 | CCF flips C, clears N and H and keeps Z |
| Alu.AddHl | src/cpu/executor.rs:160-169 | ADD HL,rr: the result plus 0x10000 when C equals HL + v; H is the carry out of bit 11; Z kept, N clear |
| Alu.SpPlusOffset | src/cpu/executor.rs:171-179 | SP + e adds the sign-extended offset with wrap-around; H and C are the carries of adding e unsigned to the low byte of SP; Z and N clear |
| Alu.Rlc | src/cpu/executor.rs:300-308 | RLC moves bits 6-0 up one and bit 7 round to bit 0 and into C |
| Alu.Rrc | src/cpu/executor.rs:313-321 | RRC moves bits 7-1 down one and bit 0 round to bit 7 and into C |
| Alu.Rl | src/cpu/executor.rs:326-335 | RL moves bits 6-0 up one, the old C into bit 0 and bit 7 into C |
| Alu.Rr | src/cpu/executor.rs:340-349 | RR moves bits 7-1 down one, the old C into bit 7 and bit 0 into C |
| Alu.Sla | src/cpu/executor.rs:354-362 | SLA shifts left with 0 into bit 0 and bit 7 into C |
| Alu.Sra | src/cpu/executor.rs:363-372 | SRA shifts right keeping bit 7, bit 0 into C |
| Alu.Swap | src/cpu/executor.rs:373-382 | SWAP exchanges the nibbles and clears C |
| Alu.Srl | src/cpu/executor.rs:383-391 | SRL shifts right with 0 into bit 7, bit 0 into C |
| Alu.ShiftOpOf | src/cpu/mod.rs:383-390 | bits 5-3 of a CB opcode below 0x40 pick the shift, and the shift gives those bits back |
| Alu.ShiftOpBits | src/cpu/mod.rs:383-390 | each shift has a 3-bit field |
| Alu.RunShift | src/cpu/mod.rs:383-390 | every CB shift or rotate clears N and H |
| Alu.AccumulatorForm | src/cpu/executor.rs:309-353 | RLCA, RRCA, RLA and RRA give the CB form's value and flags but clear Z |
| Alu.BitTest | src/cpu/executor.rs:392-403 | BIT n sets Z exactly when bit n is clear, clears N, sets H and keeps C |
| Alu.DecodeLocation | src/cpu/executor.rs:421-433 | the 3-bit register field decodes to a location that encodes back to it |
| Alu.LocationBits | src/cpu/executor.rs:421-433 | each register location has a 3-bit field |
| Alu.DecodingsAreBijections | src/cpu/executor.rs:421-433 | the register, ALU and shift fields each decode and encode as inverse bijections |
| Alu.ConditionHolds | src/cpu/executor.rs:517-525 | Z and NZ test the zero flag, C and NC the carry flag, each the opposite way, and the unconditional case always holds |
| Alu.ConditionsComplement | src/cpu/executor.rs:517-525 | NZ and Z, NC and C are complements, and the unconditional case always holds |
| Alu.SubUndoesAdd | src/cpu/executor.rs:181-212 | SUB v after ADD v gives A back, borrowing exactly when the ADD carried, in the byte and in the nibble |
| Alu.CarryFreeFormsAgree | src/cpu/executor.rs:181-226 | with C clear, ADC is ADD and SBC is SUB |
| Alu.CpIsSubWithoutStore | src/cpu/executor.rs:204-262 | CP sets exactly SUB's flags and keeps A |
| Alu.SelfOperations | src/cpu/executor.rs:228-253 | XOR A clears A and sets only Z; AND A and OR A keep A |
| Alu.DecUndoesInc | src/cpu/executor.rs:130-146 | DEC undoes INC and INC undoes DEC |
| Alu.CircularRotationsInverse | src/cpu/executor.rs:300-321 | RRC undoes RLC and RLC undoes RRC |
| Alu.RotationsThroughCarryInverse | src/cpu/executor.rs:326-349 | RR undoes RL and RL undoes RR, carry included |
| Alu.SwapInvolutionAndShifts | src/cpu/executor.rs:354-391 | SWAP twice is the identity; SRL after SLA loses only bit 7 |
| Alu.ComplementsInvolutive | src/cpu/executor.rs:288-298 | CPL twice gives A back and CCF twice gives C back |
| Alu.BitAfterSetAndRes | src/cpu/executor.rs:392-419 | BIT after SET finds the bit set, after RES finds it clear |
| Alu.SetResRoundTrip | src/cpu/executor.rs:404-419 | RES undoes SET on a clear bit, SET undoes RES on a set bit |
| Alu.SpOffsetIsLowByteAdd | src/cpu/executor.rs:107-115 | the H and C of SP + e are those of an 8-bit ADD of e to SP's low byte, whose result is the new low byte |
| Alu.AddHlIsAddThenAdc | src/cpu/executor.rs:160-169 | ADD HL,rr sets C and H as an ADC of the high bytes after an ADD of the low bytes |
| Alu.ScfClearsCarry | src/cpu/executor.rs:284-286 | after the SCF as written a carry-conditional jump is never taken; after the corrected SCF it always is |
| Alu.BcdDigits | src/cpu/executor.rs:264-282 | the byte with two decimal digits is packed BCD and stands for their value |
| Alu.DaaKeeps | src/cpu/executor.rs:264-282 | after an addition with neither H nor C and both digits decimal, DAA leaves A alone and C clear |
| Alu.DaaAddsSix | src/cpu/executor.rs:264-282 | after an addition, a low digit over 9 (or H) alone makes DAA add 0x06 and leave C clear |
| Alu.DaaAddsSixty | src/cpu/executor.rs:264-282 | after an addition, A over 0x99 (or C) alone makes DAA add 0x60, wrapping, and set C |
| Alu.DaaAddsBoth | src/cpu/executor.rs:264-282 | after an addition, both conditions make DAA add 0x66, wrapping, and set C |
| Alu.DaaAddOnesNoCarry | src/cpu/executor.rs:264-282 | ADD then DAA of BCD bytes whose ones digits sum to at most 9 gives the decimal sum, carrying a hundred into C |
| Alu.DaaAddOnesOverNine | src/cpu/executor.rs:264-282 | with a ones sum of 10 to 15, ADD then DAA carries a ten and gives the decimal sum |
| Alu.DaaAddOnesHalfCarry | src/cpu/executor.rs:264-282 | with a ones sum of 16 to 18, ADD then DAA gives the decimal sum |
| Alu.DaaAfterAdd | src/cpu/executor.rs:264-282 | ADD then DAA of two BCD bytes leaves a BCD byte in A and a hundred in C that add up to the decimal sum |
| Alu.DaaSubOnesNoBorrow | src/cpu/executor.rs:264-282 | SUB then DAA without a ones borrow gives the decimal difference, C set when a hundred was borrowed |
| Alu.DaaSubOnesBorrow | src/cpu/executor.rs:264-282 | SUB then DAA with a ones borrow takes 6 away and gives the decimal difference |
| Alu.DaaAfterSub | src/cpu/executor.rs:264-282 | SUB then DAA of two BCD bytes leaves a BCD byte equal to the decimal difference, plus 100 when C is set |
| Decoder.Mid | src/cpu/mod.rs:129-134 | bits 5-3 of an opcode form a 3-bit field |
| Decoder.Low | src/cpu/mod.rs:129-134 | bits 2-0 of an opcode form a 3-bit field |
| Decoder.Decode | src/cpu/mod.rs:93-409 | an opcode fails to decode exactly when it is one of the eleven illegal opcodes |
| Decoder.DecodeCb | src/cpu/mod.rs:378-396 | a CB opcode names the location of its bits 2-0 and, outside the shift group, the bit index of its bits 5-3 |
| Decoder.LoadOpcode | src/cpu/mod.rs:129-134 | the LD r,r' opcode of two locations lies in 0x40-0x7F |
| Decoder.FieldsOf | src/cpu/mod.rs:129-134 | an opcode 8 hi + lo (mod 0x40) has bits 5-3 hi and bits 2-0 lo |
| Decoder.LoadFields | src/cpu/mod.rs:109-134 | LD d,s decodes to the load from s to d for every pair but (HL),(HL), whose opcode 0x76 is HALT |
| Decoder.LoadBlockDecodes | src/cpu/mod.rs:129-134 | every opcode of 0x40-0x7F but 0x76 is a load between the locations its two fields name, and re-encodes to itself |
| Decoder.ArithEncoding | src/cpu/mod.rs:240-312 | 0x80 + 8 op + loc runs ALU operation op on A and loc; 0xC6 + 8 op runs it on the immediate byte |
| Decoder.RestartTargets | src/cpu/mod.rs:373-377 | each RST opcode jumps to 8 times its bits 5-3, a multiple of 8 below 0x40 |
| Decoder.CbShiftEncoding | src/cpu/mod.rs:383-390 | CB opcode 8 sop + loc applies shift sop to loc |
| Decoder.CbBitEncoding | src/cpu/mod.rs:391-393 | CB opcodes 0x40, 0x80 and 0xC0 plus 8 n + loc are BIT, RES and SET of bit n of loc |
| Decoder.PushEncoding | src/cpu/mod.rs:217-220 | PUSH at 0xC5 + 0x10 k pushes BC, DE, HL, AF in that order |
| Decoder.PopEncoding | src/cpu/mod.rs:223-226 | POP at 0xC1 + 0x10 k pops into BC, DE, HL, AF in that order |
| Decoder.IncWordEncoding | src/cpu/mod.rs:322-325 | INC rr at 0x03 + 0x10 k increments BC, DE, HL, SP in that order |
| Decoder.DecWordEncoding | src/cpu/mod.rs:327-330 | DEC rr at 0x0B + 0x10 k decrements BC, DE, HL, SP in that order |
| Decoder.LoadWordEncoding | src/cpu/mod.rs:182-197 | LD rr,nn at 0x01 + 0x10 k loads BC, DE, HL, SP in that order |
| Decoder.JrEncoding | src/cpu/mod.rs:347-350 | JR cc at 0x20 + 8 k tests NZ, Z, NC, C in that order |
| Decoder.JpEncoding | src/cpu/mod.rs:353-356 | JP cc at 0xC2 + 8 k tests NZ, Z, NC, C in that order |
| Decoder.CallEncoding | src/cpu/mod.rs:360-363 | CALL cc at 0xC4 + 8 k tests NZ, Z, NC, C in that order |
| Decoder.RetEncoding | src/cpu/mod.rs:366-369 | RET cc at 0xC0 + 8 k tests NZ, Z, NC, C in that order |
| Decoder.UnconditionalEncoding | src/cpu/mod.rs:346-365 | 0x18, 0xC3, 0xCD and 0xC9 are the unconditional JR, JP, CALL and RET |
| Cpu.WithHl | src/cpu/registers.rs:87-90 | after `set_hl(v)`, HL reads v |
| Cpu.DestMemory | src/cpu/executor.rs:465-491 | a byte destination write keeps the memory at 64 KiB |
| Cpu.IndexedAccess | src/cpu/executor.rs:436-463 | (HL+) and (HL-) read the byte at the old HL, then step HL up or down by one, wrapping, touching no other register |
| Cpu.RegisterOperand | src/cpu/executor.rs:436-491 | of the eight operand locations only (HL) costs a bus access; the register operands leave memory untouched |
| Cpu.IndexedStepsCancel | src/cpu/executor.rs:436-463 | an (HL+) step and an (HL-) step, in either order, give back the registers they started from |
| Cpu.WriteThenRead | src/cpu/executor.rs:436-491 | a byte written to a destination reads back from the same-named source (at the old HL for (HL+) and (HL-)), and no other byte of memory changes |
| Cpu.AfMask | src/cpu/executor.rs:504-515 | `value & 0xFFF0` keeps the high byte and bits 7-4 of the low byte |
| Cpu.AfMaskFile | src/cpu/executor.rs:504-515 | writing AF from `value & 0xFFF0` or from the value itself gives the same register file |
| Cpu.WordWriteThenRead | src/cpu/executor.rs:493-515 | a register pair written reads back the word, except AF, whose low nibble reads back as 0 |
| Cpu.WordWriteOwnValue | src/cpu/executor.rs:493-515 | writing a pair's own value back to it changes no register, AF included |
| Cpu.StackRoundTrip | src/cpu/executor.rs:117-128 | a word pushed below SP pops back unchanged, and SP returns to where it was |
| Cpu.PushPopRestores | src/cpu/executor.rs:117-128 | PUSH rr then POP rr restore every register and SP, leaving the word low byte first below the old SP |
| Cpu.EiTick | src/cpu/mod.rs:51-57 | each step counts a running EI countdown down by one, stopping at 0; IME becomes set exactly when the countdown goes from 1 to 0 and is never cleared here |
| Cpu.EiTiming | src/cpu/mod.rs:51-57 | after EI the next step still sees the old IME, and from the second step on IME is set and stays set |
| Cpu.EiSettled | src/cpu/mod.rs:51-57 | with no countdown running IME stays as it is; after DI it stays off |
| Cpu.LowestSet | src/cpu/mod.rs:39-46 | the dispatch loop finds the lowest set bit among 0-4, or none |
| Cpu.BitMask | src/cpu/mod.rs:40 | `1 << bit` is 2 to the power bit |
| Cpu.MaskTest | src/cpu/mod.rs:41 | `pending & (1 << bit) != 0` holds exactly when bit `bit` is set |
| Cpu.PendingHasLowest | src/cpu/mod.rs:39-46 | a nonzero pending mask has a lowest source below 5 that is both enabled and requested |
| Cpu.Vector | src/cpu/mod.rs:44 | the interrupt vectors are the multiples of 8 from 0x40 to 0x60 |
| Cpu.Dispatch | src/cpu/mod.rs:33-48 | dispatch clears IME, moves SP two down and keeps the registers; with a source among bits 0-4 pending, PC becomes the lowest one's vector and its IF bit is clear; with none, PC stays and only the push happens |
| Cpu.DispatchPushes | src/cpu/mod.rs:36-38 | the interrupted PC loads back from the new SP (unless the push overlaps IF at FF0F); memory outside the pushed word and IF is unchanged, and the other IF bits are kept |
| Cpu.BeforeFetch | src/cpu/mod.rs:50-80 | the part of `step` before the fetch keeps the memory size |
| Cpu.DispatchWhenEnabled | src/cpu/mod.rs:58-75 | with an interrupt pending and IME set after the countdown, running or halted, the CPU dispatches: IME off, not halted, SP two down, PC at the lowest pending source's vector with its IF bit cleared, registers kept, 5 cycles (6 from HALT), and an opcode is fetched next |
| Cpu.NoDispatchWhenDisabled | src/cpu/mod.rs:58-79 | with IME off after the countdown nothing is pushed and PC and SP stay: a pending interrupt wakes a halted CPU, which then fetches; with nothing pending a halted CPU stays halted, spends one cycle and fetches nothing |
| Cpu.EiDelaysDispatch | src/cpu/mod.rs:51-66 | right after EI (countdown 2, IME off) a pending interrupt is not dispatched before the next instruction; one step later (countdown 1) it is, to the lowest pending source's vector |
| Cpu.WrittenOrder | src/cpu/executor.rs:84-121 | as written only dispatch passes `write_u16` a byte order, `false` (high byte first); the CALL, RST, PUSH and `LD (nn),SP` calls pass none |
| Cpu.IntendedOrder | src/mmu.rs:95-106 | the order each site evidently means is low byte first exactly for `LD (nn),SP`, the one site that is no stack push |
| Cpu.IntendedOrderExtendsWritten | src/cpu/mod.rs:38 | the intended order agrees with the one order the source gives, dispatch's |
| Cpu.Cpu.constructor | src/cpu/mod.rs:20-31 | the CPU starts at PC 0x0100 with SP 0xFFFE, zeroed registers, IME off, neither halted nor in the halt bug |
| Cpu.Cpu.FetchByte | src/cpu/executor.rs:7-11 | a fetch returns the byte at PC and moves PC on by one, wrapping, in one cycle |
| Cpu.Cpu.FetchWord | src/cpu/executor.rs:13-17 | a word fetch returns the little-endian word at PC and moves PC on by two, in two cycles |
| Cpu.Cpu.ReadByteSource | src/cpu/executor.rs:436-463 | a source read returns the register, immediate or memory byte, steps HL for (HL+)/(HL-), and costs a cycle only when indirect |
| Cpu.Cpu.WriteByteDest | src/cpu/executor.rs:465-491 | a destination write changes exactly the register or memory byte named, stepping HL for (HL+)/(HL-) |
| Cpu.Cpu.WriteAf | src/cpu/executor.rs:504-515 | AF is written with `value & 0xFFF0` |
| Cpu.Cpu.WritePair | src/cpu/executor.rs:504-515 | a register pair or SP takes the word, high byte to the first-named register |
| Cpu.Cpu.WriteWordDest | src/cpu/executor.rs:504-515 | a word destination write changes the pair, SP, or the two bytes at the address (two cycles) |
| Cpu.Cpu.RunLd8 | src/cpu/executor.rs:97-100 | LD reads the source (stepping HL) and writes the destination, costing one cycle per indirect operand |
| Cpu.Cpu.RunLd16 | src/cpu/executor.rs:102-105 | LD rr writes the source word to the pair, SP, or memory |
| Cpu.Cpu.RunLdhl | src/cpu/executor.rs:107-115 | LD HL,SP+e sets HL to SP plus the signed offset, with ADD SP,e's flags |
| Cpu.Cpu.RunPush | src/cpu/executor.rs:117-122 | PUSH moves SP down by two and stores the word there, which reads back, in three cycles |
| Cpu.Cpu.RunPop | src/cpu/executor.rs:124-128 | POP loads the word at SP into the pair and moves SP up by two, in two cycles |
| Cpu.Cpu.RunArith | src/cpu/executor.rs:181-262 | the ALU operations set A and F to the ALU's result on A and the operand |
| Cpu.Cpu.RunInc8 | src/cpu/executor.rs:130-137 | INC writes the location plus one back and keeps C; an (HL) operand costs a read and a write |
| Cpu.Cpu.RunDec8 | src/cpu/executor.rs:139-146 | DEC writes the location minus one back and keeps C |
| Cpu.Cpu.RunDaa | src/cpu/executor.rs:264-282 | DAA sets A and F to the decimal adjustment of A |
| Cpu.Cpu.RunScf | src/cpu/executor.rs:284-286 | SCF as written (`Alu.Scf`): Z kept, N, H and C all cleared |
| Cpu.Cpu.RunCpl | src/cpu/executor.rs:288-294 | CPL complements A and sets N and H |
| Cpu.Cpu.RunCcf | src/cpu/executor.rs:296-298 | CCF flips C and clears N and H |
| Cpu.Cpu.RunIncDec16 | src/cpu/executor.rs:148-158 | INC rr and DEC rr step the pair or SP by one, wrapping, keep every flag, and cost one cycle |
| Cpu.Cpu.RunAddHl | src/cpu/executor.rs:160-169 | ADD HL,rr sets HL and F to the 16-bit sum and its carries after one internal cycle |
| Cpu.Cpu.RunAddSp | src/cpu/executor.rs:171-179 | ADD SP,e sets SP to SP plus the signed offset, with the low-byte carries in H and C |
| Cpu.Cpu.RunRotateShift | src/cpu/executor.rs:300-391 | a CB shift or rotate writes the shifted value back to its location and sets F from it |
| Cpu.Cpu.RunRotateA | src/cpu/executor.rs:309-353 | RLCA, RRCA, RLA and RRA rotate A as the CB form does and clear Z, touching no memory |
| Cpu.Cpu.RunBit | src/cpu/executor.rs:392-403 | BIT n sets Z exactly when bit n of the location is clear, keeping C |
| Cpu.Cpu.RunResSet | src/cpu/executor.rs:404-419 | RES and SET change only bit n of the location and keep F |
| Cpu.Cpu.RunJr | src/cpu/executor.rs:20-27 | JR adds the signed offset to the next PC when the condition holds, spending an extra cycle |
| Cpu.Cpu.RunJp | src/cpu/executor.rs:29-35 | JP loads the target into PC when the condition holds, else skips it |
| Cpu.Cpu.RunJpHl | src/cpu/executor.rs:37-41 | JP (HL) sets PC to HL |
| Cpu.Cpu.RunCall | src/cpu/executor.rs:79-87 | a taken CALL pushes the return address and jumps to the target in five cycles; otherwise it skips the target |
| Cpu.Cpu.RunRet | src/cpu/executor.rs:43-69 | a taken RET pops PC and moves SP up by two; RET cc not taken changes neither |
| Cpu.Cpu.RunReti | src/cpu/executor.rs:71-77 | RETI pops PC and sets IME at once |
| Cpu.Cpu.RunRst | src/cpu/executor.rs:89-95 | RST pushes PC and jumps to its vector in three cycles |
| Cpu.Cpu.HandleInterrupt | src/cpu/mod.rs:33-48 | dispatch moves the state and memory exactly as `Dispatch` says, in five cycles |
| Cpu.Cpu.FetchOpcode | src/cpu/mod.rs:81-90 | the opcode is the byte at PC; PC moves on unless the halt bug is active, which is then cleared |
| Cpu.Cpu.BeginStep | src/cpu/mod.rs:50-80 | the part of `step` before the fetch moves the state, the memory and the cycle count exactly as `BeforeFetch` says and reports whether an opcode is fetched |
| Cpu.Cpu.Execute | src/cpu/mod.rs:93-409 | an opcode executes exactly when it is legal; NOP and illegal opcodes change nothing, HALT halts or sets the halt bug, DI clears IME and the countdown, EI starts a two-step countdown |
| Cpu.Cpu.ExecuteCb | src/cpu/mod.rs:378-397 | a CB opcode whose low three bits are 6 works on (HL) and costs a read and a write, BIT only the read; a register operand never touches memory, and BIT changes only F |
| Cpu.Cpu.ExecuteData | src/cpu/mod.rs:128-229 | PUSH moves SP down two and leaves its operand as the word on top of the stack; POP to a pair reads two bytes and writes none; LD between locations moves neither PC nor SP |
| Cpu.Cpu.ExecuteOther | src/cpu/mod.rs:228-318 | the 8-bit arithmetic, DAA, SCF, CPL, CCF and rotate arms never move SP, and move PC only past an immediate operand or the CB byte |
| Cpu.Cpu.ExecuteBranch | src/cpu/mod.rs:344-377 | a branch leaves the register file alone; JP (HL) jumps to HL; CALL nn and RST push the address of the next instruction and jump; RET and RETI pop PC, RETI also setting IME |
| Cpu.Cpu.Step | src/cpu/mod.rs:50-91 | a step is `BeforeFetch` and then, when it fetches, one instruction at the resulting PC: a halted CPU with nothing pending only spends the cycle and runs the EI countdown; otherwise the step fails exactly on an illegal opcode at the PC after any dispatch, and a NOP there only moves PC (or clears the halt bug) in one more cycle; DI clears IME and the EI countdown, EI sets the countdown to 2, and HALT halts, or with IME off and an interrupt pending arms the halt bug, each in one cycle with memory unchanged |

## Left out

- The CPU runs over `BusView`: a flat 64 KiB memory plus a cycle count.
  - Device ticks, the address map and the panics of unmapped IO are modelled in `Mmu` and `RustMmu` on their own.
  - The model does not combine them with the CPU.
- src/mmu.rs `tick` ignores the value returned by `ppu.step`.
  - So in the src tree the PPU never raises VBlank or STAT interrupts.
  - `Mmu.Bus.Tick` keeps that behaviour.
- The `async` machinery is not modelled: `Yield` at a frame boundary, `frame_ready` and `SharedFrameBuffer` locking.
  - A frame boundary is the swap of the front buffer and a frame count.
- `last_frame_time` (`Instant`) is a clock and is never read.
- These parts are not modelled:
  - the sprite buffer and sprite rendering (`Sprite`), which the source declares but never draws;
  - the serial `log_buffer` and its `info!` logging;
  - the log warning of STOP.
- The sound unit (`Apu`) of rust/src/mmu.rs is not part of this model.
  - A read of FF10-FF26 on the rust bus is `None`.
  - A write there changes nothing.
- RustMmu.DmaCopyStep: a DMA copy from a source the model cannot read (a sound register, or a ROM index past the image) makes the tick fail. The source's sound-unit read is not modelled, and its out-of-range ROM read panics.
- The cartridge, timer, serial port and joypad of the rust/ tree are not part of this model. The src/ tree's models stand in for them on the rust bus.
- Serial.StepSerial: the shift counter wraps as a `u8` would. The source's debug-build overflow panic is not modelled.
- PPU dot counters are unbounded naturals rather than `u32`. A blank line resets them every 456 dots. But once either PPU enters Drawing it never leaves (`Ppu.StuckOnLineZero`, `RustPpu.DrawingNeverEnds`), so the counter then grows without bound. The debug-build overflow panic after 2^32 dots (about 17 minutes of emulated time) is not modelled.
- FetcherRowAfterEightCalls: stated over the intended fetcher (`FetcherTickIntended`). The fetcher as written pushes no row; `FetcherTileAfterEightCalls` states that.
- Cpu.Cpu.BeginStep: in the flat bus view a tick changes only the cycle count. So the pending mask a halted CPU reads after its tick is the one from before it; a timer or serial request raised by that tick is not modelled.
- After a panic (`ok` false, or `None`) the classes' methods leave their state unspecified. The source stops there, so nothing after the panic is modelled.
- RustPpu.RustDot: the rust PPU's Drawing mode has an empty body, so it is never left; the model keeps that.
- RustFetcher.Fetcher.Step: the rust fetcher's `start` has an empty body. The model does not give it any behaviour.
- These files are not part of this model; the model uses stand-ins:
  - src/io/ppu/fetcher.rs: the inline fetcher of src/io/ppu.rs stands in for it;
  - src/cartridge/mbc/mbc0.rs: rust/src/cartridge/mbc/mbc0.rs stands in for it.
- src/io/ppu/mod.rs holds the same `Ppu` code as src/io/ppu.rs. It is modelled once, citing src/io/ppu.rs.
- Cpu.Cpu.Step: states the whole step for NOP, HALT, DI and EI; the other instructions' effects are stated on `Execute`'s executors and the `Run*` methods they call.
- Cpu.Cpu.ExecuteCb: states the bus traffic and what stays unchanged; the result written to the operand is stated on `RunRotateShift`, `RunBit` and `RunResSet`.
- Cpu.Cpu.ExecuteData: states PUSH, POP and the register loads; the other arms' effects are stated on the `Run*` methods they call.
- Cpu.Cpu.ExecuteOther: states what PC and SP do; the flags and values are stated on the `Run*` methods the arms call.
- Cpu.Cpu.ExecuteBranch: states JP (HL), CALL nn, RST, RET and RETI; the conditional forms and JR are stated on `RunJr`, `RunJp`, `RunCall` and `RunRet`.
- RustMmu.Bus.ReadIo: the Game Boy Color registers read 0 and ignore writes, as in the source. Their CGB behaviour is not modelled.

## Findings

| source | as written | input that shows it | evidently intended | confidence | as-written member | corrected member |
|---|---|---|---|---|---|---|
| src/cpu/executor.rs:284-286 | SCF calls `update_flags(None, Some(false), Some(false), Some(false))`, which clears the carry flag | any flags, e.g. C = 0: after SCF, `JP C` is not taken | SCF sets C (`Some(true)`) and clears N and H | high (not executed) | Alu.Scf, Alu.ScfClearsCarry | Alu.ScfIntended |
| src/io/timer.rs:62-63 | the clock-select arms are the hex literals `0x10` and `0x11`, which `timer_control & 0b11` never equals | TAC = 0x06 (enabled, select 2): the match reaches `unreachable!()` | the binary values `0b10` and `0b11`, selecting counter bits 5 and 7 | high (not executed) | Timer.TacBitIndexAsWritten, Timer.HexTacArms | Timer.TacBitIndex |
| src/io/ppu.rs:135 | the pixel push loop is `for i in 8..0`, an empty range | any tile row: no pixel ever reaches the FIFO | `(0..8).rev()`, pushing bit 7 first | high (not executed) | Ppu.Fetcher.PushRowAsWritten | Ppu.Fetcher.PushRow |
| src/io/ppu.rs:115 | the tile row is `(r_ly + r_scy) % 8` with a plain `u8` addition | LY = 100, SCY = 200: the sum overflows and a debug build panics. This is latent behind the src/io/ppu.rs:135 bug: as written the PPU never leaves LY 0 (`Ppu.StuckOnLineZero`), so LY + SCY stays below 256 until the push loop is fixed | a wrapping addition, as the map row already uses | medium (not executed) | Ppu.TileRowAsWritten, Ppu.TileRowOverflow | Ppu.TileRow |
| src/io/ppu.rs:389 | a STAT read ORs the stored `r_stat` with the mode, and `new()` (line 240) stores 0b1000_0101, whose bit 0 is never cleared | a STAT read during OAM scan (the first 80 dots after power-on): bits 1-0 read 11 (drawing) instead of 10. HBlank, where they would read 01, is never reached as written (`Ppu.StuckOnLineZero`) | bits 1-0 come from the mode alone | medium (not executed) | Ppu.ReadStatAsWritten, Ppu.StatModeBitsStuck | Ppu.ReadStat |
| src/cpu/executor.rs:84 | CALL (line 84), RST (line 92), PUSH (line 121) and `write_word_dest` for `LD (nn),SP` (line 512) call `write_u16(addr, value)` with two arguments, but the definition at src/mmu.rs:95 takes a third, `le`; only dispatch (src/cpu/mod.rs:38) passes one | any of those instructions: the crate does not compile, so no byte order is defined | the stack pushes pass `false` (high byte first) like dispatch, and `LD (nn),SP` passes `true` (low byte first), as the definition's comments assign | high (not executed) | Cpu.WrittenOrder | Cpu.IntendedOrder, Cpu.IntendedOrderExtendsWritten |
