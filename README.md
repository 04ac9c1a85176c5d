# atechip: a model of two CHIP-8 interpreters

atechip ships two CHIP-8 interpreters that share the same instruction set:

- a C++/SDL program (`atechip/main.cpp`);
- a browser script (`main.js`).

Each one holds a 4 KiB memory and sixteen 8-bit registers V0..VF. It also holds a PC, an index register I, a call stack and a 64×32 monochrome screen. One call of `cycle` fetches the big-endian instruction word at PC, advances PC by two and executes the word.

This project models both interpreters in Dafny.

- **`Bytes`**: byte arithmetic. It covers 8- and 16-bit wrap-around, bitwise operators, sprite bits, binary-coded decimal and copies into memory.
- **`Isa`**: the instruction set. It holds the instruction datatype, its encoding, the word's nibble fields, and the `Result`/`Status` types that both interpreters return.
- **`Framebuffer`**: the screen. It is a flat row-major sequence of 2048 pixels, with the XOR plotting and wrap-around addressing used by `Dxyn`. It also holds the characterisation of a drawn sprite as a set of cell flips.
- **`AteChip`**: the C++ interpreter. The pure functions `Initial`, `Loaded` (`start`), `Step` (`cycle`), `Tick` and `KeyPressed`/`KeyReleased` are the specification. The class `AteChip.Chip8` keeps the C++ globals as fields and as arrays. Its methods update them in place and are proved against those functions.
- **`AteChipProperties`**: what the C++ interpreter guarantees. It covers decoding inverting encoding and what `Dxyn` does to the screen, together with each instruction's effect, its error cases and its round trips.
- **`WebChip`**: the script. It follows the same layout as `AteChip`.
- **`WebChipProperties`**: the script's own guarantees. It also proves that the two interpreters agree on every instruction both of them handle, except where their code differs. For those places it gives concrete states on which they disagree.

Both programs' code sets VF on every pixel that `Dxyn` writes. VF therefore reports only whether the last bit of the sprite turned a lit pixel off. The model keeps that behaviour (`CollisionOnlyLastBit`).

## Model

| member | source | states |
|---|---|---|
| Bytes.Wrap8 | atechip/main.cpp:238-240 | the result is the input when the input is a byte, and is always congruent to it modulo 256 |
| Bytes.Wrap16 | atechip/main.cpp:324-326 | the result is the input when the input fits in 16 bits, and is always congruent to it modulo 65536 |
| Bytes.SpriteBit | atechip/main.cpp:296 | bit j of a sprite row is binary digit 7 − j of the byte (the row shifted right by 7 − j, masked with 1), so bit 0 is the most significant bit and bit 7 the least |
| Bytes.BcdDigits | atechip/main.cpp:330-334 | the three digits are decimal digits (hundreds at most 2) whose weighted sum is the byte |
| Bytes.Overlay | main.js:58-61 | the data lands at the given offset and every other cell keeps its value |
| Bytes.OverlayOwnPrefix | atechip/main.cpp:338-340 | writing back a prefix that was read from the same sequence changes nothing |
| Bytes.CopyTo | main.js:58-61 | the array afterwards is the old contents with the data overlaid at the offset |
| Isa.Join | atechip/main.cpp:192-193 | the high byte of the word is the first byte and the low byte is the second |
| Isa.SplitJoinBytes | atechip/main.cpp:192-193 | every 16-bit word is rebuilt from its high and low bytes |
| Isa.JoinSplit | atechip/main.cpp:196-201 | the four nibble fields and the low byte read back from a word built from four nibbles |
| Isa.AddrSplit | atechip/main.cpp:196-201 | the family nibble and the 12-bit address read back from a word built from them |
| Isa.SplitJoin | atechip/main.cpp:196-201 | every word is rebuilt from its four nibbles |
| Framebuffer.Cell | atechip/main.cpp:293-294 | a wrapped coordinate pair always names a cell of the 64×32 screen |
| Framebuffer.CellCoords | atechip/main.cpp:293-294 | the cell's row is the y coordinate modulo 32 and its column is the x coordinate modulo 64 |
| Framebuffer.Blank | atechip/main.cpp:206-212 | the blank screen has 2048 pixels, all dark |
| Framebuffer.Clear | main.js:88-97 | after the clear, the screen array is the blank screen |
| Framebuffer.SpriteRows | atechip/main.cpp:290-291 | the sprite has exactly n rows, and row i is the memory byte at I + i |
| Framebuffer.Plot | atechip/main.cpp:296-299 | writing one sprite bit keeps the screen's size |
| Framebuffer.PlotAt | atechip/main.cpp:296-299 | one sprite bit written into a canvas keeps it sized; its effect is stated by `PlotAtEffect` |
| Framebuffer.PlotAtEffect | atechip/main.cpp:296-299 | plotting XORs the bit into one cell and leaves every other cell alone; VF becomes 1 exactly when a lit pixel was switched off; no other register changes |
| Framebuffer.PlotClearBit | atechip/main.cpp:296-299 | a clear sprite bit leaves the screen as it was and only resets VF to 0 |
| Framebuffer.SpriteCell | atechip/main.cpp:293-294 | the cell of a sprite bit is on the screen |
| Framebuffer.RowFlipsOutside | atechip/main.cpp:292-300 | a cell that no bit of a sprite row addresses is not flipped by that row |
| Framebuffer.FlipsOutside | atechip/main.cpp:290-301 | a cell that no bit of the sprite addresses is not flipped by the sprite |
| Framebuffer.CellsDistinct | atechip/main.cpp:293-294 | two different bits of a sprite of at most 32 rows land on different cells |
| Framebuffer.RowFlipsAt | atechip/main.cpp:292-300 | the cell of bit `col` of a row is flipped exactly when that bit is set |
| Framebuffer.FlipsAt | atechip/main.cpp:290-301 | the cell of bit `col` of row `r` is flipped exactly when that bit of that row is set |
| AteChip.Initial | atechip/main.cpp:70-83 | the initial state is well formed and not started. All registers, all of memory, every pixel, every key, both timers and I are zero. PC is 0x200, the stack is empty and no key counts as last pressed |
| AteChip.Loaded | atechip/main.cpp:175-184 | the font is at 0, the ROM at 0x200, the rest of memory is unchanged and the machine is started; a ROM over 3584 bytes is refused with ProgramTooLarge and nothing else is |
| AteChip.Decode | atechip/main.cpp:196-342 | the dispatch of `cycle` on the family nibble, the low nibble or the low byte; `AteChipProperties.DecodeEncode` proves that it recovers every instruction from its encoding |
| AteChip.SkipIf | atechip/main.cpp:226-234 | a skip changes only PC, and it moves PC exactly when the condition holds |
| AteChip.PlotBit | atechip/main.cpp:293-299 | one sprite bit, with V[x] and V[y] read again for it, keeps the canvas sized |
| AteChip.RowDrawn | atechip/main.cpp:292-300 | the bit loop of one row keeps the canvas sized; `AteChipProperties.RowDrawnFlips` states its effect |
| AteChip.Drawn | atechip/main.cpp:290-301 | the row loop of Dxyn keeps the canvas sized; `AteChipProperties.DrawnFlips` states its effect |
| AteChip.Sprite | atechip/main.cpp:289-302 | Dxyn on the whole machine keeps it well formed |
| AteChip.Fetch | atechip/main.cpp:192-193 | the word's high byte is memory[PC] and its low byte is memory[PC+1] |
| AteChip.Execute | atechip/main.cpp:204-342 | every instruction keeps the state well formed and leaves the keypad, the last key and the started flag alone |
| AteChip.ExecuteDisplay | atechip/main.cpp:206-212 | 00E0 and Dxyn keep the state well formed and leave the keypad alone |
| AteChip.ExecuteFlow | atechip/main.cpp:213-225 | 00EE, 1nnn, 2nnn and Bnnn keep the state well formed and leave the keypad alone |
| AteChip.ExecuteSkip | atechip/main.cpp:226-311 | the skips keep the state well formed and leave the keypad alone |
| AteChip.ExecuteLoad | atechip/main.cpp:235-254 | 6xkk, 7xkk, 8xy0-8xy3 and Cxkk keep the state well formed and leave the keypad alone |
| AteChip.ExecuteArith | atechip/main.cpp:255-270 | 8xy4, 8xy5 and 8xy7 keep the state well formed and leave the keypad alone |
| AteChip.ExecuteShift | atechip/main.cpp:263-274 | 8xy6 and 8xyE keep the state well formed and leave the keypad alone |
| AteChip.ExecuteIndexTimer | atechip/main.cpp:280-329 | Annn, Fx1E, Fx29 and the timer instructions keep the state well formed and leave the keypad alone |
| AteChip.ExecuteMemory | atechip/main.cpp:330-340 | Fx33, Fx55 and Fx65 keep the state well formed and leave the keypad alone |
| AteChip.Step | atechip/main.cpp:187-344 | before `start` a cycle changes nothing; a PC with no room for a word faults; a step that succeeds keeps the state well formed and leaves the keypad alone |
| AteChip.Tick | atechip/main.cpp:129-133 | each timer counts down by one while it is non-zero, stays at zero otherwise, and nothing else changes |
| AteChip.KeyPressed | atechip/main.cpp:104-108 | a key-down event for 0..F sets that key and makes it the last key, and no other key changes; other key codes are ignored |
| AteChip.KeyReleased | atechip/main.cpp:110-114 | a key-up event for 0..F clears that key and resets the last key, and no other key changes; other key codes are ignored |
| AteChip.Chip8.constructor | atechip/main.cpp:70-83 | the new interpreter holds the initial state |
| AteChip.Chip8.Start | atechip/main.cpp:175-184 | the status and the new state are those of `Loaded`; a refused ROM leaves the state unchanged |
| AteChip.Chip8.Cycle | atechip/main.cpp:187-344 | the status and the new state are those of `Step`; a faulting step leaves the state unchanged |
| AteChip.Chip8.Run | atechip/main.cpp:204-342 | the new state is that of `Execute` on the decoded instruction |
| AteChip.Chip8.RunControl | atechip/main.cpp:204-311 | the new state is that of `Execute` for the display, flow and skip instructions |
| AteChip.Chip8.RunData | atechip/main.cpp:235-340 | the new state is that of `Execute` for the register, index, timer and memory instructions |
| AteChip.Chip8.RunDisplay | atechip/main.cpp:206-212 | the new state is that of `ExecuteDisplay` |
| AteChip.Chip8.RunFlow | atechip/main.cpp:213-225 | the new state is that of `ExecuteFlow` |
| AteChip.Chip8.RunSkip | atechip/main.cpp:226-234 | the new state is that of `ExecuteSkip` |
| AteChip.Chip8.RunLoad | atechip/main.cpp:235-254 | the new state is that of `ExecuteLoad` |
| AteChip.Chip8.RunArith | atechip/main.cpp:255-270 | the new state is that of `ExecuteArith` |
| AteChip.Chip8.RunShift | atechip/main.cpp:263-274 | the new state is that of `ExecuteShift` |
| AteChip.Chip8.RunIndexTimer | atechip/main.cpp:280-329 | the new state is that of `ExecuteIndexTimer` |
| AteChip.Chip8.RunMemory | atechip/main.cpp:330-340 | the new state is that of `ExecuteMemory` |
| AteChip.Chip8.DrawSprite | atechip/main.cpp:289-302 | the registers and the screen afterwards are the sprite drawn row by row (`Drawn`) |
| AteChip.Chip8.DrawRow | atechip/main.cpp:292-300 | the registers and the screen afterwards are the row drawn bit by bit (`RowDrawn`) |
| AteChip.Chip8.DrawBit | atechip/main.cpp:293-299 | the registers and the screen afterwards are the bit plotted at its wrapped cell |
| AteChip.Chip8.TickTimers | atechip/main.cpp:129-133 | the new state is `Tick` of the old one |
| AteChip.Chip8.PressKey | atechip/main.cpp:104-108 | the new state is `KeyPressed` of the old one |
| AteChip.Chip8.ReleaseKey | atechip/main.cpp:110-114 | the new state is `KeyReleased` of the old one |
| AteChipProperties.RowDrawnFlips | atechip/main.cpp:292-300 | drawing a row leaves V0..VE alone and flips exactly the cells that `RowFlips` names |
| AteChipProperties.DrawnFlips | atechip/main.cpp:290-301 | drawing a sprite leaves V0..VE alone and flips exactly the cells that `Flips` names |
| AteChipProperties.DrawnLastCollision | atechip/main.cpp:290-301 | with X and Y not VF and at most 32 rows, VF after the draw is 1 exactly when the last bit of the last row is set and its cell was lit before |
| AteChipProperties.DrawXors | atechip/main.cpp:289-302 | with X and Y not VF, each covered cell is XORed with its sprite bit and every other cell keeps its pixel. V0..VE are unchanged. VF is the collision of the last bit of the last row, or is unchanged for n = 0 |
| AteChipProperties.DrawTwiceRestores | atechip/main.cpp:289-302 | with X and Y not VF, drawing the same sprite twice restores the screen |
| AteChipProperties.CollisionOnlyLastBit | atechip/main.cpp:297-298 | a one-row sprite 0x80 drawn over a lit pixel at (0,0) turns it off, but VF ends at 0 because the seven later bits overwrite it |
| AteChipProperties.ClearBitsKeep | atechip/main.cpp:292-300 | once VF is 0, clear bits of a row change nothing |
| AteChipProperties.RowFromFlagMovesAnchor | atechip/main.cpp:292-300 | with X = VF, the row 0xC0 over a lit origin sets VF to 1 with its first bit, so its second bit lights column 2 instead of column 1 |
| AteChipProperties.DrawFromFlagMovesAnchor | atechip/main.cpp:289-302 | the same on the whole machine: D F 1 1 leaves cell 0 dark, cell 1 dark and cell 2 lit, with VF = 0 |
| AteChipProperties.DecodeEncode | atechip/main.cpp:204-342 | decoding the encoding of any instruction gives it back, Unknown included (its word 0000 decodes to Unknown) |
| AteChipProperties.DecodeEncodeSystem | atechip/main.cpp:204-216 | decoding inverts encoding for 00E0, 00EE and Unknown, whose word 0000 no case of family 0 handles |
| AteChipProperties.DecodeEncodeAddress | atechip/main.cpp:219-285 | decoding inverts encoding for 1nnn, 2nnn, Annn and Bnnn |
| AteChipProperties.DecodeEncodeImmediate | atechip/main.cpp:226-288 | decoding inverts encoding for 3xkk, 4xkk, 6xkk, 7xkk and Cxkk |
| AteChipProperties.DecodeEncodeRegisters | atechip/main.cpp:232-302 | decoding inverts encoding for 5xy0, 9xy0 and Dxyn |
| AteChipProperties.DecodeEncodeAlu | atechip/main.cpp:243-274 | decoding inverts encoding for the 8xy_ family |
| AteChipProperties.DecodeEncodeMisc | atechip/main.cpp:303-340 | decoding inverts encoding for the Ex and Fx families |
| AteChipProperties.StepExecutesFetched | atechip/main.cpp:187-204 | after `start`, a cycle on an encoded instruction at PC executes that instruction with PC advanced by 2 |
| AteChipProperties.StepIgnoresSys | atechip/main.cpp:204-218 | a family-0 word other than 00E0/00EE only advances PC |
| AteChipProperties.SkipOnlyMovesPc | atechip/main.cpp:226-311 | a skip fails with KeyOutOfRange exactly when a key skip's Vx is above 15. Otherwise it moves PC by 2 (mod 2^16) exactly when its condition holds: Vx = kk, Vx ≠ kk, Vx = Vy, Vx ≠ Vy, the key Vx held, the key Vx up. It changes nothing else |
| AteChipProperties.SkipsAdvance | atechip/main.cpp:187-311 | after `start`, a cycle on a skip at PC moves PC by 4 when its condition holds and by 2 otherwise; a key skip with Vx above 15 faults |
| AteChipProperties.SkipsComplement | atechip/main.cpp:226-279 | of 3xkk/4xkk, and of 5xy0/9xy0, exactly one skips; 5xx0 always skips |
| AteChipProperties.KeySkipsFollowPad | atechip/main.cpp:104-114 | after a key-down for V[x], Ex9E skips and ExA1 does not; after the key-up it is the other way round |
| AteChipProperties.AddRegCarries | atechip/main.cpp:255-258 | with X and Y not VF, Vx becomes the sum mod 256 and VF is 1 exactly when the sum exceeds 255 |
| AteChipProperties.SubBorrows | atechip/main.cpp:259-262 | with X and Y not VF, Vx becomes Vx−Vy mod 256 and VF is 1 exactly when Vx > Vy |
| AteChipProperties.SubReverseBorrows | atechip/main.cpp:267-270 | with X and Y not VF, Vx becomes Vy−Vx mod 256 and VF is 1 exactly when Vy > Vx |
| AteChipProperties.ShiftsKeepBits | atechip/main.cpp:263-274 | 8xy6 keeps the shifted-out low bit in VF and halves Vx; 8xyE keeps the high bit and doubles Vx mod 256 |
| AteChipProperties.AddRegIntoFlag | atechip/main.cpp:255-258 | for every Y other than VF, 8Fy4 writes the carry of VF + Vy first and then adds Vy to it, so VF ends as carry + Vy mod 256 and nothing else changes |
| AteChipProperties.AddRegFromFlag | atechip/main.cpp:255-258 | for every X other than VF, 8xF4 writes the carry of Vx + VF first and then adds that carry, so Vx ends as Vx + carry mod 256 and the old VF is never added |
| AteChipProperties.CallThenReturn | atechip/main.cpp:213-225 | 2nnn pushes PC and jumps, and 00EE then restores the state; 00EE on an empty stack faults |
| AteChipProperties.StoreBcdDigits | atechip/main.cpp:330-334 | Fx33 faults exactly when I+2 is out of memory; otherwise it writes the three decimal digits of Vx at I |
| AteChipProperties.StoreRegsWrites | atechip/main.cpp:335-337 | Fx55 faults exactly when I+x is out of memory; otherwise it writes V0..Vx at I and changes nothing else |
| AteChipProperties.StoreThenLoadRegs | atechip/main.cpp:335-340 | when it succeeds, Fx65 right after Fx55 changes nothing |
| AteChipProperties.StoreThenLoadMemory | atechip/main.cpp:335-340 | on the memory instructions alone, Fx55 writes V0..Vx at I and Fx65 right after it changes nothing |
| AteChipProperties.LoadRegsReads | atechip/main.cpp:338-340 | Fx65 faults exactly when I+x is out of memory; otherwise it reads V0..Vx from I and changes nothing else |
| AteChipProperties.FontCharFindsGlyph | atechip/main.cpp:327-329 | after `start`, Fx29 points I at the five bytes of the glyph for digit Vx |
| AteChipProperties.TicksCountDown | atechip/main.cpp:129-133 | n ticks take each timer down by n, stopping at zero, and change nothing else |
| AteChipProperties.TimerTransfers | atechip/main.cpp:315-323 | Fx07 copies the delay timer into Vx, and Fx15 and Fx18 copy Vx into the delay and sound timers, with nothing else changed. A value set by Fx15 reads back with Fx07 into any register, and that many ticks run it down to zero |
| AteChipProperties.PressThenRelease | atechip/main.cpp:104-114 | a key-down and then a key-up of the same key leave the keypad as it was, with no last key |
| WebChip.Initial | main.js:11-33 | zeroed registers, memory and screen, PC at 512, I at 0, an empty stack |
| WebChip.Loaded | main.js:53-61 | the ROM lands at PC, the font below it and the rest of memory is unchanged; an image that runs past memory is refused with ProgramTooLarge |
| WebChip.Handled | main.js:86-295 | the instructions the script's switch has a case for (a predicate; `Execute` changes nothing for the rest) |
| WebChip.Fetch | main.js:68-69 | the word's high byte is memory[PC] and its low byte is memory[PC+1] |
| WebChip.Decode | main.js:73-295 | every word decodes to an instruction the script has a case for, or to Unknown |
| WebChip.SkipIf | main.js:120-140 | a skip changes only PC, never lowers it, and moves it exactly when the condition holds |
| WebChip.RowDrawn | main.js:238-250 | drawing a row keeps the canvas sized |
| WebChip.RowFrom | main.js:234-251 | drawing row i, with base coordinates V[x] and V[y]+i, keeps the canvas sized |
| WebChip.Drawn | main.js:236-251 | drawing a sprite keeps the canvas sized |
| WebChip.Sprite | main.js:233-252 | Dxyn keeps the state well formed |
| WebChip.Execute | main.js:86-295 | every instruction keeps the state well formed; a word the script has no case for changes nothing |
| WebChip.ExecuteDisplay | main.js:88-97 | 00E0 and Dxyn keep the state well formed |
| WebChip.ExecuteFlow | main.js:98-119 | 00EE, 1nnn and 2nnn keep the state well formed |
| WebChip.ExecuteSkip | main.js:120-222 | the skips keep the state well formed |
| WebChip.ExecuteLoad | main.js:141-232 | 6xkk, 7xkk, 8xy0-8xy3 and Cxkk keep the state well formed |
| WebChip.ExecuteArith | main.js:174-209 | 8xy4, 8xy5, 8xy6 and 8xyE keep the state well formed |
| WebChip.ExecuteIndex | main.js:223-264 | Annn, Fx1E and Fx29 keep the state well formed |
| WebChip.ExecuteMemory | main.js:265-285 | Fx33, Fx55 and Fx65 keep the state well formed |
| WebChip.Step | main.js:66-78 | a PC with no room for a word faults, and a step that succeeds keeps the state well formed |
| WebChip.Reported | main.js:286-295 | a fault is reported exactly when the step failed, and a warning exactly when it succeeded on an instruction without a case |
| WebChip.CycleStatus | main.js:66-312 | `cycle` reports a fault exactly when its step fails, with that step's error |
| WebChip.Chip8.constructor | main.js:11-33 | the new interpreter holds the initial state |
| WebChip.Chip8.Load | main.js:53-61 | the status and the new state are those of `Loaded` |
| WebChip.Chip8.Cycle | main.js:66-312 | the status is `CycleStatus` and the new state is that of `Step`; a faulting step leaves the state unchanged |
| WebChip.Chip8.Run | main.js:86-295 | the status is `Reported` and the new state is that of `Execute` |
| WebChip.Chip8.RunDisplay | main.js:88-97 | the new state is that of `ExecuteDisplay` |
| WebChip.Chip8.RunFlow | main.js:98-119 | the new state is that of `ExecuteFlow` |
| WebChip.Chip8.RunSkip | main.js:120-222 | the new state is that of `ExecuteSkip` |
| WebChip.Chip8.RunLoad | main.js:141-232 | the new state is that of `ExecuteLoad` |
| WebChip.Chip8.RunArith | main.js:174-209 | the new state is that of `ExecuteArith` |
| WebChip.Chip8.RunIndex | main.js:223-264 | the new state is that of `ExecuteIndex` |
| WebChip.Chip8.RunMemory | main.js:265-285 | the new state is that of `ExecuteMemory` |
| WebChip.Chip8.DrawSprite | main.js:233-252 | the registers and the screen afterwards are the sprite drawn row by row (`Drawn`) |
| WebChip.Chip8.DrawRow | main.js:238-250 | the registers and the screen afterwards are the row drawn bit by bit (`RowDrawn`) |
| WebChip.Chip8.DrawBit | main.js:239-249 | the registers and the screen afterwards are the bit plotted at its wrapped cell |
| WebChipProperties.DecodeAgrees | main.js:73-295 | the script decodes a word as the C++ program does whenever it has a case for it, and as Unknown otherwise |
| WebChipProperties.DecodeEncode | main.js:73-295 | decoding inverts encoding for every instruction the script handles |
| WebChipProperties.RowAgrees | main.js:238-250 | with X and Y not VF, the script's row loop draws the same pixels as the C++ loop, which rereads V[x] and V[y] for every bit |
| WebChipProperties.DrawAgrees | main.js:233-252 | with X and Y not VF, the script draws the same sprite as the C++ program |
| WebChipProperties.Project | main.js:11-33 | the C++ state restricted to what the script keeps is a well-formed script state |
| WebChipProperties.Lift | main.js:66-312 | a projected result succeeds exactly when the original does and keeps its error |
| WebChipProperties.ExecuteAgrees | main.js:86-295 | on every instruction both interpreters handle, the script's effect is the C++ effect projected, outside the VF-operand and 16-bit cases where the code differs |
| WebChipProperties.DisplayAgrees | main.js:88-97 | 00E0 and Dxyn agree in the two interpreters |
| WebChipProperties.FlowAgrees | main.js:98-119 | 00EE, 1nnn and 2nnn agree in the two interpreters |
| WebChipProperties.SkipAgrees | main.js:120-222 | the register skips agree while PC+2 fits in 16 bits |
| WebChipProperties.LoadAgrees | main.js:141-232 | the load, bitwise and random instructions agree |
| WebChipProperties.ArithAgrees | main.js:174-195 | 8xy4 and 8xy5 agree when neither operand is VF |
| WebChipProperties.ShiftAgrees | main.js:196-209 | 8xy6 and 8xyE agree |
| WebChipProperties.IndexAgrees | main.js:223-264 | Annn, Fx1E and Fx29 agree while I+Vx fits in 16 bits |
| WebChipProperties.MemoryAgrees | main.js:265-285 | Fx33, Fx55 and Fx65 agree |
| WebChipProperties.StepAgrees | main.js:66-312 | after `start`, one cycle of the script is the projected C++ cycle for every comparable instruction at PC |
| WebChipProperties.AddRegFromFlagDiffers | main.js:174-184 | with V0 = 0x10 and VF = 5, 80F4 leaves V0 at 0x10 in C++ (the flag is written first) but makes it 0x15 in the script |
| WebChipProperties.AddIndexDiffers | main.js:255-259 | with I = 0xFFFF and Vx = 1, Fx1E wraps I to 0 in C++ but makes it 0x10000 in the script |
| WebChipProperties.StepExecutesFetched | main.js:66-312 | a cycle on an encoded instruction at PC executes it with PC advanced by 2 when the script handles it, and otherwise only advances PC and reports a warning |
| WebChipProperties.UnhandledOnlyAdvances | main.js:286-295 | a word without a case only advances PC and is reported as a warning |
| WebChipProperties.SkipsAdvance | main.js:120-222 | a skip at PC moves PC by 4 when its condition holds and by 2 otherwise |
| WebChipProperties.AddImmWraps | main.js:146-151 | 7xkk adds modulo 256 and changes nothing else, VF included |
| WebChipProperties.AddRegCarries | main.js:174-184 | with X not VF, Vx becomes the sum mod 256 and VF is 1 exactly when the sum exceeds 255 |
| WebChipProperties.SubBorrows | main.js:185-195 | with X not VF, Vx becomes Vx−Vy mod 256 and VF is 1 exactly when Vx > Vy |
| WebChipProperties.AddRegIntoFlag | main.js:174-184 | 8Fy4: the sum is computed first and then overwrites the carry flag |
| WebChipProperties.ShiftsKeepBits | main.js:196-209 | 8xy6 keeps the low bit in VF and halves Vx; 8xyE keeps the high bit and doubles Vx mod 256 |
| WebChipProperties.StoreBcdDigits | main.js:265-271 | Fx33 faults exactly when I+2 is out of memory; otherwise it writes the decimal digits of Vx at I |
| WebChipProperties.DrawXors | main.js:233-252 | with X and Y not VF, each covered cell is XORed with its sprite bit and every other cell keeps its pixel. V0..VE are unchanged. VF is the collision of the last bit of the last row, or is unchanged for n = 0 |
| WebChipProperties.DrawTwiceRestores | main.js:233-252 | with X and Y not VF, drawing the same sprite twice restores the screen |
| WebChipProperties.CollisionOnlyLastBit | main.js:247-248 | a lit pixel turned off by the first bit of a sprite row still ends with VF = 0 |
| WebChipProperties.CallThenReturn | main.js:98-119 | 2nnn pushes PC and jumps, and 00EE then restores the state; 00EE on an empty stack faults |
| WebChipProperties.StoreThenLoadRegs | main.js:272-285 | Fx55 and Fx65 fault exactly when I+x is out of memory, and Fx65 right after Fx55 changes nothing |
| WebChipProperties.FontCharFindsGlyph | main.js:260-264 | after loading a font of at least 80 bytes, Fx29 points I at the five font bytes of digit Vx |

## Left out

- Input and output are left out: SDL windowing and rendering, the HTML canvas and its redraw, and the console messages. The C++ `msg` strings and the script's `msg`/`hex` debug strings are left out for the same reason.
- The ROM file dialog and the `fetch` of `font.json` and the ROM are replaced by parameters. The script's font values are taken to be bytes.
- Timing is not modelled: the frame loop, `setTimeout`, pausing and the key bindings table. The script has no timers or keypad, so Fx07, Fx15, Fx18, Ex9E and ExA1 do not exist in `WebChip`.
- `AteChip.Execute`'s Cxkk random byte is a parameter, in place of the Mersenne Twister draw. The script's `Math.random() * 255` truncation is a parameter in 0..254 (`Roll`).
- Fx0A (wait for a key) is implemented in neither program and is decoded as an unknown word.
- Out-of-range accesses are reported as `AddressOutOfRange`, and the state is left unchanged. These are a fetch at PC ≥ 4095, a sprite, BCD or register block past 4096, and I past memory. C++ has undefined behaviour there. The script would read `undefined` (treated as 0 by its bitwise operators) or grow its arrays.
- 00EE on an empty stack is reported as `StackUnderflow`. In C++, `top()` and `pop()` on an empty `std::stack` are undefined behaviour. The script's `pop()` returns `undefined`.
- A key skip with Vx above 15 is reported as `KeyOutOfRange`, where C++ would index past `keys`.
- Neither program bounds the call stack, so neither does the model.
- AteChip.Loaded: refuses a ROM over 3584 bytes with `ProgramTooLarge`. The C++ copy does not check, and copying such a ROM would write past memory.
- WebChip.Loaded: refuses a font over 4096 bytes, and a ROM that runs past address 4095, with `ProgramTooLarge`. The script's loops instead grow the `memory` array past 4096 entries. The model keeps memory at exactly 4096 bytes, so it does not capture that growth or any later reads from the grown part.
- The script's Dxyn stores a boolean (or 0) in VF. The model stores it as 0 and 1. The script's other flag writes already store the numbers 0 and 1.
- The screen is a flat row-major sequence of 2048 cells, not 32 rows of 64.
- C++ keeps PC and I as 16-bit values that wrap. The script's numbers do not wrap. `WebChipProperties.ExecuteAgrees` therefore excludes the skips at PC ≥ 0xFFFE and Fx1E overflowing I; `AddIndexDiffers` shows the difference.
- `WebChipProperties.ExecuteAgrees` also excludes 8xy4, 8xy5 and Dxyn with an operand of VF. C++ writes VF before it reads the operands there, while the script computes the result first; `AddRegFromFlagDiffers` shows the difference.
- Where the usual CHIP-8 description of Dxyn differs from the C++ code, the model follows the code. Under that description VF reports a collision at any bit of the sprite. In the code, VF reports only the last sprite bit's collision.
