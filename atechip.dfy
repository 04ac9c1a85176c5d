/** The C++ interpreter (atechip/main.cpp): its machine state, the semantics of `start`, `cycle`,
    the 60 Hz timer tick and the keypad latch as functions on a state value, and the interpreter
    itself as a class whose methods update that state in place. */
module AteChip {
  import opened Bytes
  import opened Isa
  import opened Framebuffer

  /** The largest ROM image that fits between 0x200 and the end of memory. */
  const MaxProgramSize: nat := MemorySize - ProgramStart

  /** The keypad digits 0..F. */
  const Keys: nat := 16

  /** The built-in glyphs 0..F, five bytes each, loaded at address 0. */
  const Font: seq<u8> := [
    0xF0, 0x90, 0x90, 0x90, 0xF0, // 0
    0x20, 0x60, 0x20, 0x20, 0x70, // 1
    0xF0, 0x10, 0xF0, 0x80, 0xF0, // 2
    0xF0, 0x10, 0xF0, 0x10, 0xF0, // 3
    0x90, 0x90, 0xF0, 0x10, 0x10, // 4
    0xF0, 0x80, 0xF0, 0x10, 0xF0, // 5
    0xF0, 0x80, 0xF0, 0x90, 0xF0, // 6
    0xF0, 0x10, 0x20, 0x40, 0x40, // 7
    0xF0, 0x90, 0xF0, 0x90, 0xF0, // 8
    0xF0, 0x90, 0xF0, 0x10, 0xF0, // 9
    0xF0, 0x90, 0xF0, 0x90, 0x90, // A
    0xE0, 0x90, 0xE0, 0x90, 0xE0, // B
    0xF0, 0x80, 0x80, 0x80, 0xF0, // C
    0xE0, 0x90, 0x90, 0x90, 0xE0, // D
    0xF0, 0x80, 0xF0, 0x80, 0xF0, // E
    0xF0, 0x80, 0xF0, 0x80, 0x80  // F
  ]

  /** A snapshot of every piece of interpreter state the C++ program keeps in globals. */
  datatype Machine = Machine(
    v: seq<u8>,          // V0..VF
    memory: seq<u8>,     // 4096 bytes
    pc: u16,
    ip: u16,             // the index register I
    stack: seq<u16>,     // call stack, top last
    dt: u8,              // delay timer
    st: u8,              // sound timer
    display: seq<bool>,  // 32 rows of 64 pixels, row-major
    keys: seq<bool>,     // key 0..F held down
    lastKey: int,        // most recently pressed key, -1 after a release
    started: bool)       // a ROM has been loaded

  predicate WellFormed(m: Machine)
  {
    |m.v| == Registers && |m.memory| == MemorySize && |m.display| == Cells && |m.keys| == Keys
    && -1 <= m.lastKey < Keys
  }

  /** The globals as the program starts: everything zero, PC at 0x200, no key, no ROM. */
  function Initial(): (m: Machine)
    ensures WellFormed(m) && !m.started
    ensures m.pc == ProgramStart && m.ip == 0 && m.stack == [] && m.dt == 0 && m.st == 0 && m.lastKey == -1
    ensures forall i :: 0 <= i < Registers ==> m.v[i] == 0
    ensures forall i :: 0 <= i < MemorySize ==> m.memory[i] == 0
    ensures forall c :: 0 <= c < Cells ==> !m.display[c]
    ensures forall k :: 0 <= k < Keys ==> !m.keys[k]
  {
    Machine(seq(Registers, _ => 0), seq(MemorySize, _ => 0), ProgramStart as u16, 0, [], 0, 0,
            Blank(), seq(Keys, _ => false), -1, false)
  }

  /** `start(rom)`: the ROM is copied to 0x200, the font to 0, and the machine is marked started.
      An image that would run past the end of memory is refused with `ProgramTooLarge`. */
  function Loaded(m: Machine, rom: seq<u8>): (r: Result<Machine>)
    requires WellFormed(m)
    ensures r.Ok? <==> |rom| <= MaxProgramSize
    ensures r.Err? ==> r.error == ProgramTooLarge
    ensures r.Ok? ==> WellFormed(r.value) && r.value == m.(memory := r.value.memory, started := true)
    ensures r.Ok? ==> r.value.memory[..|Font|] == Font
    ensures r.Ok? ==> r.value.memory[ProgramStart..ProgramStart + |rom|] == rom
    ensures r.Ok? ==> forall i :: |Font| <= i < ProgramStart || ProgramStart + |rom| <= i < MemorySize ==>
                         r.value.memory[i] == m.memory[i]
  {
    if |rom| > MaxProgramSize then Err(ProgramTooLarge)
    else
      var withRom := Overlay(m.memory, ProgramStart, rom);
      var memory := Overlay(withRom, 0, Font);
      assert memory[ProgramStart..ProgramStart + |rom|] == rom by {
        forall k | 0 <= k < |rom| ensures memory[ProgramStart + k] == rom[k] {
          assert withRom[ProgramStart + k] == rom[k];
        }
      }
      Ok(m.(memory := memory, started := true))
  }

  /** The instruction word at PC, high byte first. */
  function Fetch(m: Machine): (word: u16)
    requires WellFormed(m) && m.pc + 1 < MemorySize
    ensures word / 0x100 == m.memory[m.pc] && word % 0x100 == m.memory[m.pc + 1]
  {
    Join(m.memory[m.pc], m.memory[m.pc + 1])
  }

  /** The dispatch of `cycle`: the family nibble first, then the low byte (families 0, E, F)
      or the low nibble (family 8). Every word the switch does not handle does nothing. */
  function Decode(word: u16): Instr
  {
    var x, y, n, kk, nnn := RegX(word), RegY(word), Low4(word), Low8(word), Low12(word);
    match Family(word)
    case 0x0 => if kk == 0xE0 then ClearScreen else if kk == 0xEE then Return else Unknown
    case 0x1 => Jump(nnn)
    case 0x2 => Call(nnn)
    case 0x3 => SkipEqImm(x, kk)
    case 0x4 => SkipNeImm(x, kk)
    case 0x5 => SkipEqReg(x, y)
    case 0x6 => LoadImm(x, kk)
    case 0x7 => AddImm(x, kk)
    case 0x8 =>
      if n == 0x0 then Move(x, y)
      else if n == 0x1 then Or(x, y)
      else if n == 0x2 then And(x, y)
      else if n == 0x3 then Xor(x, y)
      else if n == 0x4 then AddReg(x, y)
      else if n == 0x5 then Sub(x, y)
      else if n == 0x6 then ShiftRight(x)
      else if n == 0x7 then SubReverse(x, y)
      else if n == 0xE then ShiftLeft(x)
      else Unknown
    case 0x9 => SkipNeReg(x, y)
    case 0xA => SetIndex(nnn)
    case 0xB => JumpOffset(nnn)
    case 0xC => Random(x, kk)
    case 0xD => Draw(x, y, n)
    case 0xE => if kk == 0x9E then SkipKey(x) else if kk == 0xA1 then SkipNoKey(x) else Unknown
    case _ =>
      if kk == 0x07 then ReadDelay(x)
      else if kk == 0x15 then SetDelay(x)
      else if kk == 0x18 then SetSound(x)
      else if kk == 0x1E then AddIndex(x)
      else if kk == 0x29 then FontChar(x)
      else if kk == 0x33 then StoreBcd(x)
      else if kk == 0x55 then StoreRegs(x)
      else if kk == 0x65 then LoadRegs(x)
      else Unknown
  }

  /** `pc += 2` when `cond` holds: skips the next instruction. */
  function SkipIf(m: Machine, cond: bool): (r: Machine)
    ensures r == m.(pc := r.pc)
    ensures r.pc == m.pc <==> !cond
  {
    if cond then m.(pc := Wrap16(m.pc + 2)) else m
  }

  /** Bit `j` of sprite row `i`, whose byte is `line`, drawn: as in the C++ loop, V[x] and V[y] are read
      again for every bit, the bit is XORed into its cell and VF is set to whether that write switched
      a lit pixel off. */
  function PlotBit(c: Canvas, x: Nibble, y: Nibble, i: nat, j: nat, line: u8): (r: Canvas)
    requires Sized(c) && j < 8
    ensures Sized(r)
  {
    PlotAt(c, SpriteCell(c.v[x], c.v[y], i, j), SpriteBit(line, j))
  }

  /** The first `j` bits of sprite row `i` drawn: the inner loop of Dxyn. */
  function RowDrawn(c: Canvas, x: Nibble, y: Nibble, i: nat, line: u8, j: nat): (r: Canvas)
    requires Sized(c) && j <= 8
    ensures Sized(r)
  {
    if j == 0 then c else PlotBit(RowDrawn(c, x, y, i, line, j - 1), x, y, i, j - 1, line)
  }

  /** The first `i` rows of the sprite `rows` drawn: the outer loop of Dxyn. */
  function Drawn(c: Canvas, x: Nibble, y: Nibble, rows: seq<u8>, i: nat): (r: Canvas)
    requires Sized(c) && i <= |rows|
    ensures Sized(r)
  {
    if i == 0 then c else RowDrawn(Drawn(c, x, y, rows, i - 1), x, y, i - 1, rows[i - 1], 8)
  }

  /** Dxyn on the whole state: only the registers and the screen change. */
  function Sprite(m: Machine, x: Nibble, y: Nibble, n: Nibble): (r: Machine)
    requires WellFormed(m) && (n == 0 || m.ip + n <= MemorySize)
    ensures WellFormed(r)
  {
    var d := Drawn(Canvas(m.v, m.display), x, y, SpriteRows(m.memory, m.ip, n), n);
    m.(v := d.v, display := d.display)
  }

  /** A successful effect keeps the state well formed and leaves the keypad and the started flag alone. */
  predicate Confined(m: Machine, r: Result<Machine>)
  {
    r.Ok? ==> WellFormed(r.value) && r.value.keys == m.keys && r.value.lastKey == m.lastKey
              && r.value.started == m.started
  }

  /** One instruction executed on a state whose PC has already been advanced past it. */
  function Execute(m: Machine, op: Instr, rnd: u8): (r: Result<Machine>)
    requires WellFormed(m)
    ensures Confined(m, r)
  {
    if op.ClearScreen? || op.Draw? then ExecuteDisplay(m, op)
    else if op.Return? || op.Jump? || op.Call? || op.JumpOffset? then ExecuteFlow(m, op)
    else if op.SkipEqImm? || op.SkipNeImm? || op.SkipEqReg? || op.SkipNeReg? || op.SkipKey? || op.SkipNoKey? then ExecuteSkip(m, op)
    else if op.LoadImm? || op.AddImm? || op.Move? || op.Or? || op.And? || op.Xor? || op.Random? then ExecuteLoad(m, op, rnd)
    else if op.AddReg? || op.Sub? || op.SubReverse? then ExecuteArith(m, op)
    else if op.ShiftRight? || op.ShiftLeft? then ExecuteShift(m, op)
    else if op.SetIndex? || op.AddIndex? || op.FontChar? || op.ReadDelay? || op.SetDelay? || op.SetSound? || op.Unknown? then ExecuteIndexTimer(m, op)
    else ExecuteMemory(m, op)
  }

  /** 00E0 and Dxyn. */
  function ExecuteDisplay(m: Machine, op: Instr): (r: Result<Machine>)
    requires WellFormed(m)
    requires op.ClearScreen? || op.Draw?
    ensures Confined(m, r)
  {
    if op.ClearScreen? then Ok(m.(display := Blank()))
    else if op.n > 0 && m.ip + op.n > MemorySize then Err(AddressOutOfRange)
    else Ok(Sprite(m, op.x, op.y, op.n))
  }

  /** 00EE, 1nnn, 2nnn and Bnnn. */
  function ExecuteFlow(m: Machine, op: Instr): (r: Result<Machine>)
    requires WellFormed(m)
    requires op.Return? || op.Jump? || op.Call? || op.JumpOffset?
    ensures Confined(m, r)
  {
    if op.Return? then
      if |m.stack| == 0 then Err(StackUnderflow)
      else Ok(m.(pc := m.stack[|m.stack| - 1], stack := m.stack[..|m.stack| - 1]))
    else if op.Jump? then Ok(m.(pc := op.addr))
    else if op.Call? then Ok(m.(stack := m.stack + [m.pc], pc := op.addr))
    else Ok(m.(pc := op.addr + m.v[0]))
  }

  /** The conditional skips 3xkk, 4xkk, 5xy0, 9xy0, Ex9E and ExA1. */
  function ExecuteSkip(m: Machine, op: Instr): (r: Result<Machine>)
    requires WellFormed(m)
    requires op.SkipEqImm? || op.SkipNeImm? || op.SkipEqReg? || op.SkipNeReg? || op.SkipKey? || op.SkipNoKey?
    ensures Confined(m, r)
  {
    if op.SkipEqImm? then Ok(SkipIf(m, m.v[op.x] == op.kk))
    else if op.SkipNeImm? then Ok(SkipIf(m, m.v[op.x] != op.kk))
    else if op.SkipEqReg? then Ok(SkipIf(m, m.v[op.x] == m.v[op.y]))
    else if op.SkipNeReg? then Ok(SkipIf(m, m.v[op.x] != m.v[op.y]))
    else if m.v[op.x] >= Keys then Err(KeyOutOfRange)
    else if op.SkipKey? then Ok(SkipIf(m, m.keys[m.v[op.x]]))
    else Ok(SkipIf(m, !m.keys[m.v[op.x]]))
  }

  /** The register writes that set no flag: 6xkk, 7xkk, 8xy0..8xy3 and Cxkk (`rnd & kk`). */
  function ExecuteLoad(m: Machine, op: Instr, rnd: u8): (r: Result<Machine>)
    requires WellFormed(m)
    requires op.LoadImm? || op.AddImm? || op.Move? || op.Or? || op.And? || op.Xor? || op.Random?
    ensures Confined(m, r)
  {
    if op.LoadImm? then Ok(m.(v := m.v[op.x := op.kk]))
    else if op.AddImm? then Ok(m.(v := m.v[op.x := Wrap8(m.v[op.x] + op.kk)]))
    else if op.Move? then Ok(m.(v := m.v[op.x := m.v[op.y]]))
    else if op.Or? then Ok(m.(v := m.v[op.x := Or8(m.v[op.x], m.v[op.y])]))
    else if op.And? then Ok(m.(v := m.v[op.x := And8(m.v[op.x], m.v[op.y])]))
    else if op.Xor? then Ok(m.(v := m.v[op.x := Xor8(m.v[op.x], m.v[op.y])]))
    else Ok(m.(v := m.v[op.x := And8(rnd, op.kk)]))
  }

  /** 8xy4, 8xy5 and 8xy7: VF is written first, then the operands are read again for the result. */
  function ExecuteArith(m: Machine, op: Instr): (r: Result<Machine>)
    requires WellFormed(m)
    requires op.AddReg? || op.Sub? || op.SubReverse?
    ensures Confined(m, r)
  {
    var x, y := op.x, op.y;
    if op.AddReg? then
      var f := m.v[VF := if m.v[x] as int + m.v[y] > 0xFF then 1 else 0];
      Ok(m.(v := f[x := Wrap8(f[x] + f[y])]))
    else if op.Sub? then
      var f := m.v[VF := if m.v[x] > m.v[y] then 1 else 0];
      Ok(m.(v := f[x := Wrap8(f[x] - f[y])]))
    else
      var f := m.v[VF := if m.v[y] > m.v[x] then 1 else 0];
      Ok(m.(v := f[x := Wrap8(f[y] - f[x])]))
  }

  /** 8xy6 and 8xyE: VF receives the bit shifted out, then V[x] is shifted. */
  function ExecuteShift(m: Machine, op: Instr): (r: Result<Machine>)
    requires WellFormed(m)
    requires op.ShiftRight? || op.ShiftLeft?
    ensures Confined(m, r)
  {
    var x := op.x;
    if op.ShiftRight? then
      var f := m.v[VF := m.v[x] % 2];
      Ok(m.(v := f[x := f[x] / 2]))
    else
      var f := m.v[VF := m.v[x] / 0x80];
      Ok(m.(v := f[x := Wrap8(f[x] * 2)]))
  }

  /** Annn, Fx1E, Fx29, the timer transfers Fx07, Fx15, Fx18, and every word no arm handles. */
  function ExecuteIndexTimer(m: Machine, op: Instr): (r: Result<Machine>)
    requires WellFormed(m)
    requires op.SetIndex? || op.AddIndex? || op.FontChar? || op.ReadDelay? || op.SetDelay? || op.SetSound? || op.Unknown?
    ensures Confined(m, r)
  {
    if op.SetIndex? then Ok(m.(ip := op.addr))
    else if op.AddIndex? then Ok(m.(ip := Wrap16(m.ip + m.v[op.x])))
    else if op.FontChar? then Ok(m.(ip := m.v[op.x] as int * 5))
    else if op.ReadDelay? then Ok(m.(v := m.v[op.x := m.dt]))
    else if op.SetDelay? then Ok(m.(dt := m.v[op.x]))
    else if op.SetSound? then Ok(m.(st := m.v[op.x]))
    else Ok(m)
  }

  /** Fx33, Fx55 and Fx65, which write or read memory from I on. */
  function ExecuteMemory(m: Machine, op: Instr): (r: Result<Machine>)
    requires WellFormed(m)
    requires op.StoreBcd? || op.StoreRegs? || op.LoadRegs?
    ensures Confined(m, r)
  {
    var x := op.x;
    if op.StoreBcd? then
      if m.ip + 2 >= MemorySize then Err(AddressOutOfRange)
      else
        var d := BcdDigits(m.v[x]);
        Ok(m.(memory := m.memory[m.ip := d.hundreds][m.ip + 1 := d.tens][m.ip + 2 := d.ones]))
    else if m.ip + x >= MemorySize then Err(AddressOutOfRange)
    else if op.StoreRegs? then Ok(m.(memory := Overlay(m.memory, m.ip, m.v[..x + 1])))
    else Ok(m.(v := Overlay(m.v, 0, m.memory[m.ip..m.ip + x + 1])))
  }

  /** `cycle()`: nothing before a ROM was loaded; otherwise fetch at PC, advance PC by 2, execute.
      A step that fails leaves the state as it was. */
  function Step(m: Machine, rnd: u8): (r: Result<Machine>)
    requires WellFormed(m)
    ensures !m.started ==> r == Ok(m)
    ensures m.started && m.pc + 1 >= MemorySize ==> r == Err(AddressOutOfRange)
    ensures r.Ok? ==> WellFormed(r.value) && r.value.keys == m.keys && r.value.lastKey == m.lastKey
  {
    if !m.started then Ok(m)
    else if m.pc + 1 >= MemorySize then Err(AddressOutOfRange)
    else Execute(m.(pc := m.pc + 2), Decode(Fetch(m)), rnd)
  }

  /** The 60 Hz tick: each timer counts down by one while it is not zero. */
  function Tick(m: Machine): (r: Machine)
    ensures r == m.(dt := r.dt, st := r.st)
    ensures m.dt == 0 ==> r.dt == 0
    ensures m.dt > 0 ==> r.dt == m.dt - 1
    ensures m.st == 0 ==> r.st == 0
    ensures m.st > 0 ==> r.st == m.st - 1
  {
    m.(dt := if m.dt != 0 then m.dt - 1 else m.dt, st := if m.st != 0 then m.st - 1 else m.st)
  }

  /** Key-down event for keypad digit `k`; events for keys outside 0..F are ignored. */
  function KeyPressed(m: Machine, k: int): (r: Machine)
    requires WellFormed(m)
    ensures WellFormed(r)
    ensures 0 <= k < Keys ==> r == m.(keys := r.keys, lastKey := k) && r.keys[k]
    ensures 0 <= k < Keys ==> forall j :: 0 <= j < Keys && j != k ==> r.keys[j] == m.keys[j]
    ensures !(0 <= k < Keys) ==> r == m
  {
    if 0 <= k < Keys then m.(keys := m.keys[k := true], lastKey := k) else m
  }

  /** Key-up event for keypad digit `k`: the key is released and no key counts as last pressed. */
  function KeyReleased(m: Machine, k: int): (r: Machine)
    requires WellFormed(m)
    ensures WellFormed(r)
    ensures 0 <= k < Keys ==> r == m.(keys := r.keys, lastKey := -1) && !r.keys[k]
    ensures 0 <= k < Keys ==> forall j :: 0 <= j < Keys && j != k ==> r.keys[j] == m.keys[j]
    ensures !(0 <= k < Keys) ==> r == m
  {
    if 0 <= k < Keys then m.(keys := m.keys[k := false], lastKey := -1) else m
  }

  /** The interpreter: the C++ globals as fields, the fixed-size buffers as arrays. */
  class Chip8 {
    const v: array<u8>
    const memory: array<u8>
    var pc: u16
    var ip: u16
    var stack: seq<u16>
    var dt: u8
    var st: u8
    const display: array<bool>
    const keys: array<bool>
    var lastKey: int
    var started: bool

    ghost predicate Valid()
      reads this
    {
      v.Length == Registers && memory.Length == MemorySize && display.Length == Cells
      && keys.Length == Keys && v != memory && display != keys && -1 <= lastKey < Keys
    }

    /** The state held by the fields, as a value. */
    ghost function State(): (m: Machine)
      reads this, v, memory, display, keys
      requires Valid()
      ensures WellFormed(m)
    {
      Machine(v[..], memory[..], pc, ip, stack, dt, st, display[..], keys[..], lastKey, started)
    }

    constructor ()
      ensures Valid() && State() == Initial()
      ensures fresh(v) && fresh(memory) && fresh(display) && fresh(keys)
    {
      v := new u8[Registers](_ => 0);
      memory := new u8[MemorySize](_ => 0);
      pc, ip, stack, dt, st := ProgramStart as u16, 0, [], 0, 0;
      display := new bool[Cells](_ => false);
      keys := new bool[Keys](_ => false);
      lastKey, started := -1, false;
    }

    /** `start(rom)`: copies the ROM to 0x200 and the font to 0, then marks the machine started. */
    method Start(rom: seq<u8>) returns (status: Status)
      requires Valid()
      modifies memory, this`started
      ensures Valid()
      ensures status == StatusOf(Loaded(old(State()), rom))
      ensures State() == Committed(old(State()), Loaded(old(State()), rom))
    {
      if |rom| > MaxProgramSize {
        return Faulted(ProgramTooLarge);
      }
      CopyTo(memory, ProgramStart, rom);
      CopyTo(memory, 0, Font);
      started := true;
      status := Executed;
    }

    /** `cycle()`: one fetch-decode-execute step; `rnd` is the byte the random generator yields. */
    method Cycle(rnd: u8) returns (status: Status)
      requires Valid()
      modifies this, v, memory, display
      ensures Valid()
      ensures status == StatusOf(Step(old(State()), rnd))
      ensures State() == Committed(old(State()), Step(old(State()), rnd))
    {
      if !started {
        return Executed;
      }
      if pc + 1 >= MemorySize {
        return Faulted(AddressOutOfRange);
      }
      var word := Join(memory[pc], memory[pc + 1]);
      var fetchedAt := pc;
      pc := pc + 2;
      status := Run(Decode(word), rnd);
      if status.Faulted? {
        pc := fetchedAt;
      }
    }

    /** Executes one decoded instruction; PC has already been advanced past it. */
    method Run(op: Instr, rnd: u8) returns (status: Status)
      requires Valid()
      modifies this, v, memory, display
      ensures Valid()
      ensures status == StatusOf(Execute(old(State()), op, rnd))
      ensures State() == Committed(old(State()), Execute(old(State()), op, rnd))
    {
      if op.ClearScreen? || op.Draw? || op.Return? || op.Jump? || op.Call? || op.JumpOffset?
               || op.SkipEqImm? || op.SkipNeImm? || op.SkipEqReg? || op.SkipNeReg? || op.SkipKey? || op.SkipNoKey? {
        status := RunControl(op, rnd);
      } else {
        status := RunData(op, rnd);
      }
    }

    /** The instructions that change the screen or the flow of control. */
    method RunControl(op: Instr, rnd: u8) returns (status: Status)
      requires Valid()
      requires op.ClearScreen? || op.Draw? || op.Return? || op.Jump? || op.Call? || op.JumpOffset?
               || op.SkipEqImm? || op.SkipNeImm? || op.SkipEqReg? || op.SkipNeReg? || op.SkipKey? || op.SkipNoKey?
      modifies this, v, memory, display
      ensures Valid()
      ensures status == StatusOf(Execute(old(State()), op, rnd))
      ensures State() == Committed(old(State()), Execute(old(State()), op, rnd))
    {
      if op.ClearScreen? || op.Draw? {
        status := RunDisplay(op);
      } else if op.Return? || op.Jump? || op.Call? || op.JumpOffset? {
        status := RunFlow(op);
      } else {
        status := RunSkip(op);
      }
    }

    /** The instructions that change registers, timers or memory. */
    method RunData(op: Instr, rnd: u8) returns (status: Status)
      requires Valid()
      requires !(op.ClearScreen? || op.Draw? || op.Return? || op.Jump? || op.Call? || op.JumpOffset?
                 || op.SkipEqImm? || op.SkipNeImm? || op.SkipEqReg? || op.SkipNeReg? || op.SkipKey? || op.SkipNoKey?)
      modifies this, v, memory, display
      ensures Valid()
      ensures status == StatusOf(Execute(old(State()), op, rnd))
      ensures State() == Committed(old(State()), Execute(old(State()), op, rnd))
    {
      if op.LoadImm? || op.AddImm? || op.Move? || op.Or? || op.And? || op.Xor? || op.Random? {
        status := RunLoad(op, rnd);
      } else if op.AddReg? || op.Sub? || op.SubReverse? {
        status := RunArith(op);
      } else if op.ShiftRight? || op.ShiftLeft? {
        status := RunShift(op);
      } else if op.SetIndex? || op.AddIndex? || op.FontChar? || op.ReadDelay? || op.SetDelay? || op.SetSound? || op.Unknown? {
        status := RunIndexTimer(op);
      } else {
        status := RunMemory(op);
      }
    }

    /** 00E0 and Dxyn. */
    method RunDisplay(op: Instr) returns (status: Status)
      requires Valid()
      requires op.ClearScreen? || op.Draw?
      modifies v, display
      ensures Valid()
      ensures status == StatusOf(ExecuteDisplay(old(State()), op))
      ensures State() == Committed(old(State()), ExecuteDisplay(old(State()), op))
    {
      status := Executed;
      if op.ClearScreen? {
        Clear(display);
      } else {
        if op.n > 0 && ip + op.n > MemorySize {
          return Faulted(AddressOutOfRange);
        }
        DrawSprite(op.x, op.y, op.n);
      }
    }

    /** 00EE, 1nnn, 2nnn and Bnnn. */
    method RunFlow(op: Instr) returns (status: Status)
      requires Valid()
      requires op.Return? || op.Jump? || op.Call? || op.JumpOffset?
      modifies this`pc, this`stack
      ensures Valid()
      ensures status == StatusOf(ExecuteFlow(old(State()), op))
      ensures State() == Committed(old(State()), ExecuteFlow(old(State()), op))
    {
      status := Executed;
      if op.Return? {
        if |stack| == 0 {
          return Faulted(StackUnderflow);
        }
        pc := stack[|stack| - 1];
        stack := stack[..|stack| - 1];
      } else if op.Jump? {
        pc := op.addr;
      } else if op.Call? {
        stack := stack + [pc];
        pc := op.addr;
      } else {
        pc := op.addr + v[0];
      }
    }

    /** The conditional skips. */
    method RunSkip(op: Instr) returns (status: Status)
      requires Valid()
      requires op.SkipEqImm? || op.SkipNeImm? || op.SkipEqReg? || op.SkipNeReg? || op.SkipKey? || op.SkipNoKey?
      modifies this`pc
      ensures Valid()
      ensures status == StatusOf(ExecuteSkip(old(State()), op))
      ensures State() == Committed(old(State()), ExecuteSkip(old(State()), op))
    {
      status := Executed;
      var skip: bool;
      if op.SkipEqImm? {
        skip := v[op.x] == op.kk;
      } else if op.SkipNeImm? {
        skip := v[op.x] != op.kk;
      } else if op.SkipEqReg? {
        skip := v[op.x] == v[op.y];
      } else if op.SkipNeReg? {
        skip := v[op.x] != v[op.y];
      } else {
        if v[op.x] >= Keys {
          return Faulted(KeyOutOfRange);
        }
        skip := if op.SkipKey? then keys[v[op.x]] else !keys[v[op.x]];
      }
      if skip {
        pc := Wrap16(pc + 2);
      }
    }

    /** The register writes that set no flag; `rnd` is the byte the random generator yields. */
    method RunLoad(op: Instr, rnd: u8) returns (status: Status)
      requires Valid()
      requires op.LoadImm? || op.AddImm? || op.Move? || op.Or? || op.And? || op.Xor? || op.Random?
      modifies v
      ensures Valid()
      ensures status == StatusOf(ExecuteLoad(old(State()), op, rnd))
      ensures State() == Committed(old(State()), ExecuteLoad(old(State()), op, rnd))
    {
      status := Executed;
      var x := op.x;
      if op.LoadImm? {
        v[x] := op.kk;
      } else if op.AddImm? {
        v[x] := Wrap8(v[x] as int + op.kk);
      } else if op.Move? {
        v[x] := v[op.y];
      } else if op.Or? {
        v[x] := Or8(v[x], v[op.y]);
      } else if op.And? {
        v[x] := And8(v[x], v[op.y]);
      } else if op.Xor? {
        v[x] := Xor8(v[x], v[op.y]);
      } else {
        v[x] := And8(rnd, op.kk);
      }
    }

    /** 8xy4, 8xy5 and 8xy7, flag first. */
    method RunArith(op: Instr) returns (status: Status)
      requires Valid()
      requires op.AddReg? || op.Sub? || op.SubReverse?
      modifies v
      ensures Valid()
      ensures status == StatusOf(ExecuteArith(old(State()), op))
      ensures State() == Committed(old(State()), ExecuteArith(old(State()), op))
    {
      status := Executed;
      var x, y := op.x, op.y;
      if op.AddReg? {
        v[VF] := if v[x] as int + v[y] > 0xFF then 1 else 0;
        v[x] := Wrap8(v[x] as int + v[y]);
      } else if op.Sub? {
        v[VF] := if v[x] > v[y] then 1 else 0;
        v[x] := Wrap8(v[x] as int - v[y]);
      } else {
        v[VF] := if v[y] > v[x] then 1 else 0;
        v[x] := Wrap8(v[y] as int - v[x]);
      }
    }

    /** 8xy6 and 8xyE, flag first. */
    method RunShift(op: Instr) returns (status: Status)
      requires Valid()
      requires op.ShiftRight? || op.ShiftLeft?
      modifies v
      ensures Valid()
      ensures status == StatusOf(ExecuteShift(old(State()), op))
      ensures State() == Committed(old(State()), ExecuteShift(old(State()), op))
    {
      status := Executed;
      var x := op.x;
      if op.ShiftRight? {
        v[VF] := v[x] % 2;
        v[x] := v[x] / 2;
      } else {
        v[VF] := v[x] / 0x80;
        v[x] := Wrap8(v[x] as int * 2);
      }
    }

    /** The index register and timer instructions, and the words no arm handles. */
    method RunIndexTimer(op: Instr) returns (status: Status)
      requires Valid()
      requires op.SetIndex? || op.AddIndex? || op.FontChar? || op.ReadDelay? || op.SetDelay? || op.SetSound? || op.Unknown?
      modifies this`ip, this`dt, this`st, v
      ensures Valid()
      ensures status == StatusOf(ExecuteIndexTimer(old(State()), op))
      ensures State() == Committed(old(State()), ExecuteIndexTimer(old(State()), op))
    {
      status := Executed;
      if op.SetIndex? {
        ip := op.addr;
      } else if op.AddIndex? {
        ip := Wrap16(ip as int + v[op.x]);
      } else if op.FontChar? {
        ip := v[op.x] as int * 5;
      } else if op.ReadDelay? {
        v[op.x] := dt;
      } else if op.SetDelay? {
        dt := v[op.x];
      } else if op.SetSound? {
        st := v[op.x];
      }
    }

    /** Fx33, Fx55 and Fx65. */
    method RunMemory(op: Instr) returns (status: Status)
      requires Valid()
      requires op.StoreBcd? || op.StoreRegs? || op.LoadRegs?
      modifies v, memory
      ensures Valid()
      ensures status == StatusOf(ExecuteMemory(old(State()), op))
      ensures State() == Committed(old(State()), ExecuteMemory(old(State()), op))
    {
      status := Executed;
      var x := op.x;
      if op.StoreBcd? {
        if ip + 2 >= MemorySize {
          return Faulted(AddressOutOfRange);
        }
        var d := BcdDigits(v[x]);
        memory[ip] := d.hundreds;
        memory[ip + 1] := d.tens;
        memory[ip + 2] := d.ones;
      } else {
        if ip + x >= MemorySize {
          return Faulted(AddressOutOfRange);
        }
        if op.StoreRegs? {
          CopyTo(memory, ip, v[..x + 1]);
        } else {
          CopyTo(v, 0, memory[ip..ip + x + 1]);
        }
      }
    }

    /** Dxyn: the outer loop over the `n` sprite rows. */
    method DrawSprite(x: Nibble, y: Nibble, n: Nibble)
      requires Valid() && (n == 0 || ip + n <= MemorySize)
      modifies v, display
      ensures Canvas(v[..], display[..])
              == Drawn(Canvas(old(v[..]), old(display[..])), x, y, SpriteRows(memory[..], ip, n), n)
    {
      ghost var before := Canvas(v[..], display[..]);
      ghost var rows := SpriteRows(memory[..], ip, n);
      var i := 0;
      while i < n
        invariant 0 <= i <= n
        invariant Canvas(v[..], display[..]) == Drawn(before, x, y, rows, i)
      {
        assert memory[ip + i] == rows[i];
        DrawRow(x, y, i, memory[ip + i]);
        i := i + 1;
      }
    }

    /** Dxyn: the inner loop over the 8 bits of sprite row `i`, whose byte is `line`. */
    method DrawRow(x: Nibble, y: Nibble, i: nat, line: u8)
      requires Valid()
      modifies v, display
      ensures Canvas(v[..], display[..]) == RowDrawn(Canvas(old(v[..]), old(display[..])), x, y, i, line, 8)
    {
      ghost var rowStart := Canvas(v[..], display[..]);
      var j := 0;
      while j < 8
        invariant 0 <= j <= 8
        invariant Canvas(v[..], display[..]) == RowDrawn(rowStart, x, y, i, line, j)
      {
        DrawBit(x, y, i, j, line);
        j := j + 1;
      }
    }

    /** The body of the Dxyn inner loop: bit `j` of sprite row `i`, whose byte is `line`. */
    method DrawBit(x: Nibble, y: Nibble, i: nat, j: nat, line: u8)
      requires Valid() && j < 8
      modifies v, display
      ensures Canvas(v[..], display[..]) == PlotBit(Canvas(old(v[..]), old(display[..])), x, y, i, j, line)
    {
      var col := (v[x] + j) % Width;
      var row := (v[y] + i) % Height;
      var pixel := display[row * Width + col] != SpriteBit(line, j);
      v[VF] := if display[row * Width + col] && !pixel then 1 else 0;
      display[row * Width + col] := pixel;
    }

    /** The timer rule of the main loop: `if (dt != 0) dt--; if (st != 0) st--;`. */
    method TickTimers()
      requires Valid()
      modifies this`dt, this`st
      ensures State() == Tick(old(State()))
    {
      if dt != 0 { dt := dt - 1; }
      if st != 0 { st := st - 1; }
    }

    /** A key-down event for keypad digit `k`. */
    method PressKey(k: int)
      requires Valid()
      modifies keys, this`lastKey
      ensures Valid() && State() == KeyPressed(old(State()), k)
    {
      if 0 <= k < Keys {
        keys[k] := true;
        lastKey := k;
      }
    }

    /** A key-up event for keypad digit `k`. */
    method ReleaseKey(k: int)
      requires Valid()
      modifies keys, this`lastKey
      ensures Valid() && State() == KeyReleased(old(State()), k)
    {
      if 0 <= k < Keys {
        keys[k] := false;
        lastKey := -1;
      }
    }
  }
}
