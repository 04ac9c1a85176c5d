/** The JavaScript interpreter (main.js): its machine state, the semantics of `cycle` and of the
    start-up code that loads the font and the ROM, as functions on a state value, and the
    interpreter itself as a class whose methods update that state in place. */
module WebChip {
  import opened Bytes
  import opened Isa
  import opened Framebuffer

  /** What `Math.floor(Math.random() * 255)` yields: an integer 0..254. */
  type Roll = r: int | 0 <= r < 255

  /** A snapshot of every piece of interpreter state the script keeps in top-level variables.
      JavaScript numbers do not wrap, so PC, I and the stack entries are unbounded. */
  datatype Machine = Machine(
    v: seq<u8>,          // V0..VF
    memory: seq<u8>,     // 4096 bytes
    pc: nat,
    ip: nat,             // the index register I
    stack: seq<nat>,     // call stack, top last
    display: seq<bool>)  // 32 rows of 64 pixels, row-major

  predicate WellFormed(m: Machine)
  {
    |m.v| == Registers && |m.memory| == MemorySize && |m.display| == Cells
  }

  /** The state the script sets up before loading anything: zeroed registers, memory and screen,
      PC at 512, I at 0, an empty stack. */
  function Initial(): (m: Machine)
    ensures WellFormed(m) && m.pc == ProgramStart && m.ip == 0 && m.stack == []
    ensures forall i :: 0 <= i < Registers ==> m.v[i] == 0
    ensures forall i :: 0 <= i < MemorySize ==> m.memory[i] == 0
    ensures forall c :: 0 <= c < Cells ==> !m.display[c]
  {
    Machine(seq(Registers, _ => 0), seq(MemorySize, _ => 0), ProgramStart, 0, [], Blank())
  }

  /** The start-up copies: `font` to address 0, then `rom` from PC on. An image that would run past
      the end of memory is refused with `ProgramTooLarge`. */
  function Loaded(m: Machine, font: seq<u8>, rom: seq<u8>): (r: Result<Machine>)
    requires WellFormed(m)
    ensures r.Ok? <==> |font| <= MemorySize && m.pc + |rom| <= MemorySize
    ensures r.Err? ==> r.error == ProgramTooLarge
    ensures r.Ok? ==> WellFormed(r.value) && r.value == m.(memory := r.value.memory)
    ensures r.Ok? ==> r.value.memory[m.pc..m.pc + |rom|] == rom
    ensures r.Ok? ==> forall i :: 0 <= i < |font| && !(m.pc <= i < m.pc + |rom|) ==> r.value.memory[i] == font[i]
    ensures r.Ok? ==> forall i :: |font| <= i < MemorySize && !(m.pc <= i < m.pc + |rom|) ==>
                         r.value.memory[i] == m.memory[i]
  {
    if |font| > MemorySize || m.pc + |rom| > MemorySize then Err(ProgramTooLarge)
    else
      var withFont := Overlay(m.memory, 0, font);
      var memory := Overlay(withFont, m.pc, rom);
      assert memory[m.pc..m.pc + |rom|] == rom;
      Ok(m.(memory := memory))
  }

  /** The instruction word at PC, high byte first. */
  function Fetch(m: Machine): (word: u16)
    requires WellFormed(m) && m.pc + 1 < MemorySize
    ensures word / 0x100 == m.memory[m.pc] && word % 0x100 == m.memory[m.pc + 1]
  {
    Join(m.memory[m.pc], m.memory[m.pc + 1])
  }

  /** The instructions the script's switch has a case for; every other word reaches a `default`
      branch that only raises the warning flag. */
  predicate Handled(op: Instr)
  {
    op.ClearScreen? || op.Return? || op.Jump? || op.Call? || op.SkipEqImm? || op.SkipNeImm?
    || op.SkipEqReg? || op.LoadImm? || op.AddImm? || op.Move? || op.Or? || op.And? || op.Xor?
    || op.AddReg? || op.Sub? || op.ShiftRight? || op.ShiftLeft? || op.SkipNeReg? || op.SetIndex?
    || op.Random? || op.Draw? || op.AddIndex? || op.FontChar? || op.StoreBcd? || op.StoreRegs?
    || op.LoadRegs?
  }

  /** The dispatch of `cycle`: the family nibble first, then the low byte (families 0 and F) or the
      low nibble (family 8). Families B and E, 8xy7 and the timer instructions have no case. */
  function Decode(word: u16): (op: Instr)
    ensures op.Unknown? || Handled(op)
  {
    var x, y, n, kk, nnn := RegX(word), RegY(word), Low4(word), Low8(word), Low12(word);
    match Family(word)
    case 0x0 => if kk == 0xE0 then ClearScreen else if kk == 0xEE then Return else Unknown
    case 0x1 => Jump(nnn)
    case 0x2 => Call(nnn)
    case 0x3 => SkipEqImm(x, kk)
    case 0x4 => SkipNeImm(x, kk)
    case 0x5 => SkipEqReg(x, y)
    case 0x6 => LoadImm(x, kk)
    case 0x7 => AddImm(x, kk)
    case 0x8 =>
      if n == 0x0 then Move(x, y)
      else if n == 0x1 then Or(x, y)
      else if n == 0x2 then And(x, y)
      else if n == 0x3 then Xor(x, y)
      else if n == 0x4 then AddReg(x, y)
      else if n == 0x5 then Sub(x, y)
      else if n == 0x6 then ShiftRight(x)
      else if n == 0xE then ShiftLeft(x)
      else Unknown
    case 0x9 => SkipNeReg(x, y)
    case 0xA => SetIndex(nnn)
    case 0xC => Random(x, kk)
    case 0xD => Draw(x, y, n)
    case 0xF =>
      if kk == 0x1E then AddIndex(x)
      else if kk == 0x29 then FontChar(x)
      else if kk == 0x33 then StoreBcd(x)
      else if kk == 0x55 then StoreRegs(x)
      else if kk == 0x65 then LoadRegs(x)
      else Unknown
    case _ => Unknown
  }

  /** `pc += 2` when `cond` holds: skips the next instruction. */
  function SkipIf(m: Machine, cond: bool): (r: Machine)
    ensures r == m.(pc := r.pc) && r.pc >= m.pc
    ensures r.pc == m.pc <==> !cond
  {
    if cond then m.(pc := m.pc + 2) else m
  }

  /** Columns `0 .. j - 1` of one sprite row, whose byte is `line`, drawn from the base point
      `(baseX, baseY)` that the script reads once per row: each bit is XORed into its cell and VF is set
      to whether that write switched a lit pixel off. */
  function RowDrawn(c: Canvas, baseX: int, baseY: int, line: u8, j: nat): (r: Canvas)
    requires Sized(c) && j <= 8
    ensures Sized(r)
  {
    if j == 0 then c
    else PlotAt(RowDrawn(c, baseX, baseY, line, j - 1), Cell(baseX + (j - 1), baseY), SpriteBit(line, j - 1))
  }

  /** Sprite row `i`, whose byte is `line`, drawn from V[x] and V[y] + i as they stand when the row
      begins. */
  function RowFrom(c: Canvas, x: Nibble, y: Nibble, i: nat, line: u8): (r: Canvas)
    requires Sized(c)
    ensures Sized(r)
  {
    RowDrawn(c, c.v[x], c.v[y] + i, line, 8)
  }

  /** The first `i` rows of the sprite `rows` drawn. */
  function Drawn(c: Canvas, x: Nibble, y: Nibble, rows: seq<u8>, i: nat): (r: Canvas)
    requires Sized(c) && i <= |rows|
    ensures Sized(r)
  {
    if i == 0 then c else RowFrom(Drawn(c, x, y, rows, i - 1), x, y, i - 1, rows[i - 1])
  }

  /** Dxyn on the whole state: only the registers and the screen change. */
  function Sprite(m: Machine, x: Nibble, y: Nibble, n: Nibble): (r: Machine)
    requires WellFormed(m) && (n == 0 || m.ip + n <= MemorySize)
    ensures WellFormed(r)
  {
    var d := Drawn(Canvas(m.v, m.display), x, y, SpriteRows(m.memory, m.ip, n), n);
    m.(v := d.v, display := d.display)
  }

  /** A successful effect keeps the state well formed. */
  predicate Confined(r: Result<Machine>)
  {
    r.Ok? ==> WellFormed(r.value)
  }

  /** One instruction executed on a state whose PC has already been advanced past it. An instruction
      without a case changes nothing. */
  function Execute(m: Machine, op: Instr, rnd: Roll): (r: Result<Machine>)
    requires WellFormed(m)
    ensures Confined(r)
    ensures !Handled(op) ==> r == Ok(m)
  {
    if op.ClearScreen? || op.Draw? then ExecuteDisplay(m, op)
    else if op.Return? || op.Jump? || op.Call? then ExecuteFlow(m, op)
    else if op.SkipEqImm? || op.SkipNeImm? || op.SkipEqReg? || op.SkipNeReg? then ExecuteSkip(m, op)
    else if op.LoadImm? || op.AddImm? || op.Move? || op.Or? || op.And? || op.Xor? || op.Random? then ExecuteLoad(m, op, rnd)
    else if op.AddReg? || op.Sub? || op.ShiftRight? || op.ShiftLeft? then ExecuteArith(m, op)
    else if op.SetIndex? || op.AddIndex? || op.FontChar? then ExecuteIndex(m, op)
    else if op.StoreBcd? || op.StoreRegs? || op.LoadRegs? then ExecuteMemory(m, op)
    else Ok(m)
  }

  /** 00E0 and Dxyn. */
  function ExecuteDisplay(m: Machine, op: Instr): (r: Result<Machine>)
    requires WellFormed(m)
    requires op.ClearScreen? || op.Draw?
    ensures Confined(r)
  {
    if op.ClearScreen? then Ok(m.(display := Blank()))
    else if op.n > 0 && m.ip + op.n > MemorySize then Err(AddressOutOfRange)
    else Ok(Sprite(m, op.x, op.y, op.n))
  }

  /** 00EE, 1nnn and 2nnn. */
  function ExecuteFlow(m: Machine, op: Instr): (r: Result<Machine>)
    requires WellFormed(m)
    requires op.Return? || op.Jump? || op.Call?
    ensures Confined(r)
  {
    if op.Return? then
      if |m.stack| == 0 then Err(StackUnderflow)
      else Ok(m.(pc := m.stack[|m.stack| - 1], stack := m.stack[..|m.stack| - 1]))
    else if op.Jump? then Ok(m.(pc := op.addr))
    else Ok(m.(stack := m.stack + [m.pc], pc := op.addr))
  }

  /** The conditional skips 3xkk, 4xkk, 5xy0 and 9xy0. */
  function ExecuteSkip(m: Machine, op: Instr): (r: Result<Machine>)
    requires WellFormed(m)
    requires op.SkipEqImm? || op.SkipNeImm? || op.SkipEqReg? || op.SkipNeReg?
    ensures Confined(r)
  {
    if op.SkipEqImm? then Ok(SkipIf(m, m.v[op.x] == op.kk))
    else if op.SkipNeImm? then Ok(SkipIf(m, m.v[op.x] != op.kk))
    else if op.SkipEqReg? then Ok(SkipIf(m, m.v[op.x] == m.v[op.y]))
    else Ok(SkipIf(m, m.v[op.x] != m.v[op.y]))
  }

  /** The register writes that set no flag: 6xkk, 7xkk (masked with `& 0xff`), 8xy0..8xy3 and Cxkk. */
  function ExecuteLoad(m: Machine, op: Instr, rnd: Roll): (r: Result<Machine>)
    requires WellFormed(m)
    requires op.LoadImm? || op.AddImm? || op.Move? || op.Or? || op.And? || op.Xor? || op.Random?
    ensures Confined(r)
  {
    if op.LoadImm? then Ok(m.(v := m.v[op.x := op.kk]))
    else if op.AddImm? then Ok(m.(v := m.v[op.x := Wrap8(m.v[op.x] + op.kk)]))
    else if op.Move? then Ok(m.(v := m.v[op.x := m.v[op.y]]))
    else if op.Or? then Ok(m.(v := m.v[op.x := Or8(m.v[op.x], m.v[op.y])]))
    else if op.And? then Ok(m.(v := m.v[op.x := And8(m.v[op.x], m.v[op.y])]))
    else if op.Xor? then Ok(m.(v := m.v[op.x := Xor8(m.v[op.x], m.v[op.y])]))
    else Ok(m.(v := m.v[op.x := And8(rnd, op.kk)]))
  }

  /** 8xy4 and 8xy5, which compute the result before VF is written, and 8xy6 and 8xyE, which write VF
      first and then shift V[x]. */
  function ExecuteArith(m: Machine, op: Instr): (r: Result<Machine>)
    requires WellFormed(m)
    requires op.AddReg? || op.Sub? || op.ShiftRight? || op.ShiftLeft?
    ensures Confined(r)
  {
    var x := op.x;
    if op.AddReg? then
      var sum := m.v[x] as int + m.v[op.y];
      Ok(m.(v := m.v[VF := if sum > 0xFF then 1 else 0][x := Wrap8(sum)]))
    else if op.Sub? then
      var diff := m.v[x] as int - m.v[op.y];
      Ok(m.(v := m.v[VF := if m.v[x] > m.v[op.y] then 1 else 0][x := Wrap8(diff)]))
    else if op.ShiftRight? then
      var f := m.v[VF := m.v[x] % 2];
      Ok(m.(v := f[x := f[x] / 2]))
    else
      var f := m.v[VF := m.v[x] / 0x80];
      Ok(m.(v := f[x := Wrap8(f[x] * 2)]))
  }

  /** Annn, Fx1E (I grows without wrapping) and Fx29. */
  function ExecuteIndex(m: Machine, op: Instr): (r: Result<Machine>)
    requires WellFormed(m)
    requires op.SetIndex? || op.AddIndex? || op.FontChar?
    ensures Confined(r)
  {
    if op.SetIndex? then Ok(m.(ip := op.addr))
    else if op.AddIndex? then Ok(m.(ip := m.ip + m.v[op.x]))
    else Ok(m.(ip := m.v[op.x] as int * 5))
  }

  /** Fx33, Fx55 and Fx65, which write or read memory from I on. */
  function ExecuteMemory(m: Machine, op: Instr): (r: Result<Machine>)
    requires WellFormed(m)
    requires op.StoreBcd? || op.StoreRegs? || op.LoadRegs?
    ensures Confined(r)
  {
    var x := op.x;
    if op.StoreBcd? then
      if m.ip + 2 >= MemorySize then Err(AddressOutOfRange)
      else
        var d := BcdDigits(m.v[x]);
        Ok(m.(memory := m.memory[m.ip := d.hundreds][m.ip + 1 := d.tens][m.ip + 2 := d.ones]))
    else if m.ip + x >= MemorySize then Err(AddressOutOfRange)
    else if op.StoreRegs? then Ok(m.(memory := Overlay(m.memory, m.ip, m.v[..x + 1])))
    else Ok(m.(v := Overlay(m.v, 0, m.memory[m.ip..m.ip + x + 1])))
  }

  /** `cycle()`: fetch at PC, advance PC by 2, execute. A step that fails leaves the state as it was. */
  function Step(m: Machine, rnd: Roll): (r: Result<Machine>)
    requires WellFormed(m)
    ensures m.pc + 1 >= MemorySize ==> r == Err(AddressOutOfRange)
    ensures r.Ok? ==> WellFormed(r.value)
  {
    if m.pc + 1 >= MemorySize then Err(AddressOutOfRange)
    else Execute(m.(pc := m.pc + 2), Decode(Fetch(m)), rnd)
  }

  /** What one call reports: a word without a case is logged as a warning, a fault as a fault. */
  function Reported(op: Instr, r: Result<Machine>): (s: Status)
    ensures s.Faulted? <==> r.Err?
    ensures s == Warned <==> r.Ok? && !Handled(op)
  {
    if r.Err? then Faulted(r.error) else if Handled(op) then Executed else Warned
  }

  /** What `cycle()` reports for the state `m`. */
  function CycleStatus(m: Machine, rnd: Roll): (s: Status)
    requires WellFormed(m)
    ensures s.Faulted? <==> Step(m, rnd).Err?
    ensures s.Faulted? ==> s == Faulted(Step(m, rnd).error)
  {
    if m.pc + 1 >= MemorySize then Faulted(AddressOutOfRange)
    else Reported(Decode(Fetch(m)), Step(m, rnd))
  }

  /** The interpreter: the script's top-level variables as fields, its arrays as arrays. */
  class Chip8 {
    const v: array<u8>
    const memory: array<u8>
    var pc: nat
    var ip: nat
    var stack: seq<nat>
    const display: array<bool>

    ghost predicate Valid()
      reads this
    {
      v.Length == Registers && memory.Length == MemorySize && display.Length == Cells && v != memory
    }

    /** The state held by the fields, as a value. */
    ghost function State(): (m: Machine)
      reads this, v, memory, display
      requires Valid()
      ensures WellFormed(m)
    {
      Machine(v[..], memory[..], pc, ip, stack, display[..])
    }

    /** The initialisation at the top of the script. */
    constructor ()
      ensures Valid() && State() == Initial()
      ensures fresh(v) && fresh(memory) && fresh(display)
    {
      pc := ProgramStart;
      memory := new u8[MemorySize](_ => 0);
      v := new u8[Registers](_ => 0);
      ip := 0;
      stack := [];
      display := new bool[Cells](_ => false);
    }

    /** The start-up loops: the font bytes to address 0, then the ROM bytes from PC on. */
    method Load(font: seq<u8>, rom: seq<u8>) returns (status: Status)
      requires Valid()
      modifies memory
      ensures Valid()
      ensures status == StatusOf(Loaded(old(State()), font, rom))
      ensures State() == Committed(old(State()), Loaded(old(State()), font, rom))
    {
      if |font| > MemorySize || pc + |rom| > MemorySize {
        return Faulted(ProgramTooLarge);
      }
      CopyTo(memory, 0, font);
      CopyTo(memory, pc, rom);
      status := Executed;
    }

    /** `cycle()`: one fetch-decode-execute step; `rnd` is what the random generator yields. */
    method Cycle(rnd: Roll) returns (status: Status)
      requires Valid()
      modifies this, v, memory, display
      ensures Valid()
      ensures status == CycleStatus(old(State()), rnd)
      ensures State() == Committed(old(State()), Step(old(State()), rnd))
    {
      if pc + 1 >= MemorySize {
        return Faulted(AddressOutOfRange);
      }
      ghost var before := State();
      var word := Join(memory[pc], memory[pc + 1]);
      assert word == Fetch(before);
      var fetchedAt := pc;
      pc := pc + 2;
      var op := Decode(word);
      assert State() == before.(pc := before.pc + 2);
      status := Run(op, rnd);
      assert Step(before, rnd) == Execute(before.(pc := before.pc + 2), op, rnd);
      if status.Faulted? {
        pc := fetchedAt;
      }
    }

    /** Executes one decoded instruction; PC has already been advanced past it. */
    method Run(op: Instr, rnd: Roll) returns (status: Status)
      requires Valid()
      modifies this, v, memory, display
      ensures Valid()
      ensures status == Reported(op, Execute(old(State()), op, rnd))
      ensures State() == Committed(old(State()), Execute(old(State()), op, rnd))
    {
      if op.ClearScreen? || op.Draw? {
        status := RunDisplay(op);
      } else if op.Return? || op.Jump? || op.Call? {
        status := RunFlow(op);
      } else if op.SkipEqImm? || op.SkipNeImm? || op.SkipEqReg? || op.SkipNeReg? {
        status := RunSkip(op);
      } else if op.LoadImm? || op.AddImm? || op.Move? || op.Or? || op.And? || op.Xor? || op.Random? {
        status := RunLoad(op, rnd);
      } else if op.AddReg? || op.Sub? || op.ShiftRight? || op.ShiftLeft? {
        status := RunArith(op);
      } else if op.SetIndex? || op.AddIndex? || op.FontChar? {
        status := RunIndex(op);
      } else if op.StoreBcd? || op.StoreRegs? || op.LoadRegs? {
        status := RunMemory(op);
      } else {
        status := Warned;
      }
    }

    /** 00E0 and Dxyn. */
    method RunDisplay(op: Instr) returns (status: Status)
      requires Valid()
      requires op.ClearScreen? || op.Draw?
      modifies v, display
      ensures Valid()
      ensures status == StatusOf(ExecuteDisplay(old(State()), op))
      ensures State() == Committed(old(State()), ExecuteDisplay(old(State()), op))
    {
      status := Executed;
      if op.ClearScreen? {
        Clear(display);
      } else {
        if op.n > 0 && ip + op.n > MemorySize {
          return Faulted(AddressOutOfRange);
        }
        DrawSprite(op.x, op.y, op.n);
      }
    }

    /** 00EE, 1nnn and 2nnn. */
    method RunFlow(op: Instr) returns (status: Status)
      requires Valid()
      requires op.Return? || op.Jump? || op.Call?
      modifies this`pc, this`stack
      ensures Valid()
      ensures status == StatusOf(ExecuteFlow(old(State()), op))
      ensures State() == Committed(old(State()), ExecuteFlow(old(State()), op))
    {
      status := Executed;
      if op.Return? {
        if |stack| == 0 {
          return Faulted(StackUnderflow);
        }
        pc := stack[|stack| - 1];
        stack := stack[..|stack| - 1];
      } else if op.Jump? {
        pc := op.addr;
      } else {
        stack := stack + [pc];
        pc := op.addr;
      }
    }

    /** The conditional skips. */
    method RunSkip(op: Instr) returns (status: Status)
      requires Valid()
      requires op.SkipEqImm? || op.SkipNeImm? || op.SkipEqReg? || op.SkipNeReg?
      modifies this`pc
      ensures Valid()
      ensures status == StatusOf(ExecuteSkip(old(State()), op))
      ensures State() == Committed(old(State()), ExecuteSkip(old(State()), op))
    {
      status := Executed;
      var skip: bool;
      if op.SkipEqImm? {
        skip := v[op.x] == op.kk;
      } else if op.SkipNeImm? {
        skip := v[op.x] != op.kk;
      } else if op.SkipEqReg? {
        skip := v[op.x] == v[op.y];
      } else {
        skip := v[op.x] != v[op.y];
      }
      if skip {
        pc := pc + 2;
      }
    }

    /** The register writes that set no flag. */
    method RunLoad(op: Instr, rnd: Roll) returns (status: Status)
      requires Valid()
      requires op.LoadImm? || op.AddImm? || op.Move? || op.Or? || op.And? || op.Xor? || op.Random?
      modifies v
      ensures Valid()
      ensures status == StatusOf(ExecuteLoad(old(State()), op, rnd))
      ensures State() == Committed(old(State()), ExecuteLoad(old(State()), op, rnd))
    {
      status := Executed;
      var x := op.x;
      if op.LoadImm? {
        v[x] := op.kk;
      } else if op.AddImm? {
        v[x] := Wrap8(v[x] as int + op.kk);
      } else if op.Move? {
        v[x] := v[op.y];
      } else if op.Or? {
        v[x] := Or8(v[x], v[op.y]);
      } else if op.And? {
        v[x] := And8(v[x], v[op.y]);
      } else if op.Xor? {
        v[x] := Xor8(v[x], v[op.y]);
      } else {
        v[x] := And8(rnd, op.kk);
      }
    }

    /** 8xy4, 8xy5 (result first), 8xy6 and 8xyE (flag first). */
    method RunArith(op: Instr) returns (status: Status)
      requires Valid()
      requires op.AddReg? || op.Sub? || op.ShiftRight? || op.ShiftLeft?
      modifies v
      ensures Valid()
      ensures status == StatusOf(ExecuteArith(old(State()), op))
      ensures State() == Committed(old(State()), ExecuteArith(old(State()), op))
    {
      status := Executed;
      var x := op.x;
      if op.AddReg? {
        var sum := v[x] as int + v[op.y];
        v[VF] := if sum > 0xFF then 1 else 0;
        v[x] := Wrap8(sum);
      } else if op.Sub? {
        var diff := v[x] as int - v[op.y];
        v[VF] := if v[x] > v[op.y] then 1 else 0;
        v[x] := Wrap8(diff);
      } else if op.ShiftRight? {
        v[VF] := v[x] % 2;
        v[x] := v[x] / 2;
      } else {
        v[VF] := v[x] / 0x80;
        v[x] := Wrap8(v[x] as int * 2);
      }
    }

    /** Annn, Fx1E and Fx29. */
    method RunIndex(op: Instr) returns (status: Status)
      requires Valid()
      requires op.SetIndex? || op.AddIndex? || op.FontChar?
      modifies this`ip
      ensures Valid()
      ensures status == StatusOf(ExecuteIndex(old(State()), op))
      ensures State() == Committed(old(State()), ExecuteIndex(old(State()), op))
    {
      status := Executed;
      if op.SetIndex? {
        ip := op.addr;
      } else if op.AddIndex? {
        ip := ip + v[op.x];
      } else {
        ip := v[op.x] as int * 5;
      }
    }

    /** Fx33, and the loops of Fx55 and Fx65 over registers 0..x. */
    method RunMemory(op: Instr) returns (status: Status)
      requires Valid()
      requires op.StoreBcd? || op.StoreRegs? || op.LoadRegs?
      modifies v, memory
      ensures Valid()
      ensures status == StatusOf(ExecuteMemory(old(State()), op))
      ensures State() == Committed(old(State()), ExecuteMemory(old(State()), op))
    {
      status := Executed;
      var x := op.x;
      if op.StoreBcd? {
        if ip + 2 >= MemorySize {
          return Faulted(AddressOutOfRange);
        }
        var d := BcdDigits(v[x]);
        memory[ip] := d.hundreds;
        memory[ip + 1] := d.tens;
        memory[ip + 2] := d.ones;
      } else {
        if ip + x >= MemorySize {
          return Faulted(AddressOutOfRange);
        }
        if op.StoreRegs? {
          CopyTo(memory, ip, v[..x + 1]);
        } else {
          CopyTo(v, 0, memory[ip..ip + x + 1]);
        }
      }
    }

    /** Dxyn: the outer loop over the `n` sprite rows; each row fixes its base point first. */
    method DrawSprite(x: Nibble, y: Nibble, n: Nibble)
      requires Valid() && (n == 0 || ip + n <= MemorySize)
      modifies v, display
      ensures Canvas(v[..], display[..])
              == Drawn(Canvas(old(v[..]), old(display[..])), x, y, SpriteRows(memory[..], ip, n), n)
    {
      ghost var before := Canvas(v[..], display[..]);
      ghost var rows := SpriteRows(memory[..], ip, n);
      var i := 0;
      while i < n
        invariant 0 <= i <= n
        invariant Canvas(v[..], display[..]) == Drawn(before, x, y, rows, i)
      {
        ghost var cur := Canvas(v[..], display[..]);
        var baseX := v[x];
        var baseY := v[y] as int + i;
        var sprite := memory[ip + i];
        assert sprite == rows[i];
        assert baseX == cur.v[x] && baseY == cur.v[y] + i;
        DrawRow(baseX, baseY, sprite);
        assert Canvas(v[..], display[..]) == RowFrom(cur, x, y, i, rows[i]);
        i := i + 1;
      }
    }

    /** Dxyn: the inner loop, `j` from 7 down to 0 with the pixel column `7 - j`. */
    method DrawRow(baseX: int, baseY: int, line: u8)
      requires Valid()
      modifies v, display
      ensures Canvas(v[..], display[..]) == RowDrawn(Canvas(old(v[..]), old(display[..])), baseX, baseY, line, 8)
    {
      ghost var rowStart := Canvas(v[..], display[..]);
      var j := 7;
      while j >= 0
        invariant -1 <= j <= 7
        invariant Canvas(v[..], display[..]) == RowDrawn(rowStart, baseX, baseY, line, 7 - j)
      {
        DrawBit(baseX, baseY, 7 - j, line);
        j := j - 1;
      }
    }

    /** The body of the Dxyn inner loop for pixel column `col` of a row. */
    method DrawBit(baseX: int, baseY: int, col: nat, line: u8)
      requires Valid() && col < 8
      modifies v, display
      ensures Canvas(v[..], display[..])
              == PlotAt(Canvas(old(v[..]), old(display[..])), Cell(baseX + col, baseY), SpriteBit(line, col))
    {
      var px := (baseX + col) % Width;
      var py := baseY % Height;
      var pixel := display[py * Width + px] != SpriteBit(line, col);
      v[VF] := if display[py * Width + px] && !pixel then 1 else 0;
      display[py * Width + px] := pixel;
    }
  }
}
