/** What the JavaScript interpreter's semantics guarantee, and where and how they agree with the
    C++ interpreter's, proved about the functions of modules WebChip and AteChip. */
module WebChipProperties {
  import opened Bytes
  import opened Isa
  import opened Framebuffer
  import opened WebChip
  import A = AteChip
  import AP = AteChipProperties

  // ---------------------------------------------------------------------------------------------
  // Decoding

  /** The script recognises exactly the instructions of the C++ dispatch that it has a case for,
      and decodes them the same way; every other word is unknown to it. */
  lemma DecodeAgrees(word: u16)
    ensures Decode(word) == if Handled(A.Decode(word)) then A.Decode(word) else Unknown
  {
  }

  /** Decoding the canonical word of a handled instruction gives that instruction back. */
  lemma DecodeEncode(op: Instr)
    requires Handled(op)
    ensures Decode(Encode(op)) == op
  {
    AP.DecodeEncode(op);
    DecodeAgrees(Encode(op));
  }

  // ---------------------------------------------------------------------------------------------
  // Dxyn

  /** With neither coordinate register VF, one sprite row comes out the same whether the base point
      is read once per row (the script) or again for every bit (the C++ loop), and V[x], V[y] are
      left as they were. */
  lemma {:induction false} RowAgrees(c: Canvas, x: Nibble, y: Nibble, i: nat, line: u8, j: nat)
    requires Sized(c) && x != VF && y != VF && j <= 8
    ensures A.RowDrawn(c, x, y, i, line, j) == RowDrawn(c, c.v[x], c.v[y] + i, line, j)
    ensures A.RowDrawn(c, x, y, i, line, j).v[x] == c.v[x] && A.RowDrawn(c, x, y, i, line, j).v[y] == c.v[y]
  {
    if j > 0 {
      var k := j - 1;
      RowAgrees(c, x, y, i, line, k);
      var e := A.RowDrawn(c, x, y, i, line, k);
      var cell, bit := Cell(c.v[x] + k, c.v[y] + i), SpriteBit(line, k);
      assert SpriteCell(e.v[x], e.v[y], i, k) == cell;
      assert A.RowDrawn(c, x, y, i, line, j) == PlotAt(e, cell, bit);
      assert RowDrawn(c, c.v[x], c.v[y] + i, line, j) == PlotAt(e, cell, bit);
      PlotAtEffect(e, cell, bit);
    }
  }

  /** With neither coordinate register VF, both interpreters draw a sprite identically. */
  lemma {:induction false} DrawAgrees(c: Canvas, x: Nibble, y: Nibble, rows: seq<u8>, i: nat)
    requires Sized(c) && x != VF && y != VF && i <= |rows|
    ensures A.Drawn(c, x, y, rows, i) == Drawn(c, x, y, rows, i)
  {
    if i > 0 {
      var k := i - 1;
      var d := Drawn(c, x, y, rows, k);
      var row := RowDrawn(d, d.v[x], d.v[y] + k, rows[k], 8);
      assert A.Drawn(c, x, y, rows, k) == d by { DrawAgrees(c, x, y, rows, k); }
      assert A.RowDrawn(d, x, y, k, rows[k], 8) == row by { RowAgrees(d, x, y, k, rows[k], 8); }
      assert A.Drawn(c, x, y, rows, i) == A.RowDrawn(A.Drawn(c, x, y, rows, k), x, y, k, rows[k], 8);
      assert Drawn(c, x, y, rows, i) == row;
    }
  }

  // ---------------------------------------------------------------------------------------------
  // The two interpreters side by side

  /** The C++ state as the script holds it: the same registers, memory, PC, I, stack and screen; the
      timers, the keypad and the started flag have no counterpart. */
  function Project(m: A.Machine): (w: Machine)
    requires A.WellFormed(m)
    ensures WellFormed(w)
  {
    Machine(m.v, m.memory, m.pc, m.ip, m.stack, m.display)
  }

  /** An outcome of the C++ interpreter seen through `Project`. */
  function Lift(r: Result<A.Machine>): (w: Result<Machine>)
    requires r.Ok? ==> A.WellFormed(r.value)
    ensures w.Ok? <==> r.Ok?
    ensures r.Err? ==> w == Err(r.error)
  {
    if r.Err? then Err(r.error) else Ok(Project(r.value))
  }

  /** Where the two interpreters are bound to agree on `op` from state `m`: the script has a case for
      it; Dxyn, 8xy4 and 8xy5 name no VF operand (the C++ code rereads registers after writing VF);
      neither a skip nor Fx1E carries PC or I past 16 bits (the C++ registers wrap, the script's
      numbers do not). */
  predicate Comparable(m: A.Machine, op: Instr)
    requires A.WellFormed(m)
  {
    && Handled(op)
    && (op.Draw? || op.AddReg? || op.Sub? ==> op.x != VF && op.y != VF)
    && (op.SkipEqImm? || op.SkipNeImm? || op.SkipEqReg? || op.SkipNeReg? ==> m.pc as int + 2 < 0x10000)
    && (op.AddIndex? ==> m.ip as int + m.v[op.x] < 0x10000)
  }

  /** On every instruction where they are bound to agree, the script computes from the projected
      state exactly what the C++ interpreter computes, faults included. */
  lemma ExecuteAgrees(m: A.Machine, op: Instr, rnd: Roll)
    requires A.WellFormed(m) && Comparable(m, op)
    ensures Lift(A.Execute(m, op, rnd)) == Execute(Project(m), op, rnd)
  {
    var w := Project(m);
    if op.ClearScreen? || op.Draw? {
      assert A.Execute(m, op, rnd) == A.ExecuteDisplay(m, op) && Execute(w, op, rnd) == ExecuteDisplay(w, op);
      DisplayAgrees(m, op, rnd);
    } else if op.Return? || op.Jump? || op.Call? {
      assert A.Execute(m, op, rnd) == A.ExecuteFlow(m, op) && Execute(w, op, rnd) == ExecuteFlow(w, op);
      FlowAgrees(m, op, rnd);
    } else if op.SkipEqImm? || op.SkipNeImm? || op.SkipEqReg? || op.SkipNeReg? {
      assert A.Execute(m, op, rnd) == A.ExecuteSkip(m, op) && Execute(w, op, rnd) == ExecuteSkip(w, op);
      SkipAgrees(m, op, rnd);
    } else if op.LoadImm? || op.AddImm? || op.Move? || op.Or? || op.And? || op.Xor? || op.Random? {
      assert A.Execute(m, op, rnd) == A.ExecuteLoad(m, op, rnd) && Execute(w, op, rnd) == ExecuteLoad(w, op, rnd);
      LoadAgrees(m, op, rnd);
    } else if op.AddReg? || op.Sub? {
      assert A.Execute(m, op, rnd) == A.ExecuteArith(m, op) && Execute(w, op, rnd) == ExecuteArith(w, op);
      ArithAgrees(m, op, rnd);
    } else if op.ShiftRight? || op.ShiftLeft? {
      assert A.Execute(m, op, rnd) == A.ExecuteShift(m, op) && Execute(w, op, rnd) == ExecuteArith(w, op);
      ShiftAgrees(m, op, rnd);
    } else if op.SetIndex? || op.AddIndex? || op.FontChar? {
      assert A.Execute(m, op, rnd) == A.ExecuteIndexTimer(m, op) && Execute(w, op, rnd) == ExecuteIndex(w, op);
      IndexAgrees(m, op, rnd);
    } else {
      assert A.Execute(m, op, rnd) == A.ExecuteMemory(m, op) && Execute(w, op, rnd) == ExecuteMemory(w, op);
      MemoryAgrees(m, op, rnd);
    }
  }

  lemma DisplayAgrees(m: A.Machine, op: Instr, rnd: Roll)
    requires A.WellFormed(m) && Comparable(m, op) && (op.ClearScreen? || op.Draw?)
    ensures Lift(A.ExecuteDisplay(m, op)) == ExecuteDisplay(Project(m), op)
  {
    if op.Draw? && !(op.n > 0 && m.ip + op.n > MemorySize) {
      var rows := SpriteRows(m.memory, m.ip, op.n);
      DrawAgrees(Canvas(m.v, m.display), op.x, op.y, rows, op.n);
      assert Project(A.Sprite(m, op.x, op.y, op.n)) == Sprite(Project(m), op.x, op.y, op.n);
    }
  }

  lemma FlowAgrees(m: A.Machine, op: Instr, rnd: Roll)
    requires A.WellFormed(m) && Comparable(m, op) && (op.Return? || op.Jump? || op.Call?)
    ensures Lift(A.ExecuteFlow(m, op)) == ExecuteFlow(Project(m), op)
  {
    if op.Return? {
    } else if op.Jump? {
    }
  }

  lemma SkipAgrees(m: A.Machine, op: Instr, rnd: Roll)
    requires A.WellFormed(m) && Comparable(m, op)
    requires op.SkipEqImm? || op.SkipNeImm? || op.SkipEqReg? || op.SkipNeReg?
    ensures Lift(A.ExecuteSkip(m, op)) == ExecuteSkip(Project(m), op)
  {
    if op.SkipEqImm? {
    } else if op.SkipNeImm? {
    } else if op.SkipEqReg? {
    }
  }

  lemma LoadAgrees(m: A.Machine, op: Instr, rnd: Roll)
    requires A.WellFormed(m) && Comparable(m, op)
    requires op.LoadImm? || op.AddImm? || op.Move? || op.Or? || op.And? || op.Xor? || op.Random?
    ensures Lift(A.ExecuteLoad(m, op, rnd)) == ExecuteLoad(Project(m), op, rnd)
  {
    if op.LoadImm? {
    } else if op.AddImm? {
    } else if op.Move? {
    } else if op.Or? {
    } else if op.And? {
    } else if op.Xor? {
    }
  }

  lemma ArithAgrees(m: A.Machine, op: Instr, rnd: Roll)
    requires A.WellFormed(m) && Comparable(m, op) && (op.AddReg? || op.Sub?)
    ensures Lift(A.ExecuteArith(m, op)) == ExecuteArith(Project(m), op)
  {
    if op.AddReg? {
    }
  }

  lemma ShiftAgrees(m: A.Machine, op: Instr, rnd: Roll)
    requires A.WellFormed(m) && Comparable(m, op) && (op.ShiftRight? || op.ShiftLeft?)
    ensures Lift(A.ExecuteShift(m, op)) == ExecuteArith(Project(m), op)
  {
    if op.ShiftRight? {
    }
  }

  lemma IndexAgrees(m: A.Machine, op: Instr, rnd: Roll)
    requires A.WellFormed(m) && Comparable(m, op) && (op.SetIndex? || op.AddIndex? || op.FontChar?)
    ensures Lift(A.ExecuteIndexTimer(m, op)) == ExecuteIndex(Project(m), op)
  {
    if op.SetIndex? {
    } else if op.AddIndex? {
    }
  }

  lemma MemoryAgrees(m: A.Machine, op: Instr, rnd: Roll)
    requires A.WellFormed(m) && Comparable(m, op) && (op.StoreBcd? || op.StoreRegs? || op.LoadRegs?)
    ensures Lift(A.ExecuteMemory(m, op)) == ExecuteMemory(Project(m), op)
  {
    if op.StoreBcd? {
    } else if op.StoreRegs? {
    }
  }

  /** Once a ROM is loaded, a whole `cycle()` of the script matches one of the C++ interpreter whenever
      the fetched instruction is one where they are bound to agree. */
  lemma StepAgrees(m: A.Machine, rnd: Roll)
    requires A.WellFormed(m) && m.started && m.pc + 1 < MemorySize
    requires Comparable(m, A.Decode(A.Fetch(m)))
    ensures Lift(A.Step(m, rnd)) == Step(Project(m), rnd)
  {
    var word := A.Fetch(m);
    assert Fetch(Project(m)) == word;
    DecodeAgrees(word);
    var next := m.(pc := m.pc + 2);
    assert Project(next) == Project(m).(pc := Project(m).pc + 2);
    ExecuteAgrees(next, A.Decode(word), rnd);
  }

  // ---------------------------------------------------------------------------------------------
  // Where the two interpreters part

  /** 8xy4 reading VF: the script adds the old VF, the C++ code the carry it has just written. With
      V0 = 0x10 and VF = 5 the script leaves V0 = 0x15, the C++ interpreter V0 = 0x10. */
  lemma AddRegFromFlagDiffers(m: A.Machine, rnd: Roll)
    requires A.WellFormed(m) && m.v[0] == 0x10 && m.v[VF] == 5
    ensures A.Execute(m, AddReg(0, VF), rnd).Ok? && A.Execute(m, AddReg(0, VF), rnd).value.v[0] == 0x10
    ensures Execute(Project(m), AddReg(0, VF), rnd).Ok? && Execute(Project(m), AddReg(0, VF), rnd).value.v[0] == 0x15
  {
    AP.AddRegFromFlag(m, 0, rnd);
  }

  /** Fx1E at the top of the 16-bit range: with I = 0xFFFF and Vx = 1 the C++ I wraps to 0, the
      script's I becomes 0x10000. */
  lemma AddIndexDiffers(m: A.Machine, x: Nibble, rnd: Roll)
    requires A.WellFormed(m) && m.ip == 0xFFFF && m.v[x] == 1
    ensures A.Execute(m, AddIndex(x), rnd) == Ok(m.(ip := 0))
    ensures Execute(Project(m), AddIndex(x), rnd) == Ok(Project(m).(ip := 0x10000))
  {
  }

  // ---------------------------------------------------------------------------------------------
  // The script on its own

  /** A word holding a known instruction, fetched at PC, is executed after PC moved past it when the
      script has a case for it; otherwise the cycle only moves PC on and reports a warning. */
  lemma StepExecutesFetched(m: Machine, op: Instr, rnd: Roll)
    requires WellFormed(m) && m.pc + 1 < MemorySize && !op.Unknown?
    requires m.memory[m.pc] == Encode(op) / 0x100 && m.memory[m.pc + 1] == Encode(op) % 0x100
    ensures Step(m, rnd) == if Handled(op) then Execute(m.(pc := m.pc + 2), op, rnd) else Ok(m.(pc := m.pc + 2))
    ensures CycleStatus(m, rnd) == Reported(op, Step(m, rnd))
    ensures CycleStatus(m, rnd) == Warned <==> !Handled(op)
  {
    var word := Fetch(m);
    assert word == Encode(op) by { SplitJoinBytes(Encode(op)); }
    assert Decode(word) == if Handled(op) then op else Unknown by {
      AP.DecodeEncode(op);
      DecodeAgrees(word);
    }
    assert Step(m, rnd) == Execute(m.(pc := m.pc + 2), Decode(word), rnd);
  }

  /** A word the script has no case for (8xy7, Bnnn, Exxx, Fx07, Fx15, Fx18, 0nnn and every other
      unknown word) costs a cycle that only moves PC on by two and reports a warning. */
  lemma UnhandledOnlyAdvances(m: Machine, rnd: Roll)
    requires WellFormed(m) && m.pc + 1 < MemorySize && Decode(Fetch(m)).Unknown?
    ensures Step(m, rnd) == Ok(m.(pc := m.pc + 2))
    ensures CycleStatus(m, rnd) == Warned
  {
  }

  /** Whether the conditional skip `op` finds its condition true in `m`. */
  predicate SkipTaken(m: Machine, op: Instr)
    requires WellFormed(m) && (op.SkipEqImm? || op.SkipNeImm? || op.SkipEqReg? || op.SkipNeReg?)
  {
    if op.SkipEqImm? then m.v[op.x] == op.kk
    else if op.SkipNeImm? then m.v[op.x] != op.kk
    else if op.SkipEqReg? then m.v[op.x] == m.v[op.y]
    else m.v[op.x] != m.v[op.y]
  }

  /** A cycle that fetches 3xkk, 4xkk, 5xy0 or 9xy0 leaves PC four bytes on when the condition holds
      and two bytes on otherwise, and changes nothing else. */
  lemma SkipsAdvance(m: Machine, op: Instr, rnd: Roll)
    requires WellFormed(m) && m.pc + 1 < MemorySize
    requires op.SkipEqImm? || op.SkipNeImm? || op.SkipEqReg? || op.SkipNeReg?
    requires m.memory[m.pc] == Encode(op) / 0x100 && m.memory[m.pc + 1] == Encode(op) % 0x100
    ensures Step(m, rnd) == Ok(m.(pc := m.pc + if SkipTaken(m, op) then 4 else 2))
  {
    var next := m.(pc := m.pc + 2);
    StepExecutesFetched(m, op, rnd);
    assert Execute(next, op, rnd) == ExecuteSkip(next, op);
    assert ExecuteSkip(next, op) == Ok(SkipIf(next, SkipTaken(m, op)));
  }

  /** 7xkk adds without a flag: Vx becomes Vx + kk modulo 256 and nothing else changes. */
  lemma AddImmWraps(m: Machine, x: Nibble, kk: u8, rnd: Roll)
    requires WellFormed(m)
    ensures Execute(m, AddImm(x, kk), rnd) == Ok(m.(v := m.v[x := (m.v[x] as int + kk) % 0x100]))
  {
  }

  /** 8xy4 into a register other than VF keeps every bit of the sum, whatever Vy is, VF included:
      VF:Vx is Vx + Vy. */
  lemma AddRegCarries(m: Machine, x: Nibble, y: Nibble, rnd: Roll)
    requires WellFormed(m) && x != VF
    ensures Execute(m, AddReg(x, y), rnd).Ok?
    ensures var r := Execute(m, AddReg(x, y), rnd).value;
      && r == m.(v := r.v)
      && r.v[VF] as int * 0x100 + r.v[x] == m.v[x] as int + m.v[y]
      && forall i :: 0 <= i < VF && i != x ==> r.v[i] == m.v[i]
  {
  }

  /** 8xy5 into a register other than VF, whatever Vy is: Vx is the difference modulo 256 and VF is 1
      only when Vx was strictly greater. */
  lemma SubBorrows(m: Machine, x: Nibble, y: Nibble, rnd: Roll)
    requires WellFormed(m) && x != VF
    ensures Execute(m, Sub(x, y), rnd).Ok?
    ensures var r := Execute(m, Sub(x, y), rnd).value;
      && r == m.(v := r.v)
      && r.v[x] == (if m.v[x] >= m.v[y] then m.v[x] as int - m.v[y] else m.v[x] as int - m.v[y] + 0x100)
      && r.v[VF] == (if m.v[x] > m.v[y] then 1 else 0)
      && forall i :: 0 <= i < VF && i != x ==> r.v[i] == m.v[i]
  {
  }

  /** 8xy4 into VF keeps only the low byte of the sum: the carry written first is overwritten. */
  lemma AddRegIntoFlag(m: Machine, y: Nibble, rnd: Roll)
    requires WellFormed(m)
    ensures Execute(m, AddReg(VF, y), rnd) == Ok(m.(v := m.v[VF := Wrap8(m.v[VF] as int + m.v[y])]))
  {
    var sum := m.v[VF] as int + m.v[y];
    assert m.v[VF := if sum > 0xFF then 1 else 0][VF := Wrap8(sum)] == m.v[VF := Wrap8(sum)];
  }

  /** 8xy6 and 8xyE with Vx outside VF: the bit shifted out lands in VF, so Vx:VF (right shift) and
      VF:Vx (left shift) keep every bit of the old Vx. */
  lemma ShiftsKeepBits(m: Machine, x: Nibble, rnd: Roll)
    requires WellFormed(m) && x != VF
    ensures Execute(m, ShiftRight(x), rnd).Ok? && Execute(m, ShiftLeft(x), rnd).Ok?
    ensures var r := Execute(m, ShiftRight(x), rnd).value;
      r == m.(v := r.v) && r.v[VF] <= 1 && r.v[x] as int * 2 + r.v[VF] == m.v[x]
      && forall i :: 0 <= i < VF && i != x ==> r.v[i] == m.v[i]
    ensures var r := Execute(m, ShiftLeft(x), rnd).value;
      r == m.(v := r.v) && r.v[VF] <= 1 && r.v[VF] as int * 0x100 + r.v[x] == 2 * m.v[x] as int
      && forall i :: 0 <= i < VF && i != x ==> r.v[i] == m.v[i]
  {
  }

  /** Fx33 stores the three decimal digits of Vx at I, I+1 and I+2, and only there; it faults when
      I+2 is past the end of memory. */
  lemma StoreBcdDigits(m: Machine, x: Nibble, rnd: Roll)
    requires WellFormed(m)
    ensures Execute(m, StoreBcd(x), rnd).Err? <==> m.ip + 2 >= MemorySize
    ensures Execute(m, StoreBcd(x), rnd).Ok? ==>
      var r := Execute(m, StoreBcd(x), rnd).value;
      && r == m.(memory := r.memory)
      && r.memory[m.ip] as int * 100 + r.memory[m.ip + 1] as int * 10 + r.memory[m.ip + 2] == m.v[x]
      && r.memory[m.ip + 1] < 10 && r.memory[m.ip + 2] < 10
      && forall i :: 0 <= i < MemorySize && !(m.ip <= i <= m.ip + 2) ==> r.memory[i] == m.memory[i]
  {
  }

  /** Dxyn with neither coordinate in VF XORs each sprite bit into the cell under it, leaves every
      cell no bit lands on and every register below VF alone. */
  lemma DrawXors(m: Machine, x: Nibble, y: Nibble, n: Nibble, rnd: Roll)
    requires WellFormed(m) && x != VF && y != VF && (n == 0 || m.ip + n <= MemorySize)
    ensures Execute(m, Draw(x, y, n), rnd).Ok?
    ensures var r := Execute(m, Draw(x, y, n), rnd).value;
      && r == m.(v := r.v, display := r.display)
      && r.v[..VF] == m.v[..VF]
      && (forall i, j :: 0 <= i < n && 0 <= j < 8 ==>
            r.display[SpriteCell(m.v[x], m.v[y], i, j)]
            == (m.display[SpriteCell(m.v[x], m.v[y], i, j)] != SpriteBit(SpriteRows(m.memory, m.ip, n)[i], j)))
      && (forall cell :: 0 <= cell < Cells && !AP.Covered(m.v[x], m.v[y], n, cell) ==> r.display[cell] == m.display[cell])
    ensures n == 0 ==> Execute(m, Draw(x, y, n), rnd).value.v[VF] == m.v[VF]
    ensures n > 0 ==> Execute(m, Draw(x, y, n), rnd).value.v[VF]
                      == if m.display[SpriteCell(m.v[x], m.v[y], n - 1, 7)] && SpriteBit(m.memory[m.ip + n - 1], 7) then 1 else 0
  {
    var rows := SpriteRows(m.memory, m.ip, n);
    var c := Canvas(m.v, m.display);
    var r := Execute(m, Draw(x, y, n), rnd).value;
    assert r == Sprite(m, x, y, n);
    DrawAgrees(c, x, y, rows, n);
    if n > 0 {
      AP.DrawnLastCollision(c, x, y, rows, n);
    }
    AP.DrawnFlips(c, x, y, rows, n, 0);
    forall i, j | 0 <= i < n && 0 <= j < 8
      ensures r.display[SpriteCell(m.v[x], m.v[y], i, j)]
              == (m.display[SpriteCell(m.v[x], m.v[y], i, j)] != SpriteBit(rows[i], j))
    {
      AP.DrawnFlips(c, x, y, rows, n, SpriteCell(m.v[x], m.v[y], i, j));
      FlipsAt(m.v[x], m.v[y], rows, n, i, j);
    }
    forall cell | 0 <= cell < Cells && !AP.Covered(m.v[x], m.v[y], n, cell)
      ensures r.display[cell] == m.display[cell]
    {
      AP.DrawnFlips(c, x, y, rows, n, cell);
      FlipsOutside(m.v[x], m.v[y], rows, n, cell);
    }
  }

  /** Drawing the same sprite twice at the same place restores the screen: the XOR undoes itself. */
  lemma DrawTwiceRestores(m: Machine, x: Nibble, y: Nibble, n: Nibble, rnd: Roll)
    requires WellFormed(m) && x != VF && y != VF && (n == 0 || m.ip + n <= MemorySize)
    ensures Execute(m, Draw(x, y, n), rnd).Ok?
    ensures var once := Execute(m, Draw(x, y, n), rnd).value;
      Execute(once, Draw(x, y, n), rnd).Ok? && Execute(once, Draw(x, y, n), rnd).value.display == m.display
  {
    var rows := SpriteRows(m.memory, m.ip, n);
    var c := Canvas(m.v, m.display);
    var once := Execute(m, Draw(x, y, n), rnd).value;
    assert once == Sprite(m, x, y, n);
    var c1 := Canvas(once.v, once.display);
    var twice := Execute(once, Draw(x, y, n), rnd).value;
    assert twice == Sprite(once, x, y, n);
    DrawAgrees(c, x, y, rows, n);
    DrawAgrees(c1, x, y, rows, n);
    AP.DrawnFlips(c, x, y, rows, n, 0);
    assert once.v[x] == once.v[..VF][x] && once.v[y] == once.v[..VF][y];
    forall cell | 0 <= cell < Cells
      ensures twice.display[cell] == m.display[cell]
    {
      AP.DrawnFlips(c, x, y, rows, n, cell);
      AP.DrawnFlips(c1, x, y, rows, n, cell);
    }
  }

  /** VF after Dxyn reports only the last bit written: a one-row sprite `0x80` drawn at the origin over
      a lit pixel switches that pixel off, yet VF ends 0 because the row's last bit is clear. */
  lemma CollisionOnlyLastBit(m: Machine, rnd: Roll)
    requires WellFormed(m) && m.v[0] == 0 && m.v[1] == 0 && m.display[0]
    requires m.ip < MemorySize && m.memory[m.ip] == 0x80
    ensures Execute(m, Draw(0, 1, 1), rnd).Ok?
    ensures !Execute(m, Draw(0, 1, 1), rnd).value.display[0]
    ensures Execute(m, Draw(0, 1, 1), rnd).value.v[VF] == 0
  {
    var rows := SpriteRows(m.memory, m.ip, 1);
    assert rows == [0x80];
    var c := Canvas(m.v, m.display);
    var r := Execute(m, Draw(0, 1, 1), rnd).value;
    assert r == Sprite(m, 0, 1, 1);
    DrawAgrees(c, 0, 1, rows, 1);
    AP.DrawnFlips(c, 0, 1, rows, 1, 0);
    FlipsAt(0, 0, rows, 1, 0, 0);
    var before := A.RowDrawn(c, 0, 1, 0, 0x80, 7);
    assert A.Drawn(c, 0, 1, rows, 1) == PlotAt(before, SpriteCell(before.v[0], before.v[1], 0, 7), SpriteBit(0x80, 7));
    PlotAtEffect(before, SpriteCell(before.v[0], before.v[1], 0, 7), SpriteBit(0x80, 7));
  }

  /** 2nnn jumps to nnn and pushes the return address; 00EE right after it restores the machine
      exactly. 00EE with an empty stack faults. */
  lemma CallThenReturn(m: Machine, a: Addr, rnd: Roll)
    requires WellFormed(m)
    ensures Execute(m, Call(a), rnd).Ok?
    ensures var c := Execute(m, Call(a), rnd).value;
      c.pc == a && |c.stack| == |m.stack| + 1 && Execute(c, Return, rnd) == Ok(m)
    ensures m.stack == [] ==> Execute(m, Return, rnd) == Err(StackUnderflow)
  {
    var c := Execute(m, Call(a), rnd).value;
    assert c.stack[..|c.stack| - 1] == m.stack;
  }

  /** Fx55 copies V0..Vx to I..I+x and Fx65 right after it, with the same I and x, reads the same
      values back, so it changes nothing; both fault when I+x is past the end of memory. */
  lemma StoreThenLoadRegs(m: Machine, x: Nibble, rnd: Roll)
    requires WellFormed(m)
    ensures Execute(m, StoreRegs(x), rnd).Err? <==> m.ip + x >= MemorySize
    ensures Execute(m, LoadRegs(x), rnd).Err? <==> m.ip + x >= MemorySize
    ensures Execute(m, StoreRegs(x), rnd).Ok? ==>
      var s := Execute(m, StoreRegs(x), rnd).value;
      s.memory[m.ip..m.ip + x + 1] == m.v[..x + 1] && Execute(s, LoadRegs(x), rnd) == Ok(s)
  {
    if m.ip + x < MemorySize {
      var s := Execute(m, StoreRegs(x), rnd).value;
      var data := s.memory[s.ip..s.ip + x + 1];
      assert data == s.v[..x + 1];
      OverlayOwnPrefix(s.v, data);
      assert ExecuteMemory(s, LoadRegs(x)) == Ok(s.(v := Overlay(s.v, 0, data)));
    }
  }

  /** With a font of at least the sixteen five-byte glyphs loaded below the program, Fx29 points I at
      the glyph of the digit in Vx. */
  lemma FontCharFindsGlyph(m: Machine, font: seq<u8>, rom: seq<u8>, x: Nibble, rnd: Roll)
    requires WellFormed(m) && 80 <= |font| <= m.pc && Loaded(m, font, rom).Ok?
    requires Loaded(m, font, rom).value.v[x] < 16
    ensures Execute(Loaded(m, font, rom).value, FontChar(x), rnd).Ok?
    ensures var r := Execute(Loaded(m, font, rom).value, FontChar(x), rnd).value;
      var d := m.v[x];
      r.ip + 5 <= MemorySize && r.memory[r.ip..r.ip + 5] == font[5 * d..5 * d + 5]
  {
    var l := Loaded(m, font, rom).value;
    var r := Execute(l, FontChar(x), rnd).value;
    forall i | r.ip <= i < r.ip + 5
      ensures r.memory[i] == font[i]
    {
    }
  }
}
