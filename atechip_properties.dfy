/** What the C++ interpreter's semantics guarantee, proved about the functions of module AteChip. */
module AteChipProperties {
  import opened Bytes
  import opened Isa
  import opened Framebuffer
  import opened AteChip

  // ---------------------------------------------------------------------------------------------
  // Dxyn

  /** Drawing the first `j` bits of row `i` flips a cell exactly when an odd number of the set bits
      among them land on it, and changes no register except VF, as long as neither coordinate register
      is VF. */
  lemma {:induction false} RowDrawnFlips(c: Canvas, x: Nibble, y: Nibble, i: nat, line: u8, j: nat, cell: nat)
    requires Sized(c) && x != VF && y != VF && j <= 8 && cell < Cells
    ensures RowDrawn(c, x, y, i, line, j).v[..VF] == c.v[..VF]
    ensures RowDrawn(c, x, y, i, line, j).display[cell] == (c.display[cell] != RowFlips(c.v[x], c.v[y], line, i, j, cell))
  {
    if j > 0 {
      RowDrawnFlips(c, x, y, i, line, j - 1, cell);
      var e := RowDrawn(c, x, y, i, line, j - 1);
      assert e.v[x] == c.v[x] && e.v[y] == c.v[y] by {
        assert e.v[x] == e.v[..VF][x] && e.v[y] == e.v[..VF][y];
        assert c.v[x] == c.v[..VF][x] && c.v[y] == c.v[..VF][y];
      }
      PlotAtEffect(e, SpriteCell(e.v[x], e.v[y], i, j - 1), SpriteBit(line, j - 1));
    }
  }

  /** Drawing the first `i` rows flips a cell exactly when an odd number of the set sprite bits land
      on it, and changes no register except VF, as long as neither coordinate register is VF. */
  lemma {:induction false} DrawnFlips(c: Canvas, x: Nibble, y: Nibble, rows: seq<u8>, i: nat, cell: nat)
    requires Sized(c) && x != VF && y != VF && i <= |rows| && cell < Cells
    ensures Drawn(c, x, y, rows, i).v[..VF] == c.v[..VF]
    ensures Drawn(c, x, y, rows, i).display[cell] == (c.display[cell] != Flips(c.v[x], c.v[y], rows, i, cell))
  {
    if i > 0 {
      var k := i - 1;
      DrawnFlips(c, x, y, rows, k, cell);
      var d := Drawn(c, x, y, rows, k);
      assert d.v[x] == d.v[..VF][x] && d.v[y] == d.v[..VF][y];
      RowDrawnFlips(d, x, y, k, rows[k], 8, cell);
    }
  }

  /** After a sprite of at most 32 rows, VF holds only the collision of the last bit written: whether
      the last bit of the last row is set and its cell was lit before the draw. No earlier bit lands on
      that cell, so its pixel is still the one the screen had. */
  lemma DrawnLastCollision(c: Canvas, x: Nibble, y: Nibble, rows: seq<u8>, i: nat)
    requires Sized(c) && x != VF && y != VF && 0 < i <= |rows| <= Height
    ensures Drawn(c, x, y, rows, i).v[VF]
            == if c.display[SpriteCell(c.v[x], c.v[y], i - 1, 7)] && SpriteBit(rows[i - 1], 7) then 1 else 0
  {
    var k := i - 1;
    var vx, vy := c.v[x], c.v[y];
    var cell := SpriteCell(vx, vy, k, 7);
    var d := Drawn(c, x, y, rows, k);
    var e := RowDrawn(d, x, y, k, rows[k], 7);
    forall r, col | 0 <= r < k && 0 <= col < 8 ensures SpriteCell(vx, vy, r, col) != cell {
      CellsDistinct(vx, vy, r, col, k, 7);
    }
    FlipsOutside(vx, vy, rows, k, cell);
    DrawnFlips(c, x, y, rows, k, cell);
    assert d.v[x] == d.v[..VF][x] && d.v[y] == d.v[..VF][y];
    forall col | 0 <= col < 7 ensures SpriteCell(vx, vy, k, col) != cell {
      CellsDistinct(vx, vy, k, col, k, 7);
    }
    RowFlipsOutside(vx, vy, rows[k], k, 7, cell);
    RowDrawnFlips(d, x, y, k, rows[k], 7, cell);
    assert e.v[x] == e.v[..VF][x] && e.v[y] == e.v[..VF][y];
    assert e.display[cell] == c.display[cell];
    PlotAtEffect(e, cell, SpriteBit(rows[k], 7));
  }

  /** Whether some bit of an `n`-row sprite anchored at `(vx, vy)` lands on `cell`. */
  predicate Covered(vx: int, vy: int, n: nat, cell: nat)
  {
    exists r, col :: 0 <= r < n && 0 <= col < 8 && SpriteCell(vx, vy, r, col) == cell
  }

  /** Dxyn with coordinates outside VF XORs every sprite bit into its own cell, leaves every cell the
      sprite does not cover as it was, and changes no register except VF and nothing but the screen. */
  lemma DrawXors(m: Machine, x: Nibble, y: Nibble, n: Nibble, rnd: u8)
    requires WellFormed(m) && x != VF && y != VF && (n == 0 || m.ip + n <= MemorySize)
    ensures Execute(m, Draw(x, y, n), rnd).Ok?
    ensures var r := Execute(m, Draw(x, y, n), rnd).value;
      && r == m.(v := r.v, display := r.display)
      && r.v[..VF] == m.v[..VF]
      && (forall i, j :: 0 <= i < n && 0 <= j < 8 ==>
            r.display[SpriteCell(m.v[x], m.v[y], i, j)]
            == (m.display[SpriteCell(m.v[x], m.v[y], i, j)] != SpriteBit(SpriteRows(m.memory, m.ip, n)[i], j)))
      && (forall cell :: 0 <= cell < Cells && !Covered(m.v[x], m.v[y], n, cell) ==> r.display[cell] == m.display[cell])
    ensures n == 0 ==> Execute(m, Draw(x, y, n), rnd).value.v[VF] == m.v[VF]
    ensures n > 0 ==> Execute(m, Draw(x, y, n), rnd).value.v[VF]
                      == if m.display[SpriteCell(m.v[x], m.v[y], n - 1, 7)] && SpriteBit(m.memory[m.ip + n - 1], 7) then 1 else 0
  {
    var rows := SpriteRows(m.memory, m.ip, n);
    var c := Canvas(m.v, m.display);
    var r := Execute(m, Draw(x, y, n), rnd).value;
    assert r == Sprite(m, x, y, n);
    if n > 0 {
      DrawnLastCollision(c, x, y, rows, n);
    }
    DrawnFlips(c, x, y, rows, n, 0);
    forall i, j | 0 <= i < n && 0 <= j < 8
      ensures r.display[SpriteCell(m.v[x], m.v[y], i, j)]
              == (m.display[SpriteCell(m.v[x], m.v[y], i, j)] != SpriteBit(rows[i], j))
    {
      DrawnFlips(c, x, y, rows, n, SpriteCell(m.v[x], m.v[y], i, j));
      FlipsAt(m.v[x], m.v[y], rows, n, i, j);
    }
    forall cell | 0 <= cell < Cells && !Covered(m.v[x], m.v[y], n, cell)
      ensures r.display[cell] == m.display[cell]
    {
      DrawnFlips(c, x, y, rows, n, cell);
      FlipsOutside(m.v[x], m.v[y], rows, n, cell);
    }
  }

  /** Drawing the same sprite twice at the same place restores the screen: the XOR undoes itself. */
  lemma DrawTwiceRestores(m: Machine, x: Nibble, y: Nibble, n: Nibble, rnd: u8)
    requires WellFormed(m) && x != VF && y != VF && (n == 0 || m.ip + n <= MemorySize)
    ensures Execute(m, Draw(x, y, n), rnd).Ok?
    ensures var once := Execute(m, Draw(x, y, n), rnd).value;
      Execute(once, Draw(x, y, n), rnd).Ok? && Execute(once, Draw(x, y, n), rnd).value.display == m.display
  {
    var rows := SpriteRows(m.memory, m.ip, n);
    var once := Execute(m, Draw(x, y, n), rnd).value;
    assert once == Sprite(m, x, y, n);
    var twice := Execute(once, Draw(x, y, n), rnd).value;
    assert twice == Sprite(once, x, y, n);
    DrawnFlips(Canvas(m.v, m.display), x, y, rows, n, 0);
    assert once.v[x] == once.v[..VF][x] && once.v[y] == once.v[..VF][y];
    forall cell | 0 <= cell < Cells
      ensures twice.display[cell] == m.display[cell]
    {
      DrawnFlips(Canvas(m.v, m.display), x, y, rows, n, cell);
      DrawnFlips(Canvas(once.v, once.display), x, y, rows, n, cell);
    }
  }

  /** VF after Dxyn reports only the last bit written: a one-row sprite `0x80` drawn at the origin over
      a lit pixel switches that pixel off, yet VF ends 0 because the row's last bit is clear. */
  lemma CollisionOnlyLastBit(m: Machine, rnd: u8)
    requires WellFormed(m) && m.v[0] == 0 && m.v[1] == 0 && m.display[0]
    requires m.ip < MemorySize && m.memory[m.ip] == 0x80
    ensures Execute(m, Draw(0, 1, 1), rnd).Ok?
    ensures !Execute(m, Draw(0, 1, 1), rnd).value.display[0]
    ensures Execute(m, Draw(0, 1, 1), rnd).value.v[VF] == 0
  {
    var rows := SpriteRows(m.memory, m.ip, 1);
    assert rows == [0x80];
    var c := Canvas(m.v, m.display);
    var r := Execute(m, Draw(0, 1, 1), rnd).value;
    assert r == Sprite(m, 0, 1, 1);
    DrawnFlips(c, 0, 1, rows, 1, 0);
    FlipsAt(0, 0, rows, 1, 0, 0);
    var before := RowDrawn(c, 0, 1, 0, 0x80, 7);
    assert Drawn(c, 0, 1, rows, 1) == PlotAt(before, SpriteCell(before.v[0], before.v[1], 0, 7), SpriteBit(0x80, 7));
    PlotAtEffect(before, SpriteCell(before.v[0], before.v[1], 0, 7), SpriteBit(0x80, 7));
  }

  /** Bits `k .. j - 1` of a row that are all clear, drawn after VF was reset, change nothing. */
  lemma {:induction false} ClearBitsKeep(c: Canvas, x: Nibble, y: Nibble, i: nat, line: u8, k: nat, j: nat)
    requires Sized(c) && k <= j <= 8 && RowDrawn(c, x, y, i, line, k).v[VF] == 0
    requires forall b :: k <= b < j ==> !SpriteBit(line, b)
    ensures RowDrawn(c, x, y, i, line, j) == RowDrawn(c, x, y, i, line, k)
  {
    if j > k {
      ClearBitsKeep(c, x, y, i, line, k, j - 1);
      var e := RowDrawn(c, x, y, i, line, j - 1);
      PlotClearBit(e, SpriteCell(e.v[x], e.v[y], i, j - 1));
    }
  }

  /** With VF as the X register, the C++ loop reads VF again for every bit, and each bit's collision
      moves the column of the next one. The row `0xC0` at V[F] = 0 over a lit pixel at the origin: the
      first bit switches that pixel off and sets VF to 1, so the second bit lands on column 2 instead
      of column 1. */
  lemma RowFromFlagMovesAnchor(c: Canvas)
    requires Sized(c) && c.v[VF] == 0 && c.v[1] == 0
    requires c.display[0] && !c.display[1] && !c.display[2]
    ensures var r := RowDrawn(c, VF, 1, 0, 0xC0, 8);
      !r.display[0] && !r.display[1] && r.display[2] && r.v[VF] == 0
  {
    var e1 := RowDrawn(c, VF, 1, 0, 0xC0, 1);
    assert e1 == PlotAt(c, 0, true) by {
      assert RowDrawn(c, VF, 1, 0, 0xC0, 0) == c;
      assert e1 == PlotBit(c, VF, 1, 0, 0, 0xC0);
      assert SpriteCell(c.v[VF], c.v[1], 0, 0) == Cell(0, 0) == 0;
      assert SpriteBit(0xC0, 0);
    }
    assert !e1.display[0] && !e1.display[1] && !e1.display[2] && e1.v[VF] == 1 && e1.v[1] == 0 by {
      PlotAtEffect(c, 0, true);
    }
    var e2 := RowDrawn(c, VF, 1, 0, 0xC0, 2);
    assert e2 == PlotAt(e1, 2, true) by {
      assert e2 == PlotBit(e1, VF, 1, 0, 1, 0xC0);
      assert SpriteCell(e1.v[VF], e1.v[1], 0, 1) == Cell(2, 0) == 2;
      assert SpriteBit(0xC0, 1);
    }
    assert !e2.display[0] && !e2.display[1] && e2.display[2] && e2.v[VF] == 0 by {
      PlotAtEffect(e1, 2, true);
    }
    assert !SpriteBit(0xC0, 2) && !SpriteBit(0xC0, 3) && !SpriteBit(0xC0, 4);
    assert !SpriteBit(0xC0, 5) && !SpriteBit(0xC0, 6) && !SpriteBit(0xC0, 7);
    ClearBitsKeep(c, VF, 1, 0, 0xC0, 2, 8);
  }

  /** Dxyn with X = VF on the whole machine: the example of RowFromFlagMovesAnchor. */
  lemma DrawFromFlagMovesAnchor(m: Machine, rnd: u8)
    requires WellFormed(m) && m.v[VF] == 0 && m.v[1] == 0
    requires m.ip < MemorySize && m.memory[m.ip] == 0xC0
    requires m.display[0] && !m.display[1] && !m.display[2]
    ensures Execute(m, Draw(VF, 1, 1), rnd).Ok?
    ensures var r := Execute(m, Draw(VF, 1, 1), rnd).value;
      !r.display[0] && !r.display[1] && r.display[2] && r.v[VF] == 0
  {
    var rows := SpriteRows(m.memory, m.ip, 1);
    assert rows == [0xC0];
    var c := Canvas(m.v, m.display);
    assert Execute(m, Draw(VF, 1, 1), rnd) == Ok(Sprite(m, VF, 1, 1));
    assert Drawn(c, VF, 1, rows, 1) == RowDrawn(c, VF, 1, 0, 0xC0, 8);
    RowFromFlagMovesAnchor(c);
  }

  // ---------------------------------------------------------------------------------------------
  // Decoding

  /** Decoding the canonical word of an instruction gives that instruction back: the dispatch of
      `cycle` recognises every instruction of the set. */
  lemma DecodeEncode(op: Instr)
    ensures Decode(Encode(op)) == op
  {
    if op.ClearScreen? || op.Return? || op.Unknown? {
      DecodeEncodeSystem(op);
    } else if op.Jump? || op.Call? || op.SetIndex? || op.JumpOffset? {
      DecodeEncodeAddress(op);
    } else if op.SkipEqImm? || op.SkipNeImm? || op.LoadImm? || op.AddImm? || op.Random? {
      DecodeEncodeImmediate(op);
    } else if op.SkipEqReg? || op.SkipNeReg? || op.Draw? || op.SkipKey? || op.SkipNoKey? {
      DecodeEncodeRegisters(op);
    } else if op.Move? || op.Or? || op.And? || op.Xor? || op.AddReg? || op.Sub? || op.ShiftRight? || op.SubReverse? || op.ShiftLeft? {
      DecodeEncodeAlu(op);
    } else {
      DecodeEncodeMisc(op);
    }
  }

  /** Family 0: 00E0, 00EE, and the word 0000 that stands for every instruction the set lacks. */
  lemma DecodeEncodeSystem(op: Instr)
    requires op.ClearScreen? || op.Return? || op.Unknown?
    ensures Decode(Encode(op)) == op
  {
    assert Family(0x00E0) == 0x0 && Low8(0x00E0) == 0xE0;
    assert Family(0x00EE) == 0x0 && Low8(0x00EE) == 0xEE;
    assert Family(0x0000) == 0x0 && Low8(0x0000) == 0x00;
  }

  /** Families 1, 2, A and B, whose low twelve bits are an address. */
  lemma DecodeEncodeAddress(op: Instr)
    requires op.Jump? || op.Call? || op.SetIndex? || op.JumpOffset?
    ensures Decode(Encode(op)) == op
  {
    if op.Jump? { AddrSplit(0x1, op.addr); }
    else if op.Call? { AddrSplit(0x2, op.addr); }
    else if op.SetIndex? { AddrSplit(0xA, op.addr); }
    else { AddrSplit(0xB, op.addr); }
  }

  /** Families 3, 4, 6, 7 and C, whose low byte is an immediate. */
  lemma DecodeEncodeImmediate(op: Instr)
    requires op.SkipEqImm? || op.SkipNeImm? || op.LoadImm? || op.AddImm? || op.Random?
    ensures Decode(Encode(op)) == op
  {
    var w := if op.SkipEqImm? then 0x3 else if op.SkipNeImm? then 0x4 else if op.LoadImm? then 0x6
             else if op.AddImm? then 0x7 else 0xC;
    JoinSplit(w, op.x, op.kk / 0x10, op.kk % 0x10);
  }

  /** Families 5, 9, D and E. */
  lemma DecodeEncodeRegisters(op: Instr)
    requires op.SkipEqReg? || op.SkipNeReg? || op.Draw? || op.SkipKey? || op.SkipNoKey?
    ensures Decode(Encode(op)) == op
  {
    if op.SkipEqReg? { JoinSplit(0x5, op.x, op.y, 0x0); }
    else if op.SkipNeReg? { JoinSplit(0x9, op.x, op.y, 0x0); }
    else if op.Draw? { JoinSplit(0xD, op.x, op.y, op.n); }
    else if op.SkipKey? { JoinSplit(0xE, op.x, 0x9, 0xE); }
    else { JoinSplit(0xE, op.x, 0xA, 0x1); }
  }

  /** Family 8. */
  lemma DecodeEncodeAlu(op: Instr)
    requires op.Move? || op.Or? || op.And? || op.Xor? || op.AddReg? || op.Sub? || op.ShiftRight? || op.SubReverse? || op.ShiftLeft?
    ensures Decode(Encode(op)) == op
  {
    if op.ShiftRight? { JoinSplit(0x8, op.x, 0x0, 0x6); }
    else if op.ShiftLeft? { JoinSplit(0x8, op.x, 0x0, 0xE); }
    else {
      var n := if op.Move? then 0x0 else if op.Or? then 0x1 else if op.And? then 0x2 else if op.Xor? then 0x3
               else if op.AddReg? then 0x4 else if op.Sub? then 0x5 else 0x7;
      JoinSplit(0x8, op.x, op.y, n);
    }
  }

  /** Family F. */
  lemma DecodeEncodeMisc(op: Instr)
    requires op.ReadDelay? || op.SetDelay? || op.SetSound? || op.AddIndex? || op.FontChar? || op.StoreBcd? || op.StoreRegs? || op.LoadRegs?
    ensures Decode(Encode(op)) == op
  {
    var kk := if op.ReadDelay? then 0x07 else if op.SetDelay? then 0x15 else if op.SetSound? then 0x18
              else if op.AddIndex? then 0x1E else if op.FontChar? then 0x29 else if op.StoreBcd? then 0x33
              else if op.StoreRegs? then 0x55 else 0x65;
    JoinSplit(0xF, op.x, kk / 0x10, kk % 0x10);
  }

  /** The instruction whose canonical word sits at PC is the one `cycle` executes, with PC already
      advanced past it. */
  lemma StepExecutesFetched(m: Machine, op: Instr, rnd: u8)
    requires WellFormed(m) && m.started && m.pc + 1 < MemorySize && !op.Unknown?
    requires m.memory[m.pc] == Encode(op) / 0x100 && m.memory[m.pc + 1] == Encode(op) % 0x100
    ensures Step(m, rnd) == Execute(m.(pc := m.pc + 2), op, rnd)
  {
    SplitJoinBytes(Encode(op));
    DecodeEncode(op);
  }

  /** A family-0 word other than 00E0 and 00EE (a machine-code call 0nnn) is skipped over: PC moves
      on by two and nothing else changes. */
  lemma StepIgnoresSys(m: Machine, rnd: u8)
    requires WellFormed(m) && m.started && m.pc + 1 < MemorySize
    requires m.memory[m.pc] < 0x10 && m.memory[m.pc + 1] != 0xE0 && m.memory[m.pc + 1] != 0xEE
    ensures Step(m, rnd) == Ok(m.(pc := m.pc + 2))
  {
    var word := Fetch(m);
    assert Family(word) == 0 && Low8(word) == m.memory[m.pc + 1];
  }

  // ---------------------------------------------------------------------------------------------
  // Skips

  /** Whether the conditional skip `op` finds its condition true in `m`: a register equal or unequal
      to a byte or to another register, or the key named by Vx held down or up. */
  predicate SkipTaken(m: Machine, op: Instr)
    requires WellFormed(m)
    requires op.SkipEqImm? || op.SkipNeImm? || op.SkipEqReg? || op.SkipNeReg? || op.SkipKey? || op.SkipNoKey?
  {
    if op.SkipEqImm? then m.v[op.x] == op.kk
    else if op.SkipNeImm? then m.v[op.x] != op.kk
    else if op.SkipEqReg? then m.v[op.x] == m.v[op.y]
    else if op.SkipNeReg? then m.v[op.x] != m.v[op.y]
    else if op.SkipKey? then m.v[op.x] < Keys && m.keys[m.v[op.x]]
    else m.v[op.x] < Keys && !m.keys[m.v[op.x]]
  }

  /** A conditional skip moves PC on by one instruction (modulo 2^16) exactly when its condition holds,
      and changes nothing else; a key skip faults exactly when Vx names no key. */
  lemma SkipOnlyMovesPc(m: Machine, op: Instr, rnd: u8)
    requires WellFormed(m)
    requires op.SkipEqImm? || op.SkipNeImm? || op.SkipEqReg? || op.SkipNeReg? || op.SkipKey? || op.SkipNoKey?
    ensures Execute(m, op, rnd).Err? <==> (op.SkipKey? || op.SkipNoKey?) && m.v[op.x] >= Keys
    ensures Execute(m, op, rnd).Err? ==> Execute(m, op, rnd).error == KeyOutOfRange
    ensures Execute(m, op, rnd).Ok? ==>
      Execute(m, op, rnd).value == m.(pc := if SkipTaken(m, op) then Wrap16(m.pc + 2) else m.pc)
  {
  }

  /** A cycle that fetches a conditional skip leaves PC four bytes on when the condition holds and two
      bytes on otherwise, and changes nothing else; a key skip whose Vx names no key faults. */
  lemma SkipsAdvance(m: Machine, op: Instr, rnd: u8)
    requires WellFormed(m) && m.started && m.pc + 1 < MemorySize
    requires op.SkipEqImm? || op.SkipNeImm? || op.SkipEqReg? || op.SkipNeReg? || op.SkipKey? || op.SkipNoKey?
    requires m.memory[m.pc] == Encode(op) / 0x100 && m.memory[m.pc + 1] == Encode(op) % 0x100
    ensures (op.SkipKey? || op.SkipNoKey?) && m.v[op.x] >= Keys ==> Step(m, rnd) == Err(KeyOutOfRange)
    ensures !((op.SkipKey? || op.SkipNoKey?) && m.v[op.x] >= Keys) ==>
      Step(m, rnd) == Ok(m.(pc := m.pc + if SkipTaken(m, op) then 4 else 2))
  {
    StepExecutesFetched(m, op, rnd);
    var next := m.(pc := m.pc + 2);
    SkipOnlyMovesPc(next, op, rnd);
    assert SkipTaken(next, op) == SkipTaken(m, op);
  }

  /** Each skip and its negation on the same operands take opposite branches: exactly one of them
      skips. 5xy0 with both operands the same register always skips. */
  lemma SkipsComplement(m: Machine, x: Nibble, y: Nibble, kk: u8, rnd: u8)
    requires WellFormed(m)
    ensures Execute(m, SkipEqImm(x, kk), rnd).Ok? && Execute(m, SkipNeImm(x, kk), rnd).Ok?
    ensures (Execute(m, SkipEqImm(x, kk), rnd).value.pc == m.pc) != (Execute(m, SkipNeImm(x, kk), rnd).value.pc == m.pc)
    ensures Execute(m, SkipEqReg(x, y), rnd).Ok? && Execute(m, SkipNeReg(x, y), rnd).Ok?
    ensures (Execute(m, SkipEqReg(x, y), rnd).value.pc == m.pc) != (Execute(m, SkipNeReg(x, y), rnd).value.pc == m.pc)
    ensures Execute(m, SkipEqReg(x, x), rnd) == Ok(m.(pc := Wrap16(m.pc + 2)))
  {
  }

  /** The keypad latch feeds Ex9E and ExA1: once the key named by Vx is pressed, Ex9E skips and ExA1
      does not; once it is released, the other way round. */
  lemma KeySkipsFollowPad(m: Machine, x: Nibble, rnd: u8)
    requires WellFormed(m) && m.v[x] < Keys
    ensures var p := KeyPressed(m, m.v[x]);
      Execute(p, SkipKey(x), rnd) == Ok(p.(pc := Wrap16(m.pc + 2))) && Execute(p, SkipNoKey(x), rnd) == Ok(p)
    ensures var q := KeyReleased(m, m.v[x]);
      Execute(q, SkipKey(x), rnd) == Ok(q) && Execute(q, SkipNoKey(x), rnd) == Ok(q.(pc := Wrap16(m.pc + 2)))
  {
  }

  // ---------------------------------------------------------------------------------------------
  // Arithmetic and flags

  /** 8xy4 with both operands outside VF: VF:Vx holds the full nine-bit sum and no other register
      changes. */
  lemma AddRegCarries(m: Machine, x: Nibble, y: Nibble, rnd: u8)
    requires WellFormed(m) && x != VF && y != VF
    ensures Execute(m, AddReg(x, y), rnd).Ok?
    ensures var r := Execute(m, AddReg(x, y), rnd).value;
      && r == m.(v := r.v)
      && r.v[VF] as int * 0x100 + r.v[x] == m.v[x] as int + m.v[y]
      && forall i :: 0 <= i < VF && i != x ==> r.v[i] == m.v[i]
  {
  }

  /** 8xy5 with both operands outside VF: Vx is the difference modulo 256 and VF is 1 only when Vx
      was strictly greater (equal operands give VF = 0). */
  lemma SubBorrows(m: Machine, x: Nibble, y: Nibble, rnd: u8)
    requires WellFormed(m) && x != VF && y != VF
    ensures Execute(m, Sub(x, y), rnd).Ok?
    ensures var r := Execute(m, Sub(x, y), rnd).value;
      && r == m.(v := r.v)
      && r.v[x] == (if m.v[x] >= m.v[y] then m.v[x] as int - m.v[y] else m.v[x] as int - m.v[y] + 0x100)
      && r.v[VF] == (if m.v[x] > m.v[y] then 1 else 0)
      && forall i :: 0 <= i < VF && i != x ==> r.v[i] == m.v[i]
  {
  }

  /** 8xy7 with both operands outside VF: Vx is Vy - Vx modulo 256 and VF is 1 only when Vy was
      strictly greater. */
  lemma SubReverseBorrows(m: Machine, x: Nibble, y: Nibble, rnd: u8)
    requires WellFormed(m) && x != VF && y != VF
    ensures Execute(m, SubReverse(x, y), rnd).Ok?
    ensures var r := Execute(m, SubReverse(x, y), rnd).value;
      && r == m.(v := r.v)
      && r.v[x] == (if m.v[y] >= m.v[x] then m.v[y] as int - m.v[x] else m.v[y] as int - m.v[x] + 0x100)
      && r.v[VF] == (if m.v[y] > m.v[x] then 1 else 0)
      && forall i :: 0 <= i < VF && i != x ==> r.v[i] == m.v[i]
  {
  }

  /** 8xy6 and 8xyE with Vx outside VF: the bit shifted out lands in VF, so Vx:VF (right shift) and
      VF:Vx (left shift) keep every bit of the old Vx. */
  lemma ShiftsKeepBits(m: Machine, x: Nibble, rnd: u8)
    requires WellFormed(m) && x != VF
    ensures Execute(m, ShiftRight(x), rnd).Ok? && Execute(m, ShiftLeft(x), rnd).Ok?
    ensures var r := Execute(m, ShiftRight(x), rnd).value;
      r == m.(v := r.v) && r.v[VF] <= 1 && r.v[x] as int * 2 + r.v[VF] == m.v[x]
      && forall i :: 0 <= i < VF && i != x ==> r.v[i] == m.v[i]
    ensures var r := Execute(m, ShiftLeft(x), rnd).value;
      r == m.(v := r.v) && r.v[VF] <= 1 && r.v[VF] as int * 0x100 + r.v[x] == 2 * m.v[x] as int
      && forall i :: 0 <= i < VF && i != x ==> r.v[i] == m.v[i]
  {
  }

  /** 8xy4 into VF: the carry of VF + Vy is written to VF first and Vy is then added to that carry, so
      VF ends as carry + Vy modulo 256 and the carry itself is lost; no other register changes. */
  lemma AddRegIntoFlag(m: Machine, y: Nibble, rnd: u8)
    requires WellFormed(m) && y != VF
    ensures var carry := if m.v[VF] as int + m.v[y] > 0xFF then 1 else 0;
      Execute(m, AddReg(VF, y), rnd) == Ok(m.(v := m.v[VF := Wrap8(m.v[y] as int + carry)]))
  {
    var carry := if m.v[VF] as int + m.v[y] > 0xFF then 1 else 0;
    var f := m.v[VF := carry];
    assert f[VF := Wrap8(f[VF] + f[y])] == m.v[VF := Wrap8(m.v[y] as int + carry)];
  }

  /** 8xF4 with X outside VF: the carry of Vx + VF is written to VF first and is then the operand that
      is added, so Vx ends as Vx + carry modulo 256 and the old VF is never added. */
  lemma AddRegFromFlag(m: Machine, x: Nibble, rnd: u8)
    requires WellFormed(m) && x != VF
    ensures var carry := if m.v[x] as int + m.v[VF] > 0xFF then 1 else 0;
      Execute(m, AddReg(x, VF), rnd) == Ok(m.(v := m.v[VF := carry][x := Wrap8(m.v[x] as int + carry)]))
  {
  }

  // ---------------------------------------------------------------------------------------------
  // Subroutines

  /** 2nnn jumps to nnn and pushes the return address; 00EE right after it restores the machine
      exactly. 00EE with an empty stack faults. */
  lemma CallThenReturn(m: Machine, a: Addr, rnd: u8)
    requires WellFormed(m)
    ensures Execute(m, Call(a), rnd).Ok?
    ensures var c := Execute(m, Call(a), rnd).value;
      c.pc == a && |c.stack| == |m.stack| + 1 && Execute(c, Return, rnd) == Ok(m)
    ensures m.stack == [] ==> Execute(m, Return, rnd) == Err(StackUnderflow)
  {
    var c := Execute(m, Call(a), rnd).value;
    assert c.stack[..|c.stack| - 1] == m.stack;
  }

  // ---------------------------------------------------------------------------------------------
  // Memory

  /** Fx33 stores the three decimal digits of Vx at I, I+1 and I+2, and only there; it faults when
      I+2 is past the end of memory. */
  lemma StoreBcdDigits(m: Machine, x: Nibble, rnd: u8)
    requires WellFormed(m)
    ensures Execute(m, StoreBcd(x), rnd).Err? <==> m.ip + 2 >= MemorySize
    ensures Execute(m, StoreBcd(x), rnd).Ok? ==>
      var r := Execute(m, StoreBcd(x), rnd).value;
      && r == m.(memory := r.memory)
      && r.memory[m.ip] as int * 100 + r.memory[m.ip + 1] as int * 10 + r.memory[m.ip + 2] == m.v[x]
      && r.memory[m.ip + 1] < 10 && r.memory[m.ip + 2] < 10
      && forall i :: 0 <= i < MemorySize && !(m.ip <= i <= m.ip + 2) ==> r.memory[i] == m.memory[i]
  {
  }

  /** Fx55 copies V0..Vx to I..I+x and changes no other byte; it faults when I+x is past the end of
      memory. */
  lemma StoreRegsWrites(m: Machine, x: Nibble, rnd: u8)
    requires WellFormed(m)
    ensures Execute(m, StoreRegs(x), rnd).Err? <==> m.ip + x >= MemorySize
    ensures Execute(m, StoreRegs(x), rnd).Ok? ==>
      var s := Execute(m, StoreRegs(x), rnd).value;
      && s == m.(memory := s.memory)
      && s.memory[m.ip..m.ip + x + 1] == m.v[..x + 1]
      && forall i :: 0 <= i < MemorySize && !(m.ip <= i <= m.ip + x) ==> s.memory[i] == m.memory[i]
  {
    if m.ip + x < MemorySize {
      var s := Execute(m, StoreRegs(x), rnd).value;
      assert s.memory[m.ip..m.ip + x + 1] == m.v[..x + 1];
    }
  }

  /** Fx65 right after Fx55 with the same I and x reads back the values just stored, so it changes
      nothing. */
  lemma StoreThenLoadRegs(m: Machine, x: Nibble, rnd: u8)
    requires WellFormed(m) && m.ip + x < MemorySize
    ensures Execute(m, StoreRegs(x), rnd).Ok?
    ensures var s := Execute(m, StoreRegs(x), rnd).value; Execute(s, LoadRegs(x), rnd) == Ok(s)
  {
    assert Execute(m, StoreRegs(x), rnd) == ExecuteMemory(m, StoreRegs(x));
    var s := ExecuteMemory(m, StoreRegs(x)).value;
    assert Execute(s, LoadRegs(x), rnd) == ExecuteMemory(s, LoadRegs(x)) by {
      StoreThenLoadMemory(m, x);
    }
    StoreThenLoadMemory(m, x);
  }

  /** The block copies of StoreThenLoadRegs, stated on the memory group alone. */
  lemma StoreThenLoadMemory(m: Machine, x: Nibble)
    requires WellFormed(m) && m.ip + x < MemorySize
    ensures ExecuteMemory(m, StoreRegs(x)) == Ok(m.(memory := Overlay(m.memory, m.ip, m.v[..x + 1])))
    ensures var s := m.(memory := Overlay(m.memory, m.ip, m.v[..x + 1]));
      WellFormed(s) && ExecuteMemory(s, LoadRegs(x)) == Ok(s)
  {
    var s := m.(memory := Overlay(m.memory, m.ip, m.v[..x + 1]));
    var data := s.memory[s.ip..s.ip + x + 1];
    assert data == s.v[..x + 1] by {
      forall k | 0 <= k <= x ensures data[k] == s.v[k] {
        assert data[k] == s.memory[m.ip + k];
      }
    }
    OverlayOwnPrefix(s.v, data);
  }

  /** Fx65 copies I..I+x into V0..Vx and leaves the registers above x and everything else alone; it
      faults when I+x is past the end of memory. */
  lemma LoadRegsReads(m: Machine, x: Nibble, rnd: u8)
    requires WellFormed(m)
    ensures Execute(m, LoadRegs(x), rnd).Err? <==> m.ip + x >= MemorySize
    ensures Execute(m, LoadRegs(x), rnd).Ok? ==>
      var r := Execute(m, LoadRegs(x), rnd).value;
      r == m.(v := r.v) && r.v[..x + 1] == m.memory[m.ip..m.ip + x + 1] && r.v[x + 1..] == m.v[x + 1..]
  {
    if m.ip + x < MemorySize {
      var r := Execute(m, LoadRegs(x), rnd).value;
      assert r.v[..x + 1] == m.memory[m.ip..m.ip + x + 1];
      assert r.v[x + 1..] == m.v[x + 1..];
    }
  }
  /** After `start`, Fx29 points I at the five-byte glyph of the digit in Vx. */
  lemma FontCharFindsGlyph(m: Machine, rom: seq<u8>, x: Nibble, rnd: u8)
    requires WellFormed(m) && |rom| <= MaxProgramSize
    requires Loaded(m, rom).Ok? && Loaded(m, rom).value.v[x] < 16
    ensures Execute(Loaded(m, rom).value, FontChar(x), rnd).Ok?
    ensures var r := Execute(Loaded(m, rom).value, FontChar(x), rnd).value;
      var d := m.v[x];
      r.ip + 5 <= MemorySize && r.memory[r.ip..r.ip + 5] == Font[5 * d..5 * d + 5]
  {
    var l := Loaded(m, rom).value;
    var r := Execute(l, FontChar(x), rnd).value;
    assert r.memory[..|Font|] == Font;
    assert r.memory[r.ip..r.ip + 5] == r.memory[..|Font|][r.ip..r.ip + 5];
  }

  // ---------------------------------------------------------------------------------------------
  // Timers and keypad

  /** The state after `n` timer ticks. */
  function Ticks(m: Machine, n: nat): Machine
  {
    if n == 0 then m else Tick(Ticks(m, n - 1))
  }

  /** `n` ticks count each timer down by `n`, stopping at zero, and change nothing else. */
  lemma {:induction false} TicksCountDown(m: Machine, n: nat)
    ensures Ticks(m, n) == m.(dt := Ticks(m, n).dt, st := Ticks(m, n).st)
    ensures Ticks(m, n).dt == if m.dt >= n then m.dt - n else 0
    ensures Ticks(m, n).st == if m.st >= n then m.st - n else 0
  {
    if n > 0 {
      TicksCountDown(m, n - 1);
    }
  }

  /** Fx07 copies the delay timer into Vx, Fx15 and Fx18 copy Vx into the delay and sound timers,
      and nothing else changes; a value moved into the delay timer with Fx15 reads back with Fx07
      into any register, and runs down to zero after that many ticks. */
  lemma TimerTransfers(m: Machine, x: Nibble, y: Nibble, rnd: u8)
    requires WellFormed(m)
    ensures Execute(m, ReadDelay(x), rnd) == Ok(m.(v := m.v[x := m.dt]))
    ensures Execute(m, SetDelay(x), rnd) == Ok(m.(dt := m.v[x]))
    ensures Execute(m, SetSound(x), rnd) == Ok(m.(st := m.v[x]))
    ensures var s := Execute(m, SetDelay(x), rnd).value;
      WellFormed(s) && Execute(s, ReadDelay(y), rnd).Ok? && Execute(s, ReadDelay(y), rnd).value.v[y] == m.v[x]
    ensures Ticks(Execute(m, SetDelay(x), rnd).value, m.v[x] as nat).dt == 0
  {
    var s := m.(dt := m.v[x]);
    assert Execute(m, SetDelay(x), rnd) == Ok(s);
    TicksCountDown(s, m.v[x] as nat);
  }

  /** Pressing a key that was up and releasing it again leaves the keypad as it was, with no key
      latched as the last one pressed. */
  lemma PressThenRelease(m: Machine, k: int)
    requires WellFormed(m) && 0 <= k < Keys && !m.keys[k]
    ensures KeyReleased(KeyPressed(m, k), k) == m.(lastKey := -1)
  {
    assert m.keys[k := true][k := false] == m.keys;
  }
}
