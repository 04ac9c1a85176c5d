/** The CHIP-8 instruction word, its fields, the decoded instruction and the failures a step can signal. */
module Isa {
  import opened Bytes

  /** Bytes of memory; the interpreters use addresses 0..0xFFF. */
  const MemorySize: nat := 4096

  /** Where programs are loaded and where execution begins. */
  const ProgramStart: nat := 0x200

  /** The registers V0..VF. */
  const Registers: nat := 16

  /** The flag register VF. */
  const VF: Nibble := 0xF

  /** Failures that the interpreters leave unchecked and that this model signals instead. */
  datatype Error =
    | ProgramTooLarge     // the ROM image does not fit between 0x200 and the end of memory
    | StackUnderflow      // 00EE with an empty call stack
    | AddressOutOfRange   // a fetch or an I-relative access reaches past the last byte of memory
    | KeyOutOfRange       // Ex9E / ExA1 with a register value that is not a key index 0..15

  datatype Result<T> = Ok(value: T) | Err(error: Error)

  /** What one invocation of a machine operation reports to its caller. */
  datatype Status = Executed | Warned | Faulted(error: Error)

  /** The status an operation reports when its effect is `r` and it raises no warning. */
  function StatusOf<T>(r: Result<T>): Status
  {
    if r.Ok? then Executed else Faulted(r.error)
  }

  /** The state after an operation whose effect is `r`: a failed operation leaves `before` as it was. */
  function Committed<T>(before: T, r: Result<T>): T
  {
    if r.Ok? then r.value else before
  }

  /** The big-endian word `hi << 8 | lo` formed from two consecutive memory bytes. */
  function Join(hi: u8, lo: u8): (w: u16)
    ensures w / 0x100 == hi && w % 0x100 == lo
  {
    hi * 0x100 + lo
  }

  /** Splitting a word into its high and low byte and joining them again gives the word back. */
  lemma SplitJoinBytes(w: u16)
    ensures Join(w / 0x100, w % 0x100) == w
  {
  }

  /** The word with the four nibbles `w x y n`, most significant first. */
  function Word(w: Nibble, x: Nibble, y: Nibble, n: Nibble): u16
  {
    w * 0x1000 + x * 0x100 + y * 0x10 + n
  }

  /** Bits 12..15: the opcode family. */
  function Family(word: u16): Nibble { word / 0x1000 }

  /** Bits 8..11: the first register operand. */
  function RegX(word: u16): Nibble { word / 0x100 % 0x10 }

  /** Bits 4..7: the second register operand. */
  function RegY(word: u16): Nibble { word / 0x10 % 0x10 }

  /** Bits 0..3: the row count of Dxyn and the sub-opcode of the 8 family. */
  function Low4(word: u16): Nibble { word % 0x10 }

  /** Bits 0..7: the immediate byte and the sub-opcode of the 0, E and F families. */
  function Low8(word: u16): u8 { word % 0x100 }

  /** Bits 0..11: the address operand. */
  function Low12(word: u16): Addr { word % 0x1000 }

  /** Joining four nibbles and splitting the word again returns the same nibbles. */
  lemma JoinSplit(w: Nibble, x: Nibble, y: Nibble, n: Nibble)
    ensures Family(Word(w, x, y, n)) == w && RegX(Word(w, x, y, n)) == x
    ensures RegY(Word(w, x, y, n)) == y && Low4(Word(w, x, y, n)) == n
    ensures Low8(Word(w, x, y, n)) == y * 0x10 + n
  {
    var word := Word(w, x, y, n);
    assert word == (w * 0x10 + x) * 0x100 + (y * 0x10 + n);
    assert word / 0x1000 == w;
    assert word / 0x100 == w * 0x10 + x;
    assert (w * 0x10 + x) % 0x10 == x;
    assert word / 0x10 == w * 0x100 + x * 0x10 + y;
    assert (w * 0x100 + x * 0x10 + y) % 0x10 == y;
    assert word % 0x10 == n;
  }

  /** An address field placed under a family nibble is read back unchanged. */
  lemma AddrSplit(w: Nibble, a: Addr)
    ensures Family(w * 0x1000 + a) == w && Low12(w * 0x1000 + a) == a
  {
  }

  /** Splitting a word into fields loses nothing: the nibbles put back together give the word. */
  lemma SplitJoin(word: u16)
    ensures Word(Family(word), RegX(word), RegY(word), Low4(word)) == word
  {
    var a := word / 0x10;
    var b := a / 0x10;
    var w: Nibble, x: Nibble, y: Nibble, n: Nibble := b / 0x10, b % 0x10, a % 0x10, word % 0x10;
    assert word == Word(w, x, y, n);
    JoinSplit(w, x, y, n);
  }

  /** A decoded instruction of the base CHIP-8 set; `Unknown` stands for every word that is not one. */
  datatype Instr =
    | ClearScreen                        // 00E0
    | Return                             // 00EE
    | Jump(addr: Addr)                   // 1nnn
    | Call(addr: Addr)                   // 2nnn
    | SkipEqImm(x: Nibble, kk: u8)       // 3xkk
    | SkipNeImm(x: Nibble, kk: u8)       // 4xkk
    | SkipEqReg(x: Nibble, y: Nibble)    // 5xy0
    | LoadImm(x: Nibble, kk: u8)         // 6xkk
    | AddImm(x: Nibble, kk: u8)          // 7xkk
    | Move(x: Nibble, y: Nibble)         // 8xy0
    | Or(x: Nibble, y: Nibble)           // 8xy1
    | And(x: Nibble, y: Nibble)          // 8xy2
    | Xor(x: Nibble, y: Nibble)          // 8xy3
    | AddReg(x: Nibble, y: Nibble)       // 8xy4
    | Sub(x: Nibble, y: Nibble)          // 8xy5
    | ShiftRight(x: Nibble)              // 8xy6
    | SubReverse(x: Nibble, y: Nibble)   // 8xy7
    | ShiftLeft(x: Nibble)               // 8xyE
    | SkipNeReg(x: Nibble, y: Nibble)    // 9xy0
    | SetIndex(addr: Addr)               // Annn
    | JumpOffset(addr: Addr)             // Bnnn
    | Random(x: Nibble, kk: u8)          // Cxkk
    | Draw(x: Nibble, y: Nibble, n: Nibble)  // Dxyn
    | SkipKey(x: Nibble)                 // Ex9E
    | SkipNoKey(x: Nibble)               // ExA1
    | ReadDelay(x: Nibble)               // Fx07
    | SetDelay(x: Nibble)                // Fx15
    | SetSound(x: Nibble)                // Fx18
    | AddIndex(x: Nibble)                // Fx1E
    | FontChar(x: Nibble)                // Fx29
    | StoreBcd(x: Nibble)                // Fx33
    | StoreRegs(x: Nibble)               // Fx55
    | LoadRegs(x: Nibble)                // Fx65
    | Unknown

  /** The canonical word of an instruction (unused operand nibbles zero); `Unknown` is given 0000. */
  function Encode(op: Instr): u16
  {
    match op
    case ClearScreen => 0x00E0
    case Return => 0x00EE
    case Jump(a) => 0x1000 + a
    case Call(a) => 0x2000 + a
    case SkipEqImm(x, kk) => Word(0x3, x, kk / 0x10, kk % 0x10)
    case SkipNeImm(x, kk) => Word(0x4, x, kk / 0x10, kk % 0x10)
    case SkipEqReg(x, y) => Word(0x5, x, y, 0x0)
    case LoadImm(x, kk) => Word(0x6, x, kk / 0x10, kk % 0x10)
    case AddImm(x, kk) => Word(0x7, x, kk / 0x10, kk % 0x10)
    case Move(x, y) => Word(0x8, x, y, 0x0)
    case Or(x, y) => Word(0x8, x, y, 0x1)
    case And(x, y) => Word(0x8, x, y, 0x2)
    case Xor(x, y) => Word(0x8, x, y, 0x3)
    case AddReg(x, y) => Word(0x8, x, y, 0x4)
    case Sub(x, y) => Word(0x8, x, y, 0x5)
    case ShiftRight(x) => Word(0x8, x, 0x0, 0x6)
    case SubReverse(x, y) => Word(0x8, x, y, 0x7)
    case ShiftLeft(x) => Word(0x8, x, 0x0, 0xE)
    case SkipNeReg(x, y) => Word(0x9, x, y, 0x0)
    case SetIndex(a) => 0xA000 + a
    case JumpOffset(a) => 0xB000 + a
    case Random(x, kk) => Word(0xC, x, kk / 0x10, kk % 0x10)
    case Draw(x, y, n) => Word(0xD, x, y, n)
    case SkipKey(x) => Word(0xE, x, 0x9, 0xE)
    case SkipNoKey(x) => Word(0xE, x, 0xA, 0x1)
    case ReadDelay(x) => Word(0xF, x, 0x0, 0x7)
    case SetDelay(x) => Word(0xF, x, 0x1, 0x5)
    case SetSound(x) => Word(0xF, x, 0x1, 0x8)
    case AddIndex(x) => Word(0xF, x, 0x1, 0xE)
    case FontChar(x) => Word(0xF, x, 0x2, 0x9)
    case StoreBcd(x) => Word(0xF, x, 0x3, 0x3)
    case StoreRegs(x) => Word(0xF, x, 0x5, 0x5)
    case LoadRegs(x) => Word(0xF, x, 0x6, 0x5)
    case Unknown => 0x0000
  }
}
