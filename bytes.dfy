/** Fixed-width machine integers and the byte-level helpers both interpreters share. */
module Bytes {

  /** An unsigned 8-bit value (`u8` in the C++ interpreter, a byte-sized number in JavaScript). */
  type u8 = x: int | 0 <= x < 0x100

  /** An unsigned 16-bit value (`u16` in the C++ interpreter). */
  type u16 = x: int | 0 <= x < 0x1_0000

  /** A 4-bit field of an instruction word: a register index or a row count. */
  type Nibble = x: int | 0 <= x < 0x10

  /** A 12-bit address field of an instruction word. */
  type Addr = x: int | 0 <= x < 0x1000

  /** The value an assignment to a `u8` stores: the low 8 bits. */
  function Wrap8(n: int): (r: u8)
    ensures 0 <= n < 0x100 ==> r == n
    ensures (r - n) % 0x100 == 0
  {
    n % 0x100
  }

  /** The value an assignment to a `u16` stores: the low 16 bits. */
  function Wrap16(n: int): (r: u16)
    ensures 0 <= n < 0x1_0000 ==> r == n
    ensures (r - n) % 0x1_0000 == 0
  {
    n % 0x1_0000
  }

  /** Bitwise OR of two bytes (`|`). */
  function Or8(a: u8, b: u8): (r: u8)
  {
    ((a as bv8) | (b as bv8)) as int
  }

  /** Bitwise AND of two bytes (`&`). */
  function And8(a: u8, b: u8): (r: u8)
  {
    ((a as bv8) & (b as bv8)) as int
  }

  /** Bitwise XOR of two bytes (`^`). */
  function Xor8(a: u8, b: u8): (r: u8)
  {
    ((a as bv8) ^ (b as bv8)) as int
  }

  /** Bit `7 - j` of `line`, that is `line >> (7 - j) & 1`: the j-th pixel of a sprite row, leftmost first. */
  function SpriteBit(line: u8, j: nat): (lit: bool)
    requires j < 8
    ensures j == 0 ==> lit == (line >= 0x80)
    ensures j == 7 ==> lit == (line % 2 == 1)
    ensures lit == ((line / [0x80, 0x40, 0x20, 0x10, 0x08, 0x04, 0x02, 0x01][j]) % 2 == 1)
  {
    ((line as bv8) >> (7 - j)) & 1 == 1
  }

  /** The three decimal digits of a byte, hundreds first, as the BCD instruction stores them. */
  datatype Bcd = Bcd(hundreds: u8, tens: u8, ones: u8)

  function BcdDigits(b: u8): (d: Bcd)
    ensures d.hundreds <= 2 && d.tens < 10 && d.ones < 10
    ensures 100 * d.hundreds + 10 * d.tens + d.ones == b
  {
    Bcd(b / 100, (b / 10) % 10, b % 10)
  }

  /** The byte sequence `mem` after copying `data` into it starting at index `at`, as `std::copy` or an
      element-by-element loop does; everything outside the destination range is left as it was. */
  function Overlay(mem: seq<u8>, at: nat, data: seq<u8>): (r: seq<u8>)
    requires at + |data| <= |mem|
    ensures |r| == |mem|
    ensures forall k :: 0 <= k < |data| ==> r[at + k] == data[k]
    ensures forall i :: 0 <= i < |mem| && !(at <= i < at + |data|) ==> r[i] == mem[i]
  {
    mem[..at] + data + mem[at + |data|..]
  }

  /** Copying one more element extends the copied prefix by one position. */
  lemma OverlayExtend(mem: seq<u8>, at: nat, data: seq<u8>, i: nat)
    requires at + |data| <= |mem| && i < |data|
    ensures Overlay(mem, at, data[..i + 1]) == Overlay(mem, at, data[..i])[at + i := data[i]]
  {
    var lhs := Overlay(mem, at, data[..i + 1]);
    var rhs := Overlay(mem, at, data[..i])[at + i := data[i]];
    assert |lhs| == |rhs|;
    forall k | 0 <= k < |lhs| ensures lhs[k] == rhs[k] {
      if at <= k < at + i {
        assert lhs[k] == data[..i + 1][k - at];
        assert rhs[k] == data[..i][k - at];
      }
    }
  }

  /** Copying a sequence's own prefix over it changes nothing. */
  lemma OverlayOwnPrefix(mem: seq<u8>, data: seq<u8>)
    requires |data| <= |mem| && data == mem[..|data|]
    ensures Overlay(mem, 0, data) == mem
  {
    assert mem[..0] + data + mem[|data|..] == mem;
  }

  /** `std::copy` of `src` into `dst` starting at index `at`, one element at a time. */
  method CopyTo(dst: array<u8>, at: nat, src: seq<u8>)
    requires at + |src| <= dst.Length
    modifies dst
    ensures dst[..] == Overlay(old(dst[..]), at, src)
  {
    var i := 0;
    while i < |src|
      invariant 0 <= i <= |src|
      invariant dst[..] == Overlay(old(dst[..]), at, src[..i])
    {
      OverlayExtend(old(dst[..]), at, src, i);
      dst[at + i] := src[i];
      i := i + 1;
    }
    assert src[..i] == src;
  }
}
