/**
 * Bytes and 32-bit words of the code buffer, as the assembler's `getInt` and
 * `writeInt` lay them out: every operand is a 4-byte big-endian
 * two's-complement word.
 */
module Encoding {

  /** A byte of code memory, held as its unsigned bit pattern. */
  type Byte = b: int | 0 <= b < 0x100

  /** A Java `int`. */
  type Int32 = x: int | -0x8000_0000 <= x < 0x8000_0000

  const TWO_32: int := 0x1_0000_0000

  /** Java `int` arithmetic: reduce modulo 2^32 into the signed range. */
  function Wrap32(x: int): (r: Int32)
    ensures (r - x) % TWO_32 == 0
    ensures -0x8000_0000 <= x < 0x8000_0000 ==> r == x
  {
    var m := x % TWO_32;
    if m >= 0x8000_0000 then m - TWO_32 else m
  }

  /** A code byte as Java reads it: a signed value. */
  function SignedByte(b: Byte): (r: int)
    ensures -0x80 <= r < 0x80
    ensures r % 0x100 == b
  {
    if b >= 0x80 then b - 0x100 else b
  }

  /** Java's narrowing `(byte) x`, as an unsigned bit pattern (`x & 0xFF`). */
  function LowByte(x: int): (b: Byte)
    ensures (b - x) % 0x100 == 0
  {
    x % 0x100
  }

  /**
   * The four bytes `writeInt` stores for `value`: `(value >> 24) & 0xFF`,
   * `(value >> 16) & 0xFF`, `(value >> 8) & 0xFF`, `value & 0xFF`.
   * (An arithmetic right shift is floor division by a power of two.)
   */
  function EncodeInt(value: Int32): (bs: seq<Byte>)
    ensures |bs| == 4
  {
    [ (value / 0x100_0000) % 0x100,
      (value / 0x1_0000) % 0x100,
      (value / 0x100) % 0x100,
      value % 0x100 ]
  }

  /**
   * `getInt(memory, index)`: the big-endian word at `index`, read as a
   * signed 32-bit value (the `b1 << 24 | ...` of the source sets the sign
   * bit from the top bit of `b1`).
   */
  function GetInt(memory: seq<Byte>, index: int): (r: Int32)
    requires 0 <= index && index + 4 <= |memory|
  {
    var u := memory[index] as int * 0x100_0000 + memory[index + 1] as int * 0x1_0000
           + memory[index + 2] as int * 0x100 + memory[index + 3] as int;
    if u >= 0x8000_0000 then u - TWO_32 else u
  }

  /** `memory` with the four bytes at `index` replaced by `value`'s encoding. */
  function Splice(memory: seq<Byte>, index: int, value: Int32): (r: seq<Byte>)
    requires 0 <= index && index + 4 <= |memory|
    ensures |r| == |memory|
    ensures r[index..index + 4] == EncodeInt(value)
    ensures forall k :: 0 <= k < |memory| && !(index <= k < index + 4) ==> r[k] == memory[k]
  {
    memory[..index] + EncodeInt(value) + memory[index + 4..]
  }

  /** Floor division by 2^(8k) taken one byte at a time. */
  lemma DivByteTwice(x: int, a: int)
    requires a == 0x100 || a == 0x1_0000
    ensures x / a / 0x100 == x / (a * 0x100)
  {
    var q := x / a;
    var r := x % a;
    var q2 := q / 0x100;
    var r2 := q % 0x100;
    assert x == q * a + r;
    assert q == q2 * 0x100 + r2;
    assert x == q2 * (a * 0x100) + (r2 * a + r);
    assert 0 <= r2 * a + r < a * 0x100;
  }

  /** Reading back a word that was written gives the value written. */
  lemma {:induction false} GetIntEncodeInt(value: Int32)
    ensures GetInt(EncodeInt(value), 0) == value
  {
    var x1 := value / 0x100;
    var x2 := x1 / 0x100;
    var x3 := x2 / 0x100;
    DivByteTwice(value, 0x100);
    DivByteTwice(value, 0x1_0000);
    assert value / 0x1_0000 == x2;
    assert value / 0x100_0000 == x3;
    assert value == x1 * 0x100 + value % 0x100;
    assert x1 == x2 * 0x100 + x1 % 0x100;
    assert x2 == x3 * 0x100 + x2 % 0x100;
    assert -0x80 <= x3 < 0x80;
    var bs := EncodeInt(value);
    assert bs[0] == x3 % 0x100 && bs[1] == x2 % 0x100 && bs[2] == x1 % 0x100;
    var u := bs[0] as int * 0x100_0000 + bs[1] as int * 0x1_0000 + bs[2] as int * 0x100 + bs[3] as int;
    if x3 >= 0 {
      assert bs[0] == x3;
      assert u == value;
    } else {
      assert bs[0] == x3 + 0x100;
      assert u == value + TWO_32;
    }
  }

  /** Encoding the word read from four bytes reproduces those bytes. */
  lemma {:induction false} EncodeIntGetInt(memory: seq<Byte>)
    requires |memory| == 4
    ensures EncodeInt(GetInt(memory, 0)) == memory
  {
    var b0, b1, b2, b3 := memory[0] as int, memory[1] as int, memory[2] as int, memory[3] as int;
    var v := GetInt(memory, 0);
    var s0 := if b0 >= 0x80 then b0 - 0x100 else b0;
    assert v == s0 * 0x100_0000 + b1 * 0x1_0000 + b2 * 0x100 + b3;
    var lo := b1 * 0x1_0000 + b2 * 0x100 + b3;
    assert 0 <= lo < 0x100_0000;
    assert v / 0x100_0000 == s0;
    var lo2 := b2 * 0x100 + b3;
    assert v / 0x1_0000 == s0 * 0x100 + b1 by {
      assert v == (s0 * 0x100 + b1) * 0x1_0000 + lo2;
      assert 0 <= lo2 < 0x1_0000;
    }
    assert v / 0x100 == (s0 * 0x1_0000 + b1 * 0x100 + b2) by {
      assert v == (s0 * 0x1_0000 + b1 * 0x100 + b2) * 0x100 + b3;
    }
    assert v % 0x100 == b3 by {
      assert v == (s0 * 0x1_0000 + b1 * 0x100 + b2) * 0x100 + b3;
    }
    assert (s0 * 0x100 + b1) % 0x100 == b1;
    assert (s0 * 0x1_0000 + b1 * 0x100 + b2) % 0x100 == b2 by {
      assert s0 * 0x1_0000 + b1 * 0x100 + b2 == (s0 * 0x100 + b1) * 0x100 + b2;
    }
    assert s0 % 0x100 == b0;
  }

  /** The word stored at a window is what a later `GetInt` of that window sees. */
  lemma GetIntSplice(memory: seq<Byte>, index: int, value: Int32)
    requires 0 <= index && index + 4 <= |memory|
    ensures GetInt(Splice(memory, index, value), index) == value
  {
    var r := Splice(memory, index, value);
    GetIntEncodeInt(value);
    assert r[index..index + 4] == EncodeInt(value);
    assert GetInt(r, index) == GetInt(r[index..index + 4], 0);
  }

  /** A word is determined by its own four bytes only. */
  lemma GetIntLocal(a: seq<Byte>, b: seq<Byte>, p: int)
    requires 0 <= p && p + 4 <= |a| && p + 4 <= |b|
    requires a[p..p + 4] == b[p..p + 4]
    ensures GetInt(a, p) == GetInt(b, p)
  {
    assert a[p] == a[p..p + 4][0] && a[p + 1] == a[p..p + 4][1];
    assert a[p + 2] == a[p..p + 4][2] && a[p + 3] == a[p..p + 4][3];
    assert b[p] == b[p..p + 4][0] && b[p + 1] == b[p..p + 4][1];
    assert b[p + 2] == b[p..p + 4][2] && b[p + 3] == b[p..p + 4][3];
  }

  /**
   * A memory whose first `n` bytes are kept and whose next four hold
   * `value`'s encoding has, up to `n + 4`, the old prefix and that encoding.
   */
  lemma AppendWord(memory: seq<Byte>, memory': seq<Byte>, n: int, value: Int32)
    requires 0 <= n && n + 4 <= |memory'| && n <= |memory|
    requires memory'[..n] == memory[..n] && GetInt(memory', n) == value
    ensures memory'[..n + 4] == memory[..n] + EncodeInt(value)
  {
    var w := memory'[n..n + 4];
    assert w[0] == memory'[n] && w[1] == memory'[n + 1] && w[2] == memory'[n + 2] && w[3] == memory'[n + 3];
    assert GetInt(w, 0) == value;
    EncodeIntGetInt(w);
    assert memory'[..n + 4] == memory'[..n] + memory'[n..n + 4];
  }

  /**
   * `writeInt(bytes, index, value)`: stores the big-endian encoding of
   * `value` at `bytes[index..index+4]` and changes nothing else.
   */
  method WriteInt(bytes: array<Byte>, index: int, value: Int32)
    requires 0 <= index && index + 4 <= bytes.Length
    modifies bytes
    ensures bytes[..] == Splice(old(bytes[..]), index, value)
  {
    bytes[index] := (value / 0x100_0000) % 0x100;
    bytes[index + 1] := (value / 0x1_0000) % 0x100;
    bytes[index + 2] := (value / 0x100) % 0x100;
    bytes[index + 3] := value % 0x100;
    assert bytes[..] == old(bytes[..])[..index] + EncodeInt(value) + old(bytes[..])[index + 4..];
  }
}
