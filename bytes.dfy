/** Big-endian reads and writes of unsigned integers in a byte buffer, in the
    way the source computes them: with JavaScript's 32-bit bitwise operators,
    which see every operand as a signed 32-bit integer, followed by a
    correction of negative results. */
module BytesReadWrite {
  import opened Common

  const MAX_UINT_32: int := 0x1_0000_0000
  const MAX_UINT_16: int := 0x1_0000

  /** 2^n, computed eight bits at a time where it can. */
  function Pow2(n: nat): (p: nat)
    ensures p >= 1
  {
    if n == 0 then 1 else if n >= 8 then 256 * Pow2(n - 8) else 2 * Pow2(n - 1)
  }

  lemma {:induction false} Pow2Double(k: nat)
    ensures Pow2(k + 1) == 2 * Pow2(k)
  {
    if k >= 8 {
      Pow2Double(k - 8);
    } else if k == 7 {
      assert Pow2(8) == 256;
      assert Pow2(7) == 2 * Pow2(6) == 4 * Pow2(5) == 8 * Pow2(4) == 16 * Pow2(3);
      assert Pow2(3) == 8;
    }
  }

  /** Element `k` of a typed array as the bitwise operators see it: a read
      outside the array yields `undefined`, which they convert to 0. */
  function ByteAt(buffer: seq<byte>, k: int): byte
  {
    if 0 <= k < |buffer| then buffer[k] else 0
  }

  /** ECMAScript ToUint32 of an integer. */
  function ToUint32(x: int): nat
  {
    x % MAX_UINT_32
  }

  /** ECMAScript ToInt32 of an integer: the two's complement reading of its
      low 32 bits. */
  function ToInt32(x: int): int
  {
    var u := ToUint32(x);
    if u >= 0x8000_0000 then u - MAX_UINT_32 else u
  }

  /** Bitwise or of two non-negative integers, bit by bit. */
  function BitOr(x: nat, y: nat): nat
  {
    if x == 0 && y == 0 then 0
    else 2 * BitOr(x / 2, y / 2) + (if x % 2 == 1 || y % 2 == 1 then 1 else 0)
  }

  /** `x << n` in JavaScript (for 0 <= n < 32). */
  function ShiftLeft(x: int, n: nat): int
    requires n < 32
  {
    ToInt32(ToUint32(x) * Pow2(n))
  }

  /** `x | y` in JavaScript. */
  function Or(x: int, y: int): int
  {
    ToInt32(BitOr(ToUint32(x), ToUint32(y)))
  }

  /** `x >> n` in JavaScript: an arithmetic shift of the signed 32-bit value
      (Dafny's division by a positive divisor rounds toward minus infinity). */
  function ShiftRight(x: int, n: nat): int
    requires n < 32
  {
    ToInt32(x) / Pow2(n)
  }

  /** `x & 0xff` in JavaScript: the low eight bits. */
  function Mask8(x: int): byte
  {
    ToUint32(x) % 256
  }

  /** Storing a number into a Uint8Array element keeps its low eight bits. */
  function ToUint8(x: int): byte
  {
    x % 256
  }

  lemma {:induction false} BitOrZero(x: nat)
    ensures BitOr(x, 0) == x
  {
    if x != 0 {
      BitOrZero(x / 2);
    }
  }

  /** Or-ing an even number takes its low bit from the other operand. */
  lemma BitOrEven(h: nat, y: nat)
    ensures BitOr(2 * h, y) == 2 * BitOr(h, y / 2) + y % 2
  {
    assert (2 * h) / 2 == h && (2 * h) % 2 == 0;
    if h == 0 && y == 0 {
      assert BitOr(0, 0) == 0;
    }
  }

  /** The low k bits of x are zero. */
  predicate LowBitsClear(x: nat, k: nat)
  {
    k == 0 || (x % 2 == 0 && LowBitsClear(x / 2, k - 1))
  }

  /** Or-ing a number whose low k bits are clear with a number below 2^k
      is addition: the two occupy disjoint bits. */
  lemma {:induction false} BitOrDisjoint(x: nat, y: nat, k: nat)
    requires LowBitsClear(x, k) && y < Pow2(k)
    ensures BitOr(x, y) == x + y
  {
    if k == 0 {
      assert Pow2(0) == 1;
      BitOrZero(x);
    } else {
      HalfBelow(y, k);
      BitOrDisjoint(x / 2, y / 2, k - 1);
      BitOrStep(x, x / 2, y);
    }
  }

  lemma HalfBelow(y: nat, k: nat)
    requires 0 < k && y < Pow2(k)
    ensures y / 2 < Pow2(k - 1)
  {
    Pow2Double(k - 1);
  }

  /** One bit at a time: if or-ing the halves is addition, so is or-ing the
      wholes. */
  lemma BitOrStep(x: nat, half: nat, y: nat)
    requires x == 2 * half && BitOr(half, y / 2) == half + y / 2
    ensures BitOr(x, y) == x + y
  {
    BitOrEven(half, y);
  }

  /** A multiple of 2^k has its low k bits clear. */
  lemma {:induction false} MultipleClear(m: nat, k: nat)
    ensures LowBitsClear(Pow2(k) * m, k)
  {
    if k > 0 {
      Pow2Double(k - 1);
      MultipleClear(m, k - 1);
      ProductDouble(Pow2(k), Pow2(k - 1), m);
      ClearStep(Pow2(k) * m, Pow2(k - 1) * m, k);
    }
  }

  lemma ProductDouble(big: nat, p: nat, m: nat)
    requires big == 2 * p
    ensures big * m == 2 * (p * m)
  {
  }

  lemma ClearStep(x: nat, half: nat, k: nat)
    requires 0 < k && x == 2 * half && LowBitsClear(half, k - 1)
    ensures LowBitsClear(x, k)
  {
    assert x % 2 == 0 && x / 2 == half;
  }

  /** A number below 2^32 is its own unsigned 32-bit pattern. */
  lemma SmallUint32(v: int)
    requires 0 <= v < MAX_UINT_32
    ensures ToUint32(v) == v
  {
  }

  /** A number below 2^31 is its own signed 32-bit reading. */
  lemma SmallInt32(v: int)
    requires 0 <= v < 0x8000_0000
    ensures ToInt32(v) == v
  {
  }

  /** The signed reading of an unsigned 32-bit pattern converts back to it. */
  lemma Int32RoundTrip(u: nat)
    requires u < MAX_UINT_32
    ensures ToUint32(ToInt32(u)) == u
  {
  }

  lemma Pow2Values()
    ensures Pow2(0) == 1 && Pow2(8) == 0x100 && Pow2(16) == 0x1_0000
    ensures Pow2(24) == 0x100_0000 && Pow2(32) == MAX_UINT_32
  {
  }

  /** A byte shifted left by 8, 16 or 24 bits, read back as an unsigned
      pattern, is the byte times the power of two. */
  lemma ShiftedByte(b: byte, n: nat)
    requires n == 8 || n == 16 || n == 24
    ensures ToUint32(ShiftLeft(b, n)) == b * Pow2(n)
  {
    Pow2Values();
    assert ToUint32(b) == b;
    Int32RoundTrip(b * Pow2(n));
  }

  /** The or of readUint16: a byte shifted up by eight bits, or-ed with a
      byte, is their big-endian value. */
  lemma OrOfShiftedPair(b0: byte, b1: byte)
    ensures Or(ShiftLeft(b0, 8), b1) == 256 * b0 + b1
  {
    Pow2Values();
    var hi := ShiftLeft(b0, 8);
    ShiftedByte(b0, 8);
    assert ToUint32(hi) == Pow2(8) * b0;
    assert ToUint32(b1) == b1;
    MultipleClear(b0, 8);
    BitOrDisjoint(Pow2(8) * b0, b1, 8);
    assert BitOr(ToUint32(hi), ToUint32(b1)) == 256 * b0 + b1;
    SmallInt32(256 * b0 + b1);
  }

  /** ToInt32 yields a signed 32-bit number. */
  lemma Int32Range(x: int)
    ensures -0x8000_0000 <= ToInt32(x) < 0x8000_0000
  {
  }

  /** The source's correction of a negative result, `val < 0 ? 2^32 + val : val`,
      recovers the unsigned pattern of a signed 32-bit number. */
  lemma Unsign(v: int)
    requires -0x8000_0000 <= v < 0x8000_0000
    ensures (if v < 0 then MAX_UINT_32 + v else v) == ToUint32(v)
  {
  }

  /** One `|` of a reader: or-ing a value whose pattern is a multiple of 2^k
      with one whose pattern is below 2^k adds the patterns. */
  lemma OrStep(x: int, y: int, hi: nat, lo: nat, k: nat)
    requires ToUint32(x) == Pow2(k) * hi
    requires ToUint32(y) == lo && lo < Pow2(k)
    requires Pow2(k) * hi + lo < MAX_UINT_32
    ensures ToUint32(Or(x, y)) == Pow2(k) * hi + lo
  {
    MultipleClear(hi, k);
    BitOrDisjoint(Pow2(k) * hi, lo, k);
    Int32RoundTrip(Pow2(k) * hi + lo);
  }

  /** The or-chain of readUint32, as an unsigned pattern, is the big-endian
      value of its four bytes. */
  lemma OrOfShiftedBytes(b0: byte, b1: byte, b2: byte, b3: byte)
    ensures ToUint32(Or(Or(Or(ShiftLeft(b0, 24), ShiftLeft(b1, 16)), ShiftLeft(b2, 8)), b3))
            == b0 * 0x100_0000 + b1 * 0x1_0000 + b2 * 0x100 + b3
  {
    Pow2Values();
    ShiftedByte(b0, 24);
    ShiftedByte(b1, 16);
    ShiftedByte(b2, 8);
    var s1 := Or(ShiftLeft(b0, 24), ShiftLeft(b1, 16));
    OrStep(ShiftLeft(b0, 24), ShiftLeft(b1, 16), b0, b1 * 0x1_0000, 24);
    assert ToUint32(s1) == 0x1_0000 * (b0 * 0x100 + b1);
    var s2 := Or(s1, ShiftLeft(b2, 8));
    OrStep(s1, ShiftLeft(b2, 8), b0 * 0x100 + b1, b2 * 0x100, 16);
    assert ToUint32(s2) == 0x100 * (b0 * 0x1_0000 + b1 * 0x100 + b2);
    SmallUint32(b3);
    OrStep(s2, b3, b0 * 0x1_0000 + b1 * 0x100 + b2, b3, 8);
  }

  /** readUint16: `buffer[offset] << 8 | buffer[offset + 1]`, plus 2^16 when
      the result is negative. */
  function ReadUint16(buffer: seq<byte>, offset: int): (r: int)
    ensures 0 <= r < MAX_UINT_16
    ensures r == 256 * ByteAt(buffer, offset) + ByteAt(buffer, offset + 1)
  {
    var b0, b1 := ByteAt(buffer, offset), ByteAt(buffer, offset + 1);
    var val := Or(ShiftLeft(b0, 8), b1);
    OrOfShiftedPair(b0, b1);
    if val < 0 then MAX_UINT_16 + val else val
  }

  /** readUint32: the four shifted bytes or-ed together, plus 2^32 when the
      signed 32-bit result is negative. */
  function ReadUint32(buffer: seq<byte>, offset: int): (r: int)
    ensures 0 <= r < MAX_UINT_32
    ensures r == ByteAt(buffer, offset) * 0x100_0000 + ByteAt(buffer, offset + 1) * 0x1_0000
               + ByteAt(buffer, offset + 2) * 0x100 + ByteAt(buffer, offset + 3)
  {
    var b0, b1, b2, b3 :=
      ByteAt(buffer, offset), ByteAt(buffer, offset + 1),
      ByteAt(buffer, offset + 2), ByteAt(buffer, offset + 3);
    var val := Or(Or(Or(ShiftLeft(b0, 24), ShiftLeft(b1, 16)), ShiftLeft(b2, 8)), b3);
    OrOfShiftedBytes(b0, b1, b2, b3);
    Int32Range(BitOr(ToUint32(Or(Or(ShiftLeft(b0, 24), ShiftLeft(b1, 16)), ShiftLeft(b2, 8))), ToUint32(b3)));
    Unsign(val);
    if val < 0 then MAX_UINT_32 + val else val
  }

  /** The byte writeUint32 stores at `offset + k` (k < 4): `value >> 24` for
      the first, `(value >> s) & 0xff` for the others. */
  function StoredByte(value: int, k: nat): byte
    requires k < 4
  {
    if k == 0 then ToUint8(ShiftRight(value, 24))
    else Mask8(ShiftRight(value, 24 - 8 * k))
  }

  /** The top stored byte: an arithmetic shift of the signed value still
      leaves the top digit of the unsigned one modulo 256. */
  lemma TopByteDigit(value: int)
    ensures StoredByte(value, 0) == ToUint32(value) / 0x100_0000
  {
    assert Pow2(24) == 0x100_0000;
    var u := ToUint32(value);
    if u >= 0x8000_0000 {
      assert (u - MAX_UINT_32) / 0x100_0000 == u / 0x100_0000 - 256;
    }
  }

  /** Keeping the low 32 bits, then the low 8, keeps the low 8. */
  lemma LowBitsOfLowBits(x: int)
    ensures ToUint32(x) % 256 == x % 256
  {
    var q, r := x / MAX_UINT_32, x % MAX_UINT_32;
    assert x == 256 * (0x100_0000 * q) + r;
    ShiftMod(r, -(0x100_0000 * q));
  }

  lemma ShiftMod(a: int, m: int)
    ensures (a - 256 * m) % 256 == a % 256
  {
    var q, r := a / 256, a % 256;
    assert a - 256 * m == 256 * (q - m) + r;
  }

  lemma LowByteDigit(value: int, k: nat)
    requires 1 <= k < 4
    ensures StoredByte(value, k) == (ToUint32(value) / Pow2(24 - 8 * k)) % 256
  {
    var u := ToUint32(value);
    var p := Pow2(24 - 8 * k);
    Pow2Values();
    assert p == if k == 1 then 0x1_0000 else if k == 2 then 0x100 else 1;
    var t := ToInt32(value) / p;
    assert StoredByte(value, k) == t % 256 by { LowBitsOfLowBits(t); }
    if u >= 0x8000_0000 {
      var c := if k == 1 then 0x1_0000 else if k == 2 then 0x100_0000 else 0x1_0000_0000;
      assert c == 256 * (c / 256);
      assert t == u / p - c by {
        assert ToInt32(value) == u - MAX_UINT_32;
        DivShift(u, p, c);
      }
      ShiftMod(u / p, c / 256);
    }
  }

  lemma DivShift(u: int, p: nat, c: int)
    requires p == 0x1_0000 || p == 0x100 || p == 1
    requires c == MAX_UINT_32 / p
    ensures (u - MAX_UINT_32) / p == u / p - c
  {
    var q, r := u / p, u % p;
    assert u - MAX_UINT_32 == p * (q - c) + r;
  }

  /** Reading back four bytes whose values are the digits of `u` yields `u`. */
  lemma DigitsRecompose(u: nat)
    requires u < MAX_UINT_32
    ensures (u / 0x100_0000) * 0x100_0000 + ((u / 0x1_0000) % 256) * 0x1_0000
            + ((u / 0x100) % 256) * 0x100 + u % 256 == u
  {
    assert (u / 0x1_0000) % 256 == u / 0x1_0000 - 256 * (u / 0x100_0000);
    assert (u / 0x100) % 256 == u / 0x100 - 256 * (u / 0x1_0000);
  }

  /** Round trip: once the four bytes at `offset` are the ones writeUint32
      stores for `value`, readUint32 at `offset` returns `value` modulo 2^32. */
  lemma {:induction false} ReadAfterWrite(buffer: seq<byte>, offset: int, value: int)
    requires 0 <= offset && offset + 4 <= |buffer|
    requires forall k :: 0 <= k < 4 ==> buffer[offset + k] == StoredByte(value, k)
    ensures ReadUint32(buffer, offset) == value % MAX_UINT_32
  {
    var u := ToUint32(value);
    assert Pow2(16) == 0x1_0000 && Pow2(8) == 0x100 && Pow2(0) == 1;
    TopByteDigit(value);
    LowByteDigit(value, 1);
    LowByteDigit(value, 2);
    LowByteDigit(value, 3);
    assert buffer[offset] == StoredByte(value, 0);
    assert buffer[offset + 1] == StoredByte(value, 1);
    assert buffer[offset + 2] == StoredByte(value, 2);
    assert buffer[offset + 3] == StoredByte(value, 3);
    DigitsRecompose(u);
  }

  /** A store into a typed array: an index outside it is silently dropped. */
  method Store(buffer: array<byte>, index: int, b: byte)
    modifies buffer
    ensures forall k :: 0 <= k < buffer.Length ==> buffer[k] == if k == index then b else old(buffer[k])
  {
    if 0 <= index < buffer.Length {
      buffer[index] := b;
    }
  }

  /** writeUint32: stores the four bytes of `value` at `offset` in place.
      A store to an index outside the typed array is silently dropped. */
  method WriteUint32(buffer: array<byte>, offset: int, value: int)
    modifies buffer
    ensures forall k :: 0 <= k < buffer.Length ==>
      buffer[k] == if offset <= k < offset + 4 then StoredByte(value, k - offset) else old(buffer[k])
    ensures 0 <= offset && offset + 4 <= buffer.Length ==>
      ReadUint32(buffer[..], offset) == value % MAX_UINT_32
  {
    assert StoredByte(value, 3) == Mask8(value) by { assert Pow2(0) == 1; }
    Store(buffer, offset, ToUint8(ShiftRight(value, 24)));
    Store(buffer, offset + 1, Mask8(ShiftRight(value, 16)));
    Store(buffer, offset + 2, Mask8(ShiftRight(value, 8)));
    Store(buffer, offset + 3, Mask8(value));
    if 0 <= offset && offset + 4 <= buffer.Length {
      ReadAfterWrite(buffer[..], offset, value);
    }
  }

  /** utf8BytesToString: String.fromCharCode applied to the bytes, one UTF-16
      code unit per byte (no UTF-8 decoding takes place). */
  function BytesToString(bytes: seq<byte>): (s: string)
    ensures |s| == |bytes|
    ensures forall i :: 0 <= i < |bytes| ==> s[i] as int == bytes[i]
  {
    seq(|bytes|, i requires 0 <= i < |bytes| => bytes[i] as char)
  }
}
