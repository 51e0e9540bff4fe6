/**
 * Constant-buffer sizes are rounded up to the 256-byte granularity that
 * Direct3D 12 demands of constant buffer views, with the C++ idiom
 * `(size + 0xff) & ~0xff` evaluated over a 64-bit `size_t`.
 * The bitwise AND is modelled bit by bit on natural numbers.
 */
module Alignment {

  /** 2^64: `size_t` arithmetic wraps modulo this value. */
  const SizeModulus: nat := 0x1_0000_0000_0000_0000

  /** `sizeof(DirectX::XMMATRIX)`: sixteen 4-byte floats. */
  const MatrixSize: nat := 64

  function Pow2(n: nat): (p: nat)
    ensures p > 0
  {
    if n == 0 then 1 else 2 * Pow2(n - 1)
  }

  /** Bitwise AND of two non-negative integers, least significant bit first. */
  function BitAnd(a: nat, b: nat): nat
    decreases a
  {
    if a == 0 || b == 0 then 0
    else 2 * BitAnd(a / 2, b / 2) + (if a % 2 == 1 && b % 2 == 1 then 1 else 0)
  }

  /** Bitwise complement within 64 bits (`~x` on a `size_t`). */
  function BitNot64(x: nat): nat
    requires x < SizeModulus
  {
    SizeModulus - 1 - x
  }

  /** The expression `(size + 0xff) & ~0xff` on `size_t`, wrap-around included. */
  function AlignUp256(size: nat): nat
    requires size < SizeModulus
  {
    BitAnd((size + 0xff) % SizeModulus, BitNot64(0xff))
  }

  lemma {:induction false} Pow2Add(a: nat, b: nat)
    ensures Pow2(a + b) == Pow2(a) * Pow2(b)
  {
    if a > 0 {
      Pow2Add(a - 1, b);
    }
  }

  lemma Pow2Of56And64()
    ensures Pow2(56) == 0x100_0000_0000_0000
    ensures Pow2(64) == SizeModulus
  {
    assert Pow2(8) == 256;
    Pow2Add(8, 8);
    assert Pow2(16) == 0x1_0000;
    Pow2Add(16, 16);
    assert Pow2(32) == 0x1_0000_0000;
    Pow2Add(32, 16);
    assert Pow2(48) == 0x1_0000_0000_0000;
    Pow2Add(48, 8);
    assert Pow2(56) == 0x100_0000_0000_0000;
    Pow2Add(56, 8);
  }

  /** A mask of n low one-bits leaves every n-bit value unchanged. */
  lemma {:induction false} BitAndLowOnes(a: nat, n: nat)
    requires a < Pow2(n)
    ensures BitAnd(a, Pow2(n) - 1) == a
  {
    if a != 0 {
      assert n > 0;
      BitAndLowOnes(a / 2, n - 1);
    }
  }

  /** ANDing with an even mask clears the lowest bit of the value. */
  lemma BitAndEven(a: nat, b: nat)
    requires b > 0
    ensures BitAnd(a, 2 * b) == 2 * BitAnd(a / 2, b)
  {
    var b2 := 2 * b;
    if a != 0 {
      assert b2 / 2 == b && b2 % 2 == 0;
      assert BitAnd(a, b2) == 2 * BitAnd(a / 2, b2 / 2) + 0;
    }
  }

  lemma BitAndTimes4(a: nat, b: nat)
    requires b > 0
    ensures BitAnd(a, 4 * b) == 4 * BitAnd(a / 4, b)
  {
    var a2, b2 := a / 2, 2 * b;
    BitAndEven(a, b2);
    BitAndEven(a2, b);
    assert 2 * b2 == 4 * b;
    assert a2 / 2 == a / 4;
  }

  lemma BitAndTimes16(a: nat, b: nat)
    requires b > 0
    ensures BitAnd(a, 16 * b) == 16 * BitAnd(a / 16, b)
  {
    var a4, b4 := a / 4, 4 * b;
    BitAndTimes4(a, b4);
    BitAndTimes4(a4, b);
    assert 4 * b4 == 16 * b;
    assert a4 / 4 == a / 16;
  }

  /** ANDing with a multiple of 256 clears the eight lowest bits. */
  lemma BitAndTimes256(a: nat, b: nat)
    requires b > 0
    ensures BitAnd(a, 256 * b) == 256 * BitAnd(a / 256, b)
  {
    var a16, b16 := a / 16, 16 * b;
    BitAndTimes16(a, b16);
    BitAndTimes16(a16, b);
    assert 16 * b16 == 256 * b;
    assert a16 / 16 == a / 256;
  }

  /** For a 64-bit value v, `v & ~0xff` rounds v down to a multiple of 256. */
  lemma ClearLowByte(v: nat)
    requires v < SizeModulus
    ensures BitAnd(v, BitNot64(0xff)) == v - v % 256
  {
    Pow2Of56And64();
    var m := 0xff_ffff_ffff_ffff;
    assert BitNot64(0xff) == 256 * m;
    BitAndTimes256(v, m);
    BitAndLowOnes(v / 256, 56);
  }

  /** Without wrap-around, the rounding is to the multiple of 256 at or below `size + 0xff`. */
  lemma AlignUp256NoWrap(size: nat)
    requires size + 0xff < SizeModulus
    ensures AlignUp256(size) == (size + 0xff) - (size + 0xff) % 256
  {
    var v := size + 0xff;
    assert v % SizeModulus == v;
    ClearLowByte(v);
    assert AlignUp256(size) == BitAnd(v, BitNot64(0xff));
  }

  /**
   * Whenever the addition does not wrap, the rounded size is a multiple of
   * 256, is at least the requested size, and wastes fewer than 256 bytes.
   */
  lemma AlignUp256Bounds(size: nat)
    requires size + 0xff < SizeModulus
    ensures AlignUp256(size) % 256 == 0
    ensures size <= AlignUp256(size) < size + 256
  {
    AlignUp256NoWrap(size);
    RoundDown256(size + 0xff);
  }

  /** Rounding down to a multiple of 256 loses less than 256. */
  lemma RoundDown256(v: nat)
    ensures (v - v % 256) % 256 == 0
    ensures v - 256 < v - v % 256 <= v
  {
    assert v - v % 256 == 256 * (v / 256);
  }

  /** A world or projection matrix occupies one 256-byte constant buffer. */
  lemma MatrixConstantBufferSize()
    ensures AlignUp256(MatrixSize) == 256
  {
    ClearLowByte(MatrixSize + 0xff);
  }
}
