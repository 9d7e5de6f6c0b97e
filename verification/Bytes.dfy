/** Byte strings as the wire formats see them: unsigned 8-, 16- and 32-bit values, their
    big-endian encodings, and the two Go idioms the packet code is written in
    (`copy` into a slice, and a bitwise or of two bytes).

    Unsigned machine values are subset types of `int`; a shift is a division or a
    multiplication, a mask is a remainder, and every wrap-around is written out. */
module Bytes {

  type Byte = b: int | 0 <= b < 0x100
  type Word = w: int | 0 <= w < 0x1_0000
  type Word32 = w: int | 0 <= w < 0x1_0000_0000

  function Min(a: int, b: int): int {
    if a < b then a else b
  }

  function Word16(s: seq<Byte>, i: nat): Word
    requires i + 2 <= |s|
  {
    0x100 * (s[i] as int) + s[i + 1] as int
  }

  function Long32(s: seq<Byte>, i: nat): Word32
    requires i + 4 <= |s|
  {
    0x1_0000 * (Word16(s, i) as int) + Word16(s, i + 2) as int
  }

  function Put16(w: Word): seq<Byte> {
    [w / 0x100, w % 0x100]
  }

  function Put32(w: Word32): seq<Byte> {
    Put16(w / 0x1_0000) + Put16(w % 0x1_0000)
  }

  function Zeros(n: nat): seq<Byte> {
    seq(n, _ => 0)
  }

  /** `s` cut or zero-padded to exactly `n` bytes. */
  function Fit(s: seq<Byte>, n: nat): (r: seq<Byte>)
    ensures |r| == n
  {
    if n <= |s| then s[..n] else s + Zeros(n - |s|)
  }

  /** What Go's `copy(dst[at:], src)` leaves in `dst`: as many bytes of `src` as fit. */
  function Blit(dst: seq<Byte>, at: nat, src: seq<Byte>): (r: seq<Byte>)
    requires at <= |dst|
    ensures |r| == |dst|
  {
    var n := Min(|src|, |dst| - at);
    dst[..at] + src[..n] + dst[at + n..]
  }

  method CopyInto(dst: array<Byte>, at: nat, src: seq<Byte>)
    requires at <= dst.Length
    modifies dst
    ensures dst[..] == Blit(old(dst[..]), at, src)
  {
    var n := Min(|src|, dst.Length - at);
    for i := 0 to n
      invariant dst[..] == old(dst[..at]) + src[..i] + old(dst[at + i..])
    {
      dst[at + i] := src[i];
    }
  }

  /** The bytes `done`, and zeros up to `n` bytes. */
  ghost function Partly(done: seq<Byte>, n: nat): seq<Byte>
    requires |done| <= n
  {
    done + Zeros(n - |done|)
  }

  /** `binary.BigEndian.PutUint16(buf[at:at+2], w)` on a buffer written so far up to `at`. */
  method PutUint16(buf: array<Byte>, at: nat, w: Word, ghost done: seq<Byte>)
    requires |done| == at && at + 2 <= buf.Length && buf[..] == Partly(done, buf.Length)
    modifies buf
    ensures buf[..] == Partly(done + Put16(w), buf.Length)
  {
    buf[at] := w / 0x100;
    buf[at + 1] := w % 0x100;
  }

  /** `binary.BigEndian.PutUint32`. */
  method PutUint32(buf: array<Byte>, at: nat, w: Word32, ghost done: seq<Byte>)
    requires |done| == at && at + 4 <= buf.Length && buf[..] == Partly(done, buf.Length)
    modifies buf
    ensures buf[..] == Partly(done + Put32(w), buf.Length)
  {
    PutUint16(buf, at, w / 0x1_0000, done);
    PutUint16(buf, at + 2, w % 0x1_0000, done + Put16(w / 0x1_0000));
    assert done + Put16(w / 0x1_0000) + Put16(w % 0x1_0000) == done + Put32(w);
  }

  /** `buf[at], buf[at+1] = a, b`. */
  method PutBytes(buf: array<Byte>, at: nat, a: Byte, b: Byte, ghost done: seq<Byte>)
    requires |done| == at && at + 2 <= buf.Length && buf[..] == Partly(done, buf.Length)
    modifies buf
    ensures buf[..] == Partly(done + [a, b], buf.Length)
  {
    buf[at] := a;
    buf[at + 1] := b;
  }

  /** Bitwise or of two non-negative integers. */
  function BitOr(a: nat, b: nat): nat
    decreases a + b
  {
    if a == 0 && b == 0 then 0
    else (if a % 2 == 1 || b % 2 == 1 then 1 else 0) + 2 * BitOr(a / 2, b / 2)
  }

  function Pow2(k: nat): (p: nat)
    ensures p > 0
  {
    if k == 0 then 1 else 2 * Pow2(k - 1)
  }

  /** Operands without a common bit: their or is their sum. */
  lemma {:induction false} DisjointOr(a: nat, b: nat, k: nat)
    requires b < Pow2(k)
    ensures BitOr(a * Pow2(k), b) == a * Pow2(k) + b
    decreases k, a
  {
    if k == 0 {
      if a > 0 { DisjointOr(a / 2, 0, 0); }
    } else {
      var half := a * Pow2(k - 1);
      assert a * Pow2(k) == 2 * half;
      DisjointOr(a, b / 2, k - 1);
    }
  }

  lemma {:induction false} BitOrBelow(a: nat, b: nat, k: nat)
    requires a < Pow2(k) && b < Pow2(k)
    ensures BitOr(a, b) < Pow2(k)
  {
    if k > 0 { BitOrBelow(a / 2, b / 2, k - 1); }
  }

  lemma {:induction false} BitOrIsZero(a: nat, b: nat)
    ensures BitOr(a, b) == 0 <==> a == 0 && b == 0
    decreases a + b
  {
    if a > 0 || b > 0 { BitOrIsZero(a / 2, b / 2); }
  }

  lemma Pow2Values()
    ensures Pow2(4) == 0x10 && Pow2(8) == 0x100 && Pow2(13) == 0x2000
  {
    assert Pow2(4) == 0x10;
    assert Pow2(8) == 0x10 * Pow2(4);
    assert Pow2(13) == 0x20 * Pow2(8);
  }

  /** The or of two bytes; the disjoint case is a sum (`DisjointOr`). */
  function OrByte(a: Byte, b: Byte): (r: Byte)
    ensures r as int == BitOr(a, b)
    ensures r == 0 <==> a == 0 && b == 0
  {
    NibblesOr(a, b);
    BitOrIsZero(a, b);
    if a % 0x10 == 0 && b < 0x10 then a as int + b as int else BitOr(a, b)
  }

  lemma NibblesOr(a: Byte, b: Byte)
    ensures BitOr(a, b) < 0x100
    ensures a % 0x10 == 0 && b < 0x10 ==> BitOr(a, b) == a as int + b as int
  {
    Pow2Values();
    BitOrBelow(a, b, 8);
    if a % 0x10 == 0 && b < 0x10 { DisjointOr(a as int / 0x10, b, 4); }
  }

  /** Two nibbles packed into a byte, and unpacked. */
  lemma PackedNibbles(hi: nat, lo: nat)
    requires hi < 0x10 && lo < 0x10
    ensures OrByte(0x10 * hi, lo) == 0x10 * hi + lo
    ensures OrByte(0x10 * hi, lo) / 0x10 == hi && OrByte(0x10 * hi, lo) % 0x10 == lo
  {
    var r := OrByte(0x10 * hi, lo);
    assert r == 0x10 * hi + lo;
  }

  /** `hi << 13 | lo & 0x1FFF` in 16 bits: no bit is in both. */
  function OrFlags(hi: Byte, lo: Word): (r: Word)
    ensures r as int == BitOr(0x2000 * (hi as int) % 0x1_0000, lo as int % 0x2000)
  {
    FlagsOr(hi, lo);
    0x2000 * (hi % 8) + lo % 0x2000
  }

  lemma FlagsOr(hi: Byte, lo: Word)
    ensures BitOr(0x2000 * (hi as int) % 0x1_0000, lo as int % 0x2000) == 0x2000 * (hi as int % 8) + lo as int % 0x2000
  {
    Pow2Values();
    assert 0x2000 * (hi as int) % 0x1_0000 == 0x2000 * (hi as int % 8);
    DisjointOr(hi as int % 8, lo as int % 0x2000, 13);
  }

  /** A slice that starts with two big-endian bytes is what `Put16` prints for them. */
  lemma ReadThenPut16(s: seq<Byte>, i: nat)
    requires i + 2 <= |s|
    ensures Put16(Word16(s, i)) == s[i..i + 2]
  {
  }

  lemma ReadThenPut32(s: seq<Byte>, i: nat)
    requires i + 4 <= |s|
    ensures Put32(Long32(s, i)) == s[i..i + 4]
  {
    ReadThenPut16(s, i);
    ReadThenPut16(s, i + 2);
    assert s[i..i + 2] + s[i + 2..i + 4] == s[i..i + 4];
  }

  /** Go's `net.IP.To4`: the 4-byte form of an IPv4 address, or the empty (nil) slice. */
  function To4(ip: seq<Byte>): (r: seq<Byte>)
    ensures |r| == 4 || r == []
  {
    if |ip| == 4 then ip
    else if |ip| == 16 && ip[..12] == Zeros(10) + [0xFF, 0xFF] then ip[12..]
    else []
  }

  /** A 4-byte address in the 16-byte form that `net.ParseIP` returns (RFC 4291, section 2.5.5.2). */
  function Mapped(ip: seq<Byte>): (r: seq<Byte>)
    ensures |r| == 12 + |ip|
  {
    [0, 0, 0, 0, 0, 0, 0, 0, 0, 0, 0xFF, 0xFF] + ip
  }

  /** An IPv4 address in one of its two forms, and nothing else. */
  predicate IsIPv4(ip: seq<Byte>) {
    |ip| == 4 || (|ip| == 16 && ip == Mapped(ip[12..]))
  }

  lemma OnlyIPv4(ip: seq<Byte>)
    ensures To4(ip) != [] <==> IsIPv4(ip)
  {
    if |ip| == 16 {
      assert Zeros(10) + [0xFF, 0xFF] == Mapped([]);
      assert ip == ip[..12] + ip[12..] && Mapped(ip[12..])[..12] == Mapped([]);
    }
  }

  lemma MappedIsIPv4(ip: seq<Byte>)
    requires |ip| == 4
    ensures To4(Mapped(ip)) == ip && To4(ip) == ip
  {
    assert Mapped(ip)[..12] == Zeros(10) + [0xFF, 0xFF];
  }

  /** `s` with a big-endian word written at `at`. */
  function PutWord(s: seq<Byte>, at: nat, w: Word): (r: seq<Byte>)
    requires at + 2 <= |s|
    ensures |r| == |s|
  {
    s[at := w / 0x100][at + 1 := w % 0x100]
  }
}
