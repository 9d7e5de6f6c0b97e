/** Address blocks (RFC 4632, section 3.1) as proxy selection uses them: a parsed address, a
    parsed prefix, and `IPNet.Contains`. */
module Cidr {
  import opened Bytes

  /** `v` without its `k` low bits. */
  function Shr(v: nat, k: nat): nat {
    if k == 0 then v else Shr(v / 2, k - 1)
  }

  /** An address after `To4` normalisation, as a number of 32 or 128 bits. */
  datatype Address = Address(bits: nat, value: nat) {
    predicate Valid() {
      bits in {32, 128} && value < Pow2(bits)
    }
  }

  datatype Block = Block(bits: nat, base: nat, prefix: nat) {
    /** A mask is no longer than the addresses it applies to. */
    predicate Valid() {
      prefix <= bits && First().Valid()
    }

    function First(): Address {
      Address(bits, base)
    }

    /** The address has the block's length and agrees with it on the prefix. */
    predicate Contains(a: Address) {
      a.bits == bits && prefix <= bits && Shr(a.value, bits - prefix) == Shr(base, bits - prefix)
    }

    /** This block's addresses are all in `outer`: decided on the two prefixes alone. */
    predicate Within(outer: Block) {
      outer.prefix <= prefix && outer.Contains(First())
    }
  }

  lemma {:induction false} ShrTwice(v: nat, j: nat, k: nat)
    ensures Shr(v, j + k) == Shr(Shr(v, j), k)
  {
    if j > 0 { ShrTwice(v / 2, j - 1, k); }
  }

  lemma {:induction false} ShrBelow(v: nat, k: nat, bits: nat)
    requires k <= bits
    ensures v < Pow2(bits) <==> Shr(v, k) < Pow2(bits - k)
  {
    if k > 0 { ShrBelow(v / 2, k - 1, bits - 1); }
  }

  lemma {:induction false} ShrIsQuotient(v: nat, k: nat)
    ensures Shr(v, k) == v / Pow2(k)
  {
    if k > 0 {
      ShrIsQuotient(v / 2, k - 1);
      QuotientOfHalf(v, Pow2(k - 1));
    }
  }

  lemma QuotientOfHalf(v: nat, d: nat)
    requires d > 0
    ensures v / 2 / d == v / (2 * d)
  {
    var q, r := v / (2 * d), v % (2 * d);
    assert v / 2 == d * q + r / 2 && 0 <= r / 2 < d by { assert v == 2 * (d * q) + r; }
    assert v / 2 / d == q by { QuotientIs(v / 2, d, q, r / 2); }
  }

  lemma QuotientIs(n: nat, d: nat, q: nat, r: nat)
    requires n == d * q + r && r < d
    ensures n / d == q
  {
    assert d * (n / d - q) == r - n % d;
    SmallMultiple(d, n / d - q);
  }

  lemma SmallMultiple(d: nat, x: int)
    requires 0 - d < d * x < d
    ensures x == 0
  {
  }

  lemma SameQuotient(v: nat, w: nat, size: nat)
    requires size > 0
    ensures var first := w / size * size; v / size == w / size <==> first <= v < first + size
  {
    var q := w / size;
    assert v == size * (v / size) + v % size;
    if q * size <= v < q * size + size { QuotientIs(v, size, q, v - q * size); }
  }

  /** A block is an interval of address values: it starts at its base with the bits after the
      prefix cleared, and holds as many addresses as those bits can tell apart. */
  lemma ContainsIsInterval(b: Block, a: Address)
    requires b.prefix <= b.bits
    ensures var size := Pow2(b.bits - b.prefix);
      var first := b.base / size * size;
      b.Contains(a) <==> a.bits == b.bits && first <= a.value < first + size
  {
    ShrIsQuotient(a.value, b.bits - b.prefix);
    ShrIsQuotient(b.base, b.bits - b.prefix);
    SameQuotient(a.value, b.base, Pow2(b.bits - b.prefix));
  }

  /** Agreement on a prefix is agreement on every shorter one. */
  lemma ShorterPrefix(v: nat, w: nat, j: nat, k: nat)
    requires j <= k && Shr(v, j) == Shr(w, j)
    ensures Shr(v, k) == Shr(w, k)
  {
    ShrTwice(v, j, k - j);
    ShrTwice(w, j, k - j);
  }

  /** `top` with `k` bits appended: all zero but for the last, which is `last`. */
  lemma {:induction false} Append(top: nat, k: nat, last: nat) returns (v: nat)
    requires k > 0 && last < 2
    ensures Shr(v, k) == top && v % 2 == last
  {
    if k == 1 {
      v := 2 * top + last;
      assert Shr(v, 1) == Shr(v / 2, 0);
    } else {
      v := Append(top, k - 1, 0);
      v := 2 * v + last;
    }
  }

  /** Appending `m` zero bits does not change what is above them. */
  lemma {:induction false} Extend(w: nat, m: nat) returns (v: nat)
    ensures Shr(v, m) == w
  {
    if m == 0 { v := w; } else { v := Extend(w, m - 1); v := 2 * v; }
  }

  /** A block with a shorter prefix is not contained in one with a longer prefix. */
  lemma LongerPrefixLeavesOut(b: Block, c: Block) returns (a: Address)
    requires b.Valid() && c.Valid() && b.bits == c.bits && b.prefix < c.prefix
    ensures a.Valid() && b.Contains(a) && !c.Contains(a)
  {
    var n, m := b.bits - b.prefix, b.bits - c.prefix;
    var last := (Shr(c.base, m) + 1) % 2;
    var w := Append(Shr(b.base, n), n - m, last);
    var v := Extend(w, m);
    ShrTwice(v, m, n - m);
    ShrBelow(b.base, n, b.bits);
    ShrBelow(v, n, b.bits);
    a := Address(b.bits, v);
  }

  /** `Within` holds exactly when every address of the inner block is in the outer one. */
  lemma WithinMeansSubset(inner: Block, outer: Block)
    requires inner.Valid() && outer.Valid()
    ensures inner.Within(outer) <==> forall a: Address :: a.Valid() && inner.Contains(a) ==> outer.Contains(a)
  {
    if inner.Within(outer) {
      forall a: Address | inner.Contains(a) ensures outer.Contains(a) {
        ShorterPrefix(a.value, inner.base, inner.bits - inner.prefix, inner.bits - outer.prefix);
      }
    } else if inner.bits == outer.bits && inner.prefix < outer.prefix {
      var a := LongerPrefixLeavesOut(inner, outer);
    } else {
      assert inner.Contains(inner.First());
    }
  }

  /** Two blocks with an address in common are nested. */
  lemma NestedOrDisjoint(b: Block, c: Block, a: Address)
    requires b.Contains(a) && c.Contains(a)
    ensures b.Within(c) || c.Within(b)
  {
    if b.prefix <= c.prefix {
      ShorterPrefix(a.value, c.base, c.bits - c.prefix, c.bits - b.prefix);
    } else {
      ShorterPrefix(a.value, b.base, b.bits - b.prefix, b.bits - c.prefix);
    }
  }
}
