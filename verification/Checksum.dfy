/** The Internet checksum of `pkg/network/checksum.go`, proved against RFC 1071. */
module Checksum {
  import opened Bytes

  const WRAP := 0x1_0000_0000
  const TCP: Byte := 6
  const UDP: Byte := 17

  // ---------------------------------------------------------------- the RFC's definition

  /** The `k`-th 16-bit word of `data`; an odd last byte is the high half of its word. */
  function WordAt(data: seq<Byte>, k: nat): Word
    requires 2 * k < |data|
  {
    if 2 * k + 1 < |data| then Word16(data, 2 * k) else 0x100 * (data[2 * k] as int)
  }

  function Words(data: seq<Byte>): (ws: seq<Word>)
    ensures |ws| == (|data| + 1) / 2
  {
    seq((|data| + 1) / 2, k requires 0 <= k < (|data| + 1) / 2 => WordAt(data, k))
  }

  /** One's complement addition: a carry out of the top bit is added back at the bottom. */
  function OnesAdd(a: Word, b: Word): Word {
    if a as int + b as int > 0xFFFF then a as int + b as int - 0xFFFF else a as int + b as int
  }

  function OnesSum(ws: seq<Word>): Word {
    if ws == [] then 0 else OnesAdd(OnesSum(ws[..|ws| - 1]), ws[|ws| - 1])
  }

  /** RFC 1071, section 1: the one's complement of the one's complement sum. */
  function Rfc1071(data: seq<Byte>): Word {
    0xFFFF - OnesSum(Words(data)) as int
  }

  // ---------------------------------------------------------------- the deferred-carry sum

  function Sum(ws: seq<Word>): nat {
    if ws == [] then 0 else Sum(ws[..|ws| - 1]) + ws[|ws| - 1] as int
  }

  /** The representative in 1..0xFFFF of `n` modulo 0xFFFF, and 0 for 0 alone. */
  function Residue(n: nat): Word {
    if n == 0 then 0 else (n - 1) % 0xFFFF + 1
  }

  /** What the code computes for every input, however long: the 32-bit accumulator holds the
      word sum modulo 2^32 before the carries are folded in. */
  function ChecksumOf(data: seq<Byte>): Word {
    0xFFFF - Residue(Sum(Words(data)) % WRAP) as int
  }

  method CalculateChecksum(data: seq<Byte>) returns (checksum: Word)
    ensures checksum == ChecksumOf(data)
    ensures |data| <= 131074 ==> checksum == Rfc1071(data)
  {
    var sum := AddWords(data);
    assert Words(data)[..|Words(data)|] == Words(data);
    ghost var rounds;
    sum, rounds := FoldCarries(sum);
    checksum := 0xFFFF - sum as int;
    if |data| <= 131074 { RefinesRfc1071(data); }
  }

  /** The word loop and the odd-byte case that follows it. */
  method AddWords(data: seq<Byte>) returns (sum: Word32)
    ensures sum == PartialSum(data, (|data| + 1) / 2)
  {
    sum := 0;
    var i := 0;
    while i < |data| - 1
      invariant i % 2 == 0 && 0 <= i <= |data|
      invariant sum == PartialSum(data, i / 2)
    {
      PartialSumStep(data, i / 2);
      sum := (sum as int + Word16(data, i) as int) % WRAP;
      i := i + 2;
    }
    if |data| % 2 == 1 {
      PartialSumStep(data, i / 2);
      sum := (sum as int + 0x100 * (data[|data| - 1] as int)) % WRAP;
    }
  }

  /** The accumulator after `k` words. */
  ghost function PartialSum(data: seq<Byte>, k: nat): Word32
    requires k <= (|data| + 1) / 2
  {
    Sum(Words(data)[..k]) % WRAP
  }

  lemma PartialSumStep(data: seq<Byte>, k: nat)
    requires 2 * k < |data|
    ensures PartialSum(data, k + 1) == (PartialSum(data, k) as int + WordAt(data, k) as int) % WRAP
  {
    SumExtends(Words(data), k);
  }

  lemma SumExtends(ws: seq<Word>, k: nat)
    requires k < |ws|
    ensures Sum(ws[..k + 1]) == Sum(ws[..k]) + ws[k] as int
  {
    assert ws[..k + 1][..k] == ws[..k];
  }

  /** The carry-folding loop; `rounds` counts its iterations. */
  method FoldCarries(total: Word32) returns (sum: Word32, ghost rounds: nat)
    ensures sum == Residue(total)
    ensures rounds <= 2
  {
    sum, rounds := total, 0;
    while sum > 0xFFFF
      invariant Residue(sum) == Residue(total)
      invariant rounds == 0 || (rounds == 1 && sum <= 0x1_FFFE) || (rounds == 2 && sum <= 0xFFFF)
      decreases sum
    {
      FoldKeepsResidue(sum);
      sum := sum as int % 0x1_0000 + sum as int / 0x1_0000;
      rounds := rounds + 1;
    }
  }

  /** One round of carry folding keeps the residue and makes the accumulator smaller. */
  lemma FoldKeepsResidue(sum: nat)
    requires sum > 0xFFFF
    ensures Residue(sum % 0x1_0000 + sum / 0x1_0000) == Residue(sum)
    ensures sum % 0x1_0000 + sum / 0x1_0000 < sum
  {
  }

  // ---------------------------------------------------------------- refinement

  lemma {:induction false} OnesSumIsResidue(ws: seq<Word>)
    ensures OnesSum(ws) == Residue(Sum(ws))
  {
    if ws != [] {
      OnesSumIsResidue(ws[..|ws| - 1]);
    }
  }

  lemma {:induction false} SumBound(ws: seq<Word>)
    ensures Sum(ws) <= 0xFFFF * |ws|
  {
    if ws != [] {
      SumBound(ws[..|ws| - 1]);
    }
  }

  /** Two positive numbers share a residue exactly when they differ by a multiple of 0xFFFF. */
  lemma SameResidue(a: nat, b: nat)
    requires a > 0 && b > 0
    ensures Residue(a) == Residue(b) <==> (a - b) % 0xFFFF == 0
  {
  }

  /** 2^32 is one more than a multiple of 0xFFFF, so dropping `q` of them moves the residue by `q`. */
  lemma LostCarries(s: nat)
    ensures Residue(s % WRAP) == Residue(s) <==> (s / WRAP) % 0xFFFF == 0 && (s % WRAP == 0 ==> s == 0)
  {
    var q, r := s / WRAP, s % WRAP;
    if r > 0 {
      SameResidue(s, r);
      assert s - r == 0xFFFF * (0x10001 * q) + q;
    }
  }

  /** The result meets the RFC exactly when the multiples of 2^32 the accumulator lost are a
      multiple of 0xFFFF and did not leave it at zero. */
  lemma MeetsRfc1071Exactly(data: seq<Byte>)
    ensures ChecksumOf(data) == Rfc1071(data)
      <==> var s := Sum(Words(data)); (s / WRAP) % 0xFFFF == 0 && (s % WRAP == 0 ==> s == 0)
  {
    OnesSumIsResidue(Words(data));
    LostCarries(Sum(Words(data)));
  }

  /** Up to 131074 bytes, that is 65537 words of at most 0xFFFF, nothing is lost. */
  lemma RefinesRfc1071(data: seq<Byte>)
    requires |data| <= 131074
    ensures Sum(Words(data)) < WRAP
    ensures ChecksumOf(data) == Rfc1071(data)
  {
    SumBound(Words(data));
    MeetsRfc1071Exactly(data);
  }

  lemma {:induction false} SumOfEqualWords(ws: seq<Word>, w: Word)
    requires forall k :: 0 <= k < |ws| ==> ws[k] == w
    ensures Sum(ws) == |ws| * w
  {
    if ws != [] {
      SumOfEqualWords(ws[..|ws| - 1], w);
    }
  }

  /** The bound is tight: one more word and the code disagrees with the RFC. */
  lemma BoundIsTight()
    ensures var data: seq<Byte> := seq(131076, _ => 0xFF);
      ChecksumOf(data) == 1 && Rfc1071(data) == 0
  {
    var data: seq<Byte> := seq(131076, _ => 0xFF);
    SumOfEqualWords(Words(data), 0xFFFF);
    OnesSumIsResidue(Words(data));
  }

  /** An odd last byte counts as if a zero byte followed it. */
  lemma OddIsPadded(data: seq<Byte>)
    requires |data| % 2 == 1
    ensures ChecksumOf(data) == ChecksumOf(data + [0]) && Rfc1071(data) == Rfc1071(data + [0])
  {
    forall k | 0 <= k < |Words(data)| ensures Words(data)[k] == Words(data + [0])[k] {
      PaddedWord(data, k);
    }
    assert Words(data) == Words(data + [0]);
  }

  lemma PaddedWord(data: seq<Byte>, k: nat)
    requires |data| % 2 == 1 && 2 * k < |data|
    ensures WordAt(data, k) == WordAt(data + [0], k)
  {
    assert (data + [0])[2 * k] == data[2 * k];
  }

  /** The numerical example of RFC 1071, section 3. */
  lemma RfcExample()
    ensures var data := [0x00, 0x01, 0xF2, 0x03, 0xF4, 0xF5, 0xF6, 0xF7];
      ChecksumOf(data) == Rfc1071(data) == 0x220D
  {
    var data: seq<Byte> := [0x00, 0x01, 0xF2, 0x03, 0xF4, 0xF5, 0xF6, 0xF7];
    var ws: seq<Word> := [0x0001, 0xF203, 0xF4F5, 0xF6F7];
    assert Words(data) == ws;
    assert ws[..3][..2] == ws[..2] && ws[..2][..1] == ws[..1] && ws[..1][..0] == [];
    assert Sum(ws[..1]) == 0x0001 && Sum(ws[..2]) == 0xF204 && Sum(ws[..3]) == 0x1_E6F9 && Sum(ws) == 0x2_DDF0;
    RefinesRfc1071(data);
  }

  // ---------------------------------------------------------------- RFC 1071, section 2

  lemma {:induction false} SumConcat(a: seq<Word>, b: seq<Word>)
    ensures Sum(a + b) == Sum(a) + Sum(b)
  {
    if b == [] {
      assert a + b == a;
    } else {
      assert (a + b)[..|a + b| - 1] == a + b[..|b| - 1];
      SumConcat(a, b[..|b| - 1]);
    }
  }

  lemma SumInsert(a: seq<Word>, w: Word, b: seq<Word>)
    ensures Sum(a + [w] + b) == Sum(a + b) + w as int
  {
    SumConcat(a, [w]);
    SumConcat(a, b);
    SumConcat(a + [w], b);
    assert [w][..0] == [];
  }

  lemma SumUpdate(ws: seq<Word>, k: nat, w: Word)
    requires k < |ws|
    ensures Sum(ws[k := w]) == Sum(ws) - ws[k] as int + w as int
  {
    hide Sum;
    SumInsert(ws[..k], ws[k], ws[k + 1..]);
    SumInsert(ws[..k], w, ws[k + 1..]);
    assert ws == ws[..k] + [ws[k]] + ws[k + 1..];
    assert ws[k := w] == ws[..k] + [w] + ws[k + 1..];
  }

  lemma {:induction false} SumIsZero(ws: seq<Word>)
    ensures Sum(ws) == 0 <==> forall k :: 0 <= k < |ws| ==> ws[k] == 0
  {
    if ws != [] {
      SumIsZero(ws[..|ws| - 1]);
    }
  }

  lemma {:induction false} SumPermutes(a: seq<Word>, b: seq<Word>)
    requires multiset(a) == multiset(b)
    ensures Sum(a) == Sum(b)
  {
    if a == [] {
      assert |multiset(b)| == 0;
    } else {
      var j := LastIsIn(a, b);
      SumPermutes(a[..|a| - 1], b[..j] + b[j + 1..]);
      SumWithout(b, j);
    }
  }

  lemma LastIsIn(a: seq<Word>, b: seq<Word>) returns (j: nat)
    requires a != [] && multiset(a) == multiset(b)
    ensures j < |b| && b[j] == a[|a| - 1] && multiset(a[..|a| - 1]) == multiset(b[..j] + b[j + 1..])
  {
    var n := |a| - 1;
    assert a[n] in multiset(b);
    j :| 0 <= j < |b| && b[j] == a[n];
    OneLess(a, n);
    OneLess(b, j);
    assert a[..n] + a[n + 1..] == a[..n];
  }

  lemma OneLess(ws: seq<Word>, j: nat)
    requires j < |ws|
    ensures multiset(ws[..j] + ws[j + 1..]) == multiset(ws) - multiset{ws[j]}
  {
    assert ws == ws[..j] + [ws[j]] + ws[j + 1..];
  }

  lemma SumWithout(ws: seq<Word>, j: nat)
    requires j < |ws|
    ensures Sum(ws) == Sum(ws[..j] + ws[j + 1..]) + ws[j] as int
  {
    hide Sum;
    SumInsert(ws[..j], ws[j], ws[j + 1..]);
    assert ws == ws[..j] + [ws[j]] + ws[j + 1..];
  }

  /** The order of the 16-bit words does not matter. */
  lemma WordOrderIrrelevant(a: seq<Byte>, b: seq<Byte>)
    requires multiset(Words(a)) == multiset(Words(b))
    ensures Rfc1071(a) == Rfc1071(b) && ChecksumOf(a) == ChecksumOf(b)
  {
    SumPermutes(Words(a), Words(b));
    OnesSumIsResidue(Words(a));
    OnesSumIsResidue(Words(b));
  }

  function SwapWord(w: Word): Word {
    0x100 * (w % 0x100) + w / 0x100
  }

  /** `data` with the two bytes of every word exchanged. */
  function SwapBytes(data: seq<Byte>): (r: seq<Byte>)
    requires |data| % 2 == 0
    ensures |r| == |data|
  {
    seq(|data|, i requires 0 <= i < |data| => if i % 2 == 0 then data[i + 1] else data[i - 1])
  }

  /** A byte swap multiplies a word by 256 modulo 0xFFFF; `high` adds up the multiples. */
  lemma {:induction false} SwappedSum(ws: seq<Word>, sw: seq<Word>) returns (high: nat)
    requires |sw| == |ws| && forall k :: 0 <= k < |ws| ==> sw[k] == SwapWord(ws[k])
    ensures 0x100 * Sum(ws) == Sum(sw) + 0xFFFF * high
    ensures Sum(sw) == 0 ==> Sum(ws) == 0
  {
    if ws == [] {
      high := 0;
    } else {
      high := SwappedSum(ws[..|ws| - 1], sw[..|ws| - 1]);
      high := high + ws[|ws| - 1] as int / 0x100;
    }
  }

  /** The accumulators of two word lists of which one is the other byte-swapped: each lost a
      number of carries, and the residues are byte-swapped exactly when these numbers agree. */
  lemma SwappedAccumulators(n: nat, m: nat, high: nat)
    requires 0x100 * n == m + 0xFFFF * high
    ensures Residue(m % WRAP) == SwapWord(Residue(n % WRAP))
      <==> (0x100 * (n / WRAP) - m / WRAP) % 0xFFFF == 0 && (n % WRAP == 0 <==> m % WRAP == 0)
  {
    var a, b := n % WRAP, m % WRAP;
    var lost := 0x100 * (n / WRAP) - m / WRAP;
    assert 0x100 * a - b == 0xFFFF * (high - 0x10001 * lost) - lost;
    SwapIsZero(Residue(a));
    if a > 0 && b > 0 { SwappedResidues(a, b, lost, high - 0x10001 * lost); }
  }

  lemma SwapIsZero(w: Word)
    ensures SwapWord(w) == 0 <==> w == 0
  {
  }

  lemma SwappedResidues(a: nat, b: nat, lost: int, t: int)
    requires a > 0 && b > 0 && 0x100 * a - b == 0xFFFF * t - lost
    ensures Residue(b) == SwapWord(Residue(a)) <==> lost % 0xFFFF == 0
  {
    var r, u := Residue(a), (a - 1) / 0xFFFF;
    var x := 0x100 * u + r as int / 0x100 - t;
    SwapIsZero(r);
    assert b - SwapWord(r) as int == 0xFFFF * x + lost by { SwapByMultiple(a, b, r, u, t, lost); }
    Multiples(x, lost);
    SameResidue(b, SwapWord(r));
    assert Residue(SwapWord(r)) == SwapWord(r);
  }

  lemma SwapByMultiple(a: nat, b: nat, r: Word, u: nat, t: int, lost: int)
    requires a == r as int + 0xFFFF * u && 0x100 * a - b == 0xFFFF * t - lost
    ensures b - SwapWord(r) as int == 0xFFFF * (0x100 * u + r as int / 0x100 - t) + lost
  {
    var hi, lo := r as int / 0x100, r as int % 0x100;
    assert r as int == 0x100 * hi + lo && SwapWord(r) as int == 0x100 * lo + hi;
  }

  lemma Multiples(x: int, y: int)
    ensures (0xFFFF * x + y) % 0xFFFF == y % 0xFFFF
  {
  }

  lemma SwappedOnesSum(ws: seq<Word>, sw: seq<Word>)
    requires |sw| == |ws| && forall k :: 0 <= k < |ws| ==> sw[k] == SwapWord(ws[k])
    ensures OnesSum(sw) == SwapWord(OnesSum(ws))
  {
    var high := SwappedSum(ws, sw);
    OnesSumIsResidue(ws);
    OnesSumIsResidue(sw);
    if Sum(sw) > 0 && Sum(ws) > 0 { SwappedResidues(Sum(ws), Sum(sw), 0, high); }
  }

  lemma SwapComplement(w: Word)
    ensures SwapWord(0xFFFF - w as int) == 0xFFFF - SwapWord(w) as int
  {
  }

  lemma WordsOfSwap(data: seq<Byte>)
    requires |data| % 2 == 0
    ensures forall k :: 0 <= k < |Words(data)| ==> Words(SwapBytes(data))[k] == SwapWord(Words(data)[k])
  {
    forall k | 0 <= k < |Words(data)| ensures Words(SwapBytes(data))[k] == SwapWord(Words(data)[k]) {
      SwappedWord(data, k);
    }
  }

  lemma SwappedWord(data: seq<Byte>, k: nat)
    requires |data| % 2 == 0 && 2 * k < |data|
    ensures WordAt(SwapBytes(data), k) == SwapWord(WordAt(data, k))
  {
    assert SwapBytes(data)[2 * k] == data[2 * k + 1] && SwapBytes(data)[2 * k + 1] == data[2 * k];
    SwappedPair(data[2 * k], data[2 * k + 1]);
  }

  lemma SwappedPair(hi: Byte, lo: Byte)
    ensures SwapWord(0x100 * (hi as int) + lo as int) as int == 0x100 * (lo as int) + hi as int
  {
  }

  /** The checksum of byte-swapped data is the byte-swapped checksum exactly when the carries
      the two accumulators lost correspond, and either none or both are left at zero. */
  lemma ByteOrderIndependentExactly(data: seq<Byte>)
    requires |data| % 2 == 0
    ensures ChecksumOf(SwapBytes(data)) == SwapWord(ChecksumOf(data))
      <==> var s, s' := Sum(Words(data)), Sum(Words(SwapBytes(data)));
        (0x100 * (s / WRAP) - s' / WRAP) % 0xFFFF == 0 && (s % WRAP == 0 <==> s' % WRAP == 0)
  {
    WordsOfSwap(data);
    var high := SwappedSum(Words(data), Words(SwapBytes(data)));
    SwappedAccumulators(Sum(Words(data)), Sum(Words(SwapBytes(data))), high);
    SwapComplement(Residue(Sum(Words(data)) % WRAP));
  }

  /** The RFC's always is, and so is the code's up to the bound. */
  lemma ByteOrderIndependent(data: seq<Byte>)
    requires |data| % 2 == 0
    ensures Rfc1071(SwapBytes(data)) == SwapWord(Rfc1071(data))
    ensures |data| <= 131074 ==> ChecksumOf(SwapBytes(data)) == SwapWord(ChecksumOf(data))
  {
    var ws, sw := Words(data), Words(SwapBytes(data));
    WordsOfSwap(data);
    SwappedOnesSum(ws, sw);
    SwapComplement(OnesSum(ws));
    hide *;
    if |data| <= 131074 {
      RefinesRfc1071(data);
      RefinesRfc1071(SwapBytes(data));
    }
  }

  /** Just above it, it is not. */
  lemma ByteOrderMatters()
    ensures var data: seq<Byte> := seq(131076, _ => 0xFF);
      ChecksumOf(SwapBytes(data)) != SwapWord(ChecksumOf(data))
  {
    var data: seq<Byte> := seq(131076, _ => 0xFF);
    assert SwapBytes(data) == data;
    BoundIsTight();
  }

  lemma WordsOfChange(a: seq<Byte>, b: seq<Byte>, k: nat)
    requires |a| == |b| && 2 * k < |a|
    requires forall j :: 0 <= j < |Words(a)| && j != k ==> Words(a)[j] == Words(b)[j]
    ensures Words(b) == Words(a)[k := WordAt(b, k)]
  {
  }

  /** The sums of both, from that of the other words. */
  lemma WordSums(a: seq<Byte>, b: seq<Byte>, k: nat)
    requires |a| == |b| && 2 * k < |a| && Words(b) == Words(a)[k := WordAt(b, k)]
    ensures var rest := Sum(Words(a)[k := 0]);
      Sum(Words(a)) == rest + WordAt(a, k) as int && Sum(Words(b)) == rest + WordAt(b, k) as int
  {
    var ws := Words(a);
    assert ws[k] == WordAt(a, k);
    SumUpdate(ws, k, WordAt(b, k));
    SumUpdate(ws, k, 0);
  }

  lemma CodeNotices(a: seq<Byte>, b: seq<Byte>, k: nat)
    requires |a| == |b| && 2 * k < |a| && Words(b) == Words(a)[k := WordAt(b, k)]
    ensures var v, w, others := WordAt(a, k), WordAt(b, k), Sum(Words(a)[k := 0]) % WRAP;
      ChecksumOf(a) == ChecksumOf(b) <==> v == w || ({v, w} == {0, 0xFFFF} && 0 < others < WRAP - 0xFFFF)
  {
    WordSums(a, b, k);
    AccumulatorCollision(Sum(Words(a)[k := 0]), WordAt(a, k), WordAt(b, k));
    hide Sum, Words, WordAt, Residue;
  }

  lemma RfcNotices(a: seq<Byte>, b: seq<Byte>, k: nat)
    requires |a| == |b| && 2 * k < |a| && Words(b) == Words(a)[k := WordAt(b, k)]
    ensures Words(a)[k] == WordAt(a, k)
    ensures var v, w := WordAt(a, k), WordAt(b, k);
      Rfc1071(a) == Rfc1071(b) <==> v == w || ({v, w} == {0, 0xFFFF} && SomeOtherWord(Words(a), k))
  {
    assert Words(a)[k] == WordAt(a, k);
    WordUpdate(Words(a), k, WordAt(b, k));
    hide OnesSum, Words, WordAt, SomeOtherWord;
  }

  /** Which changes of a single word go unnoticed: none, except between 0x0000 and 0xFFFF, and
      then exactly when the sum of the other words leaves an accumulator that is not zero and
      does not wrap. By the RFC, and up to the bound in the code too, that is when the other
      words are not all zero. */
  lemma WordChangeUndetectedExactly(a: seq<Byte>, b: seq<Byte>, k: nat)
    requires |a| == |b| && 2 * k < |a|
    requires forall j :: 0 <= j < |Words(a)| && j != k ==> Words(a)[j] == Words(b)[j]
    ensures var v, w, others := WordAt(a, k), WordAt(b, k), Sum(Words(a)[k := 0]) % WRAP;
      ChecksumOf(a) == ChecksumOf(b) <==> v == w || ({v, w} == {0, 0xFFFF} && 0 < others < WRAP - 0xFFFF)
    ensures var v, w := WordAt(a, k), WordAt(b, k);
      Rfc1071(a) == Rfc1071(b) <==> v == w || ({v, w} == {0, 0xFFFF} && SomeOtherWord(Words(a), k))
    ensures |a| <= 131074 ==> (ChecksumOf(a) == ChecksumOf(b) <==> Rfc1071(a) == Rfc1071(b))
  {
    WordsOfChange(a, b, k);
    hide *;
    CodeNotices(a, b, k);
    RfcNotices(a, b, k);
    if |a| <= 131074 {
      RefinesRfc1071(a);
      RefinesRfc1071(b);
    }
  }

  /** 131076 bytes of 0xFF, but for the first word. */
  function AllOnesAfter(first: Byte): (data: seq<Byte>)
    ensures |data| == 131076
  {
    seq(131076, i => if i < 2 then first else 0xFF)
  }

  lemma WordsOfAllOnes(first: Byte)
    ensures WordAt(AllOnesAfter(first), 0) == Words(AllOnesAfter(first))[0] == 0x101 * (first as int)
    ensures forall j :: 1 <= j < 65538 ==> Words(AllOnesAfter(first))[j] == 0xFFFF
  {
  }

  lemma SumWithoutFirst(ws: seq<Word>, w: Word)
    requires |ws| > 0 && forall j :: 1 <= j < |ws| ==> ws[j] == w
    ensures Sum(ws[0 := 0]) == (|ws| - 1) * w
  {
    assert ws[0 := 0] == [0] + ws[1..];
    SumConcat([0], ws[1..]);
    SumOfEqualWords([0], 0);
    SumOfEqualWords(ws[1..], w);
  }

  /** Just above the bound, the code and the RFC disagree about such a change. */
  lemma LongChangeNoticed()
    ensures ChecksumOf(AllOnesAfter(0)) != ChecksumOf(AllOnesAfter(0xFF))
    ensures Rfc1071(AllOnesAfter(0)) == Rfc1071(AllOnesAfter(0xFF))
  {
    var a, b := AllOnesAfter(0), AllOnesAfter(0xFF);
    var ws := Words(a);
    WordsOfAllOnes(0);
    WordsOfAllOnes(0xFF);
    hide AllOnesAfter, Sum, Words, WordAt, ChecksumOf, Rfc1071;
    SumWithoutFirst(ws, 0xFFFF);
    assert Sum(ws[0 := 0]) % WRAP == WRAP - 1;
    PairIsExtremes(0, 0xFFFF);
    assert SomeOtherWord(ws, 0) by { assert ws[1] != 0; }
    hide SomeOtherWord;
    WordChangeUndetectedExactly(a, b, 0);
  }

  /** Two words added to an accumulator that may wrap. */
  lemma AccumulatorCollision(rest: nat, v: Word, w: Word)
    ensures Residue((rest + v as int) % WRAP) == Residue((rest + w as int) % WRAP)
      <==> v == w || ({v, w} == {0, 0xFFFF} && 0 < rest % WRAP < WRAP - 0xFFFF)
  {
    var r := rest % WRAP;
    Wrapped(rest, v);
    Wrapped(rest, w);
    PairIsExtremes(v, w);
    var a, b := (rest + v as int) % WRAP, (rest + w as int) % WRAP;
    if r + v as int < WRAP && r + w as int < WRAP {
      ResidueCollision(r, v, w);
    } else if a > 0 && b > 0 {
      SameResidue(a, b);
    }
  }

  lemma Wrapped(rest: nat, v: Word)
    ensures (rest + v as int) % WRAP
         == if rest % WRAP + v as int < WRAP then rest % WRAP + v as int else rest % WRAP + v as int - WRAP
  {
  }

  predicate SomeOtherWord(ws: seq<Word>, k: nat) {
    exists j :: 0 <= j < |ws| && j != k && ws[j] != 0
  }

  lemma WordUpdate(ws: seq<Word>, k: nat, w: Word)
    requires k < |ws|
    ensures var v := ws[k];
      OnesSum(ws) == OnesSum(ws[k := w]) <==> v == w || ({v, w} == {0, 0xFFFF} && SomeOtherWord(ws, k))
  {
    SumUpdate(ws, k, w);
    SumUpdate(ws, k, 0);
    SumIsZero(ws[k := 0]);
    var rest := Sum(ws[k := 0]);
    if rest > 0 {
      var j :| 0 <= j < |ws| && ws[k := 0][j] != 0;
      assert j != k && ws[j] != 0;
    }
    assert rest == 0 ==> forall j :: 0 <= j < |ws| && j != k ==> ws[j] == ws[k := 0][j];
    OnesSumIsResidue(ws);
    OnesSumIsResidue(ws[k := w]);
    ResidueCollision(rest, ws[k], w);
  }

  lemma ResidueCollision(rest: nat, v: Word, w: Word)
    ensures Residue(rest + v as int) == Residue(rest + w as int)
      <==> v == w || ({v, w} == {0, 0xFFFF} && rest > 0)
  {
    PairIsExtremes(v, w);
    if rest + v as int > 0 && rest + w as int > 0 {
      SameResidue(rest + v as int, rest + w as int);
    }
  }

  lemma PairIsExtremes(v: Word, w: Word)
    ensures {v, w} == {0, 0xFFFF} <==> (v == 0 && w == 0xFFFF) || (v == 0xFFFF && w == 0)
  {
    if {v, w} == {0, 0xFFFF} {
      assert 0 in {v, w} && 0xFFFF in {v, w};
    }
  }

  /** A change of any single byte is always noticed, in data of any length. */
  lemma ByteChangeDetected(data: seq<Byte>, i: nat, b: Byte)
    requires i < |data| && data[i] != b
    ensures ChecksumOf(data) != ChecksumOf(data[i := b])
    ensures Rfc1071(data) != Rfc1071(data[i := b])
  {
    var k := i / 2;
    var v, w := WordAt(data, k), WordAt(data[i := b], k);
    PairIsExtremes(v, w);
    WordChangeUndetectedExactly(data, data[i := b], k);
  }

  // ---------------------------------------------------------------- checksum fields

  /** Given the sum `rest` of all the other words, only the complement of its residue makes
      the whole sum all ones, with 0xFFFF standing in for 0 when that complement is 0. */
  lemma FieldVerifies(rest: nat, v: Word)
    ensures var c: Word := 0xFFFF - Residue(rest) as int;
      Residue(rest + v as int) == 0xFFFF <==> v == c || (c == 0 && v == 0xFFFF)
  {
  }

  lemma WordsOfPut(data: seq<Byte>, k: nat, w: Word)
    requires 2 * k + 2 <= |data|
    ensures Words(PutWord(data, 2 * k, w)) == Words(data)[k := w]
  {
  }

  lemma FieldWord(ws: seq<Word>, k: nat, v: Word)
    requires k < |ws|
    ensures var c: Word := 0xFFFF - OnesSum(ws[k := 0]) as int;
      OnesSum(ws[k := v]) == 0xFFFF <==> v == c || (c == 0 && v == 0xFFFF)
  {
    SumUpdate(ws, k, 0);
    SumUpdate(ws, k, v);
    OnesSumIsResidue(ws[k := 0]);
    OnesSumIsResidue(ws[k := v]);
    FieldVerifies(Sum(ws[k := 0]), v);
  }

  /** A receiver accepts a checksum field at word `k` (sum over everything, field included,
      complements to zero) exactly when it holds the value computed with the field zeroed. */
  lemma FieldAcceptedExactly(data: seq<Byte>, k: nat, v: Word)
    requires 2 * k + 2 <= |data| <= 131074
    ensures var c := ChecksumOf(PutWord(data, 2 * k, 0));
      ChecksumOf(PutWord(data, 2 * k, v)) == 0 <==> v == c || (c == 0 && v == 0xFFFF)
  {
    RefinesRfc1071(PutWord(data, 2 * k, 0));
    RefinesRfc1071(PutWord(data, 2 * k, v));
    WordsOfPut(data, k, 0);
    WordsOfPut(data, k, v);
    FieldWord(Words(data), k, v);
  }

  // ---------------------------------------------------------------- IPv4, TCP and UDP

  function IPChecksumOf(header: seq<Byte>): Word
    requires 12 <= |header|
  {
    ChecksumOf(PutWord(header, 10, 0))
  }

  method CalculateIPChecksum(ipHeader: seq<Byte>) returns (checksum: Word)
    requires 12 <= |ipHeader|
    ensures checksum == IPChecksumOf(ipHeader)
    ensures |ipHeader| <= 131074 ==> ChecksumOf(PutWord(ipHeader, 10, checksum)) == 0
  {
    var header := new Byte[|ipHeader|](i requires 0 <= i < |ipHeader| => ipHeader[i]);
    assert header[..] == ipHeader;
    header[10] := 0;
    header[11] := 0;
    assert header[..] == PutWord(ipHeader, 10, 0);
    checksum := CalculateChecksum(header[..]);
    if |ipHeader| <= 131074 { FieldAcceptedExactly(ipHeader, 5, checksum); }
  }

  /** The pseudo header of RFC 9293, section 3.1, and RFC 768: the fields in wire order. An
      address that is not IPv4 leaves its four bytes zero. */
  function PseudoHeader(srcIP: seq<Byte>, dstIP: seq<Byte>, protocol: Byte, length: Word): (r: seq<Byte>)
    ensures |r| == 12
  {
    Fit(To4(srcIP), 4) + Fit(To4(dstIP), 4) + [0, protocol] + Put16(length)
  }

  /** An IPv4 address stands there in four bytes, whichever form it comes in. */
  lemma EitherFormInPseudoHeader(
      a: seq<Byte>, b: seq<Byte>, src: seq<Byte>, dst: seq<Byte>, protocol: Byte, length: Word)
    requires |a| == 4 && |b| == 4 && src in {a, Mapped(a)} && dst in {b, Mapped(b)}
    ensures PseudoHeader(src, dst, protocol, length) == a + b + [0, protocol] + Put16(length)
  {
    MappedIsIPv4(a);
    MappedIsIPv4(b);
  }

  lemma PseudoHeaderLayout(src: seq<Byte>, dst: seq<Byte>, protocol: Byte, length: Word)
    requires (|src| == 4 || src == []) && (|dst| == 4 || dst == [])
    ensures Blit(Blit(Zeros(12), 0, src), 4, dst)[8 := 0][9 := protocol][10 := length / 0x100][11 := length % 0x100]
         == Fit(src, 4) + Fit(dst, 4) + [0, protocol] + Put16(length)
  {
    assert Blit(Zeros(12), 0, src) == Fit(src, 4) + Zeros(8);
    assert Blit(Fit(src, 4) + Zeros(8), 4, dst) == Fit(src, 4) + Fit(dst, 4) + Zeros(4);
  }

  method SerializePseudoHeader(srcIP: seq<Byte>, dstIP: seq<Byte>, protocol: Byte, length: Word)
    returns (buf: array<Byte>)
    ensures fresh(buf) && buf[..] == PseudoHeader(srcIP, dstIP, protocol, length)
  {
    buf := new Byte[12](_ => 0);
    assert buf[..] == Zeros(12);
    CopyInto(buf, 0, To4(srcIP));
    CopyInto(buf, 4, To4(dstIP));
    ghost var addressed: seq<Byte> := buf[..];
    buf[8] := 0;
    buf[9] := protocol;
    buf[10], buf[11] := length / 0x100, length % 0x100;
    assert buf[..] == addressed[8 := 0][9 := protocol][10 := length / 0x100][11 := length % 0x100];
    PseudoHeaderLayout(To4(srcIP), To4(dstIP), protocol, length);
  }

  /** The checksum of a segment whose checksum field, at `at`, is taken as zero. The length in
      the pseudo header is the segment's length truncated to 16 bits. */
  function SegmentChecksum(srcIP: seq<Byte>, dstIP: seq<Byte>, protocol: Byte, segment: seq<Byte>, at: nat): Word
    requires at + 2 <= |segment|
  {
    ChecksumOf(PseudoHeader(srcIP, dstIP, protocol, |segment| % 0x1_0000) + PutWord(segment, at, 0))
  }

  /** What a receiver computes over the pseudo header and the segment as it arrived. */
  function ReceiverSum(srcIP: seq<Byte>, dstIP: seq<Byte>, protocol: Byte, segment: seq<Byte>): Word {
    ChecksumOf(PseudoHeader(srcIP, dstIP, protocol, |segment| % 0x1_0000) + segment)
  }

  lemma PrefixedFieldAcceptedExactly(prefix: seq<Byte>, segment: seq<Byte>, k: nat, v: Word)
    requires |prefix| == 12 && 2 * k + 2 <= |segment| <= 131062
    ensures var c := ChecksumOf(prefix + PutWord(segment, 2 * k, 0));
      ChecksumOf(prefix + PutWord(segment, 2 * k, v)) == 0 <==> v == c || (c == 0 && v == 0xFFFF)
  {
    assert prefix + PutWord(segment, 2 * k, 0) == PutWord(prefix + segment, 2 * (k + 6), 0);
    assert prefix + PutWord(segment, 2 * k, v) == PutWord(prefix + segment, 2 * (k + 6), v);
    FieldAcceptedExactly(prefix + segment, k + 6, v);
  }

  lemma SegmentAcceptedExactly(srcIP: seq<Byte>, dstIP: seq<Byte>, protocol: Byte, segment: seq<Byte>, k: nat, v: Word)
    requires 2 * k + 2 <= |segment| <= 131062
    ensures var c := SegmentChecksum(srcIP, dstIP, protocol, segment, 2 * k);
      ReceiverSum(srcIP, dstIP, protocol, PutWord(segment, 2 * k, v)) == 0 <==> v == c || (c == 0 && v == 0xFFFF)
  {
    PrefixedFieldAcceptedExactly(PseudoHeader(srcIP, dstIP, protocol, |segment| % 0x1_0000), segment, k, v);
  }

  method CalculateTCPChecksum(srcIP: seq<Byte>, dstIP: seq<Byte>, tcpSegment: seq<Byte>) returns (checksum: Word)
    requires 18 <= |tcpSegment|
    ensures checksum == SegmentChecksum(srcIP, dstIP, TCP, tcpSegment, 16)
    ensures |tcpSegment| <= 131062 ==> ReceiverSum(srcIP, dstIP, TCP, PutWord(tcpSegment, 16, checksum)) == 0
  {
    var ph := SerializePseudoHeader(srcIP, dstIP, TCP, |tcpSegment| % 0x1_0000);
    var segment := new Byte[|tcpSegment|](i requires 0 <= i < |tcpSegment| => tcpSegment[i]);
    assert segment[..] == tcpSegment;
    segment[16] := 0;
    segment[17] := 0;
    assert segment[..] == PutWord(tcpSegment, 16, 0);
    checksum := CalculateChecksum(ph[..] + segment[..]);
    if |tcpSegment| <= 131062 { SegmentAcceptedExactly(srcIP, dstIP, TCP, tcpSegment, 8, checksum); }
  }

  method CalculateUDPChecksum(srcIP: seq<Byte>, dstIP: seq<Byte>, udpSegment: seq<Byte>) returns (checksum: Word)
    requires 8 <= |udpSegment|
    ensures var c := SegmentChecksum(srcIP, dstIP, UDP, udpSegment, 6);
      checksum == if c == 0 then 0xFFFF else c
    ensures |udpSegment| <= 131062 ==> ReceiverSum(srcIP, dstIP, UDP, PutWord(udpSegment, 6, checksum)) == 0
  {
    var ph := SerializePseudoHeader(srcIP, dstIP, UDP, |udpSegment| % 0x1_0000);
    var segment := new Byte[|udpSegment|](i requires 0 <= i < |udpSegment| => udpSegment[i]);
    assert segment[..] == udpSegment;
    segment[6] := 0;
    segment[7] := 0;
    assert segment[..] == PutWord(udpSegment, 6, 0);
    checksum := CalculateChecksum(ph[..] + segment[..]);
    if checksum == 0 { checksum := 0xFFFF; }
    if |udpSegment| <= 131062 { SegmentAcceptedExactly(srcIP, dstIP, UDP, udpSegment, 3, checksum); }
  }
}
