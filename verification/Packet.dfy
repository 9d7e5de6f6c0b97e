/** IPv4 (RFC 791, section 3.1) and TCP (RFC 9293, section 3.1) headers: parsing, printing and
    checksum recalculation, from `pkg/network/packet.go` and `pkg/network/checksum.go`. */
module Packet {
  import opened Bytes
  import opened Checksum

  /** A parser's three ways to end: the Go slice expressions can also be out of range. */
  datatype Outcome<+T> = Parsed(value: T) | Rejected | Panics

  // ---------------------------------------------------------------- IPv4 as a value

  datatype IPv4 = IPv4(
    version: Byte, headerLen: Byte, tos: Byte, totalLen: Word, id: Word, flags: Byte, fragOffset: Word,
    ttl: Byte, protocol: Byte, checksum: Word, srcIP: seq<Byte>, dstIP: seq<Byte>,
    options: seq<Byte>, payload: seq<Byte>)
  {
    function PrintedLen(): nat {
      headerLen as int + |payload|
    }

    /** The values a parser can return for a packet that was printed whole. */
    predicate WellFormed() {
      && version == 4 && 20 <= headerLen <= 60 && headerLen % 4 == 0
      && flags < 8 && fragOffset < 0x2000
      && |srcIP| == 4 && |dstIP| == 4
      && |options| == headerLen as int - 20
      && totalLen as int == PrintedLen()
    }
  }

  function ParseIP(data: seq<Byte>): (r: Outcome<IPv4>)
    ensures r.Parsed? ==> 20 <= |data| && r.value.headerLen as int <= |data|
  {
    if |data| < 20 || data[0] / 0x10 != 4 then Rejected
    else
      var headerLen: Byte := data[0] % 0x10 * 4;
      var totalLen := Word16(data, 2);
      if |data| < headerLen as int then Rejected
      else if totalLen < headerLen as int then Panics
      else Parsed(IPv4(
        4, headerLen, data[1], totalLen, Word16(data, 4), Word16(data, 6) / 0x2000, Word16(data, 6) % 0x2000,
        data[8], data[9], Word16(data, 10), data[12..16], data[16..20],
        if headerLen > 20 then data[20..headerLen] else [],
        data[headerLen..Min(totalLen, |data|)]))
  }

  /** Header bytes 0 to 11, with the given length and checksum fields. */
  function HeaderNumbers(p: IPv4, length: Word, checksum: Word): (r: seq<Byte>)
    ensures |r| == 12
  {
    [OrByte(0x10 * (p.version % 0x10), p.headerLen / 4), p.tos] + Put16(length) + Put16(p.id)
    + Put16(OrFlags(p.flags, p.fragOffset)) + [p.ttl, p.protocol] + Put16(checksum)
  }

  /** The 20 fixed header bytes. */
  function FixedHeader(p: IPv4, length: Word, checksum: Word): (r: seq<Byte>)
    ensures |r| == 20
  {
    HeaderNumbers(p, length, checksum) + (Fit(To4(p.srcIP), 4) + Fit(To4(p.dstIP), 4))
  }

  /** The wire image: `headerLen` bytes of header, whatever the field says, then the payload. */
  function PrintIP(p: IPv4): (r: seq<Byte>)
    requires 20 <= p.PrintedLen()
    ensures |r| == p.PrintedLen()
  {
    var n := p.PrintedLen();
    (FixedHeader(p, n % 0x1_0000, p.checksum) + Fit(p.options, n - 20))[..p.headerLen] + p.payload
  }

  /** The header `RecalculateIPChecksum` sums: the length field as stored, the checksum zero. */
  function HeaderImage(p: IPv4): (r: seq<Byte>)
    requires 20 <= p.headerLen
    ensures |r| == p.headerLen as int
  {
    FixedHeader(p, p.totalLen, 0) + Fit(p.options, p.headerLen as int - 20)
  }

  function HeaderChecksum(p: IPv4): Word
    requires 20 <= p.headerLen
  {
    IPChecksumOf(HeaderImage(p))
  }

  // ---------------------------------------------------------------- IPv4 as an object

  lemma AddressesLayout(numbers: seq<Byte>, src: seq<Byte>, dst: seq<Byte>, n: nat)
    requires |numbers| == 12 && 8 <= n
    requires (|src| == 4 || src == []) && (|dst| == 4 || dst == [])
    ensures Blit(Blit(numbers + Zeros(n), 12, src), 16, dst)
         == numbers + (Fit(src, 4) + Fit(dst, 4)) + Zeros(n - 8)
  {
    assert Blit(numbers + Zeros(n), 12, src) == numbers + Fit(src, 4) + Zeros(n - 4);
  }

  lemma PayloadLayout(header: seq<Byte>, at: nat, payload: seq<Byte>)
    requires |header| == at + |payload|
    ensures Blit(header, at, payload) == header[..at] + payload
  {
  }

  lemma OptionsLayout(fixed: seq<Byte>, options: seq<Byte>, n: nat)
    requires |fixed| == 20
    ensures Blit(fixed + Zeros(n), 20, options) == fixed + Fit(options, n)
    ensures options == [] ==> Fit(options, n) == Zeros(n)
  {
  }

  class IPPacket {
    var version: Byte
    var headerLen: Byte
    var tos: Byte
    var totalLen: Word
    var id: Word
    var flags: Byte
    var fragOffset: Word
    var ttl: Byte
    var protocol: Byte
    var checksum: Word
    var srcIP: seq<Byte>
    var dstIP: seq<Byte>
    var options: seq<Byte>
    var payload: seq<Byte>

    function Fields(): IPv4
      reads this
    {
      IPv4(version, headerLen, tos, totalLen, id, flags, fragOffset, ttl, protocol, checksum,
           srcIP, dstIP, options, payload)
    }

    constructor ()
      ensures Fields() == IPv4(0, 0, 0, 0, 0, 0, 0, 0, 0, 0, [], [], [], [])
    {
      version, headerLen, tos, totalLen, id, flags, fragOffset := 0, 0, 0, 0, 0, 0, 0;
      ttl, protocol, checksum, srcIP, dstIP, options, payload := 0, 0, 0, [], [], [], [];
    }

    static method Parse(data: seq<Byte>) returns (r: Outcome<IPPacket>)
      ensures r.Rejected? <==> ParseIP(data).Rejected?
      ensures r.Panics? <==> ParseIP(data).Panics?
      ensures r.Parsed? ==> fresh(r.value) && ParseIP(data) == Parsed(r.value.Fields())
    {
      if |data| < 20 { return Rejected; }
      var pkt := new IPPacket();
      pkt.version := data[0] / 0x10;
      if pkt.version != 4 { return Rejected; }
      var headerLen: Byte := data[0] % 0x10 * 4;
      pkt.headerLen := headerLen;
      if |data| < headerLen as int { return Rejected; }
      pkt.ReadFixedHeader(data);
      if headerLen > 20 {
        pkt.options := data[20..headerLen];
      }
      if pkt.totalLen as int <= |data| {
        if pkt.totalLen < headerLen as int { return Panics; }
        pkt.payload := data[headerLen..pkt.totalLen];
      } else {
        pkt.payload := data[headerLen..];
        assert data[headerLen..] == data[headerLen..|data|];
      }
      return Parsed(pkt);
    }

    /** The field-by-field reads of bytes 1 to 19. */
    method ReadFixedHeader(data: seq<Byte>)
      requires 20 <= |data|
      modifies `tos, `totalLen, `id, `flags, `fragOffset, `ttl, `protocol, `checksum, `srcIP, `dstIP
      ensures tos == data[1] && totalLen == Word16(data, 2) && id == Word16(data, 4)
      ensures flags == Word16(data, 6) / 0x2000 && fragOffset == Word16(data, 6) % 0x2000
      ensures ttl == data[8] && protocol == data[9] && checksum == Word16(data, 10)
      ensures srcIP == data[12..16] && dstIP == data[16..20]
    {
      tos := data[1];
      totalLen := Word16(data, 2);
      id := Word16(data, 4);
      var flagsAndOffset := Word16(data, 6);
      flags := flagsAndOffset / 0x2000;
      fragOffset := flagsAndOffset % 0x2000;
      ttl := data[8];
      protocol := data[9];
      checksum := Word16(data, 10);
      srcIP := data[12..16];
      dstIP := data[16..20];
    }

    method Serialize() returns (data: array<Byte>)
      requires 20 <= Fields().PrintedLen()
      ensures fresh(data) && data[..] == PrintIP(Fields())
    {
      var n := headerLen as int + |payload|;
      data := new Byte[n](_ => 0);
      WriteHeader(data, n % 0x1_0000, checksum);
      ghost var header: seq<Byte> := data[..];
      CopyInto(data, headerLen, payload);
      PayloadLayout(header, headerLen, payload);
    }

    /** The writes that both printers begin with, over a zeroed buffer. */
    method WriteHeader(data: array<Byte>, length: Word, sum: Word)
      requires 20 <= data.Length && data[..] == Zeros(data.Length)
      modifies data
      ensures data[..] == FixedHeader(Fields(), length, sum) + Fit(options, data.Length - 20)
    {
      WriteNumbers(data, length, sum);
      WriteAddresses(data, HeaderNumbers(Fields(), length, sum));
      ghost var fixed := FixedHeader(Fields(), length, sum);
      if |options| > 0 {
        CopyInto(data, 20, options);
      }
      OptionsLayout(fixed, options, data.Length - 20);
    }

    method WriteAddresses(data: array<Byte>, ghost numbers: seq<Byte>)
      requires |numbers| == 12 && 20 <= data.Length && data[..] == numbers + Zeros(data.Length - 12)
      modifies data
      ensures data[..] == numbers + (Fit(To4(srcIP), 4) + Fit(To4(dstIP), 4)) + Zeros(data.Length - 20)
    {
      CopyInto(data, 12, To4(srcIP));
      CopyInto(data, 16, To4(dstIP));
      AddressesLayout(numbers, To4(srcIP), To4(dstIP), data.Length - 12);
    }

    method WriteNumbers(data: array<Byte>, length: Word, sum: Word)
      requires 20 <= data.Length && data[..] == Zeros(data.Length)
      modifies data
      ensures data[..] == HeaderNumbers(Fields(), length, sum) + Zeros(data.Length - 12)
    {
      var first := OrByte(0x10 * (version % 0x10), headerLen / 4);
      var flagsAndOffset := OrFlags(flags, fragOffset);
      assert data[..] == Partly([], data.Length);
      PutBytes(data, 0, first, tos, []);
      ghost var done: seq<Byte> := [first, tos];
      assert [] + done == done;
      PutUint16(data, 2, length, done);
      done := done + Put16(length);
      PutUint16(data, 4, id, done);
      done := done + Put16(id);
      PutUint16(data, 6, flagsAndOffset, done);
      done := done + Put16(flagsAndOffset);
      hide Put16, OrByte, OrFlags;
      PutBytes(data, 8, ttl, protocol, done);
      done := done + [ttl, protocol];
      PutUint16(data, 10, sum, done);
    }

    method RecalculateIPChecksum()
      requires 20 <= headerLen
      modifies `checksum
      ensures Fields() == old(Fields()).(checksum := HeaderChecksum(old(Fields())))
    {
      var header := new Byte[headerLen](_ => 0);
      WriteHeader(header, totalLen, 0);
      checksum := CalculateIPChecksum(header[..]);
    }

    method RecalculateTCPChecksum()
      requires protocol == TCP ==> 18 <= |payload|
      modifies `checksum
      ensures Fields() == old(Fields()).(checksum :=
        if protocol == TCP then SegmentChecksum(srcIP, dstIP, TCP, payload, 16) else old(checksum))
    {
      if protocol != TCP { return; }
      checksum := CalculateTCPChecksum(srcIP, dstIP, payload);
    }

    method RecalculateUDPChecksum()
      requires protocol == UDP ==> 8 <= |payload|
      modifies `checksum
      ensures Fields() == old(Fields()).(checksum :=
        if protocol != UDP then old(checksum)
        else if SegmentChecksum(srcIP, dstIP, UDP, payload, 6) == 0 then 0xFFFF
        else SegmentChecksum(srcIP, dstIP, UDP, payload, 6))
    {
      if protocol != UDP { return; }
      checksum := CalculateUDPChecksum(srcIP, dstIP, payload);
    }

    /** The transport checksum goes to the IP checksum field and is overwritten there: the
        outcome is that of `RecalculateIPChecksum` alone, and the payload is untouched. */
    method RecalculateChecksums()
      requires 20 <= headerLen
      requires protocol == TCP ==> 18 <= |payload|
      requires protocol == UDP ==> 8 <= |payload|
      modifies `checksum
      ensures Fields() == old(Fields()).(checksum := HeaderChecksum(old(Fields())))
    {
      if protocol == TCP {
        RecalculateTCPChecksum();
      } else if protocol == UDP {
        RecalculateUDPChecksum();
      }
      RecalculateIPChecksum();
    }
  }

  // ---------------------------------------------------------------- IPv4 theorems

  /** Where the printed fields lie, for a header that holds all its fixed fields. */
  lemma PrintedHeader(p: IPv4)
    requires 20 <= p.headerLen
    ensures PrintIP(p)
         == FixedHeader(p, p.PrintedLen() % 0x1_0000, p.checksum) + Fit(p.options, p.headerLen as int - 20) + p.payload
  {
  }

  lemma PrintedNumbers(p: IPv4, d: seq<Byte>)
    requires 20 <= p.headerLen && d == PrintIP(p)
    ensures d[0] == OrByte(0x10 * (p.version % 0x10), p.headerLen / 4) && d[1] == p.tos
    ensures Word16(d, 2) == p.PrintedLen() % 0x1_0000 && Word16(d, 4) == p.id
    ensures Word16(d, 6) == OrFlags(p.flags, p.fragOffset) && d[8] == p.ttl && d[9] == p.protocol
    ensures Word16(d, 10) == p.checksum
  {
    hide BitOr;
    PrintedHeader(p);
    var numbers := HeaderNumbers(p, p.PrintedLen() % 0x1_0000, p.checksum);
    assert d[..12] == numbers;
    assert forall i :: 0 <= i < 12 ==> d[i] == numbers[i];
  }

  lemma PrintedRest(p: IPv4, d: seq<Byte>)
    requires 20 <= p.headerLen && d == PrintIP(p)
    ensures d[12..16] == Fit(To4(p.srcIP), 4) && d[16..20] == Fit(To4(p.dstIP), 4)
    ensures d[20..p.headerLen] == Fit(p.options, p.headerLen as int - 20)
    ensures d[p.headerLen..] == p.payload
  {
    PrintedHeader(p);
  }

  lemma PackedFirst(p: IPv4)
    requires p.WellFormed()
    ensures var first := OrByte(0x10 * (p.version % 0x10), p.headerLen / 4);
      first / 0x10 == 4 && first % 0x10 * 4 == p.headerLen
  {
    hide BitOr;
    PackedNibbles(4, p.headerLen as int / 4);
  }

  lemma PackedFlags(flags: Byte, fragOffset: Word)
    requires flags < 8 && fragOffset < 0x2000
    ensures OrFlags(flags, fragOffset) / 0x2000 == flags && OrFlags(flags, fragOffset) % 0x2000 == fragOffset
  {
    hide BitOr;
    assert OrFlags(flags, fragOffset) as int == 0x2000 * (flags as int) + fragOffset as int;
    hide OrFlags;
    Unpacked(OrFlags(flags, fragOffset), flags, fragOffset);
  }

  lemma Unpacked(w: Word, hi: nat, lo: nat)
    requires w as int == 0x2000 * hi + lo && lo < 0x2000
    ensures w / 0x2000 == hi && w % 0x2000 == lo
  {
  }

  /** Data with the fields of a well-formed packet in their places parses to that packet. */
  lemma FieldsAreParsed(p: IPv4, d: seq<Byte>)
    requires p.WellFormed() && |d| == p.PrintedLen()
    requires d[0] / 0x10 == 4 && d[0] % 0x10 * 4 == p.headerLen && d[1] == p.tos
    requires Word16(d, 2) == p.totalLen && Word16(d, 4) == p.id
    requires Word16(d, 6) / 0x2000 == p.flags && Word16(d, 6) % 0x2000 == p.fragOffset
    requires d[8] == p.ttl && d[9] == p.protocol && Word16(d, 10) == p.checksum
    requires d[12..16] == p.srcIP && d[16..20] == p.dstIP
    requires d[20..p.headerLen] == p.options && d[p.headerLen..] == p.payload
    ensures ParseIP(d) == Parsed(p)
  {
    assert d[p.headerLen..|d|] == d[p.headerLen..];
  }

  lemma WellFormedIsParsed(p: IPv4, d: seq<Byte>)
    requires p.WellFormed() && d == PrintIP(p)
    ensures ParseIP(d) == Parsed(p)
  {
    hide OrByte, OrFlags, BitOr, ParseIP, PrintIP, FixedHeader, HeaderNumbers;
    PrintedNumbers(p, d);
    PrintedRest(p, d);
    assert Fit(p.options, p.headerLen as int - 20) == p.options;
    assert Fit(p.srcIP, 4) == p.srcIP && Fit(p.dstIP, 4) == p.dstIP;
    PackedFirst(p);
    PackedFlags(p.flags, p.fragOffset);
    FieldsAreParsed(p, d);
  }

  lemma ParsedIsWellFormed(d: seq<Byte>)
    requires ParseIP(d).Parsed?
    ensures var p := ParseIP(d).value;
      && p.version == 4 && p.headerLen <= 60 && p.headerLen % 4 == 0 && p.flags < 8 && p.fragOffset < 0x2000
      && |p.srcIP| == 4 && |p.dstIP| == 4 && p.totalLen == Word16(d, 2)
      && |p.options| == (if p.headerLen > 20 then p.headerLen as int - 20 else 0)
      && p.PrintedLen() == Min(p.totalLen, |d|)
  {
  }

  lemma ParsedBackIsWellFormed(p: IPv4, d: seq<Byte>)
    requires 20 <= p.headerLen && ParseIP(d) == Parsed(p)
    requires |d| == p.PrintedLen() && Word16(d, 2) == p.PrintedLen() % 0x1_0000
    ensures p.WellFormed()
  {
    ParsedIsWellFormed(d);
  }

  /** Parsing a printed packet gives the packet back exactly when it is well formed. */
  lemma IPRoundTripExactly(p: IPv4)
    requires 20 <= p.headerLen
    ensures ParseIP(PrintIP(p)) == Parsed(p) <==> p.WellFormed()
  {
    var d := PrintIP(p);
    if p.WellFormed() {
      WellFormedIsParsed(p, d);
    }
    if ParseIP(d) == Parsed(p) {
      PrintedNumbers(p, d);
      ParsedBackIsWellFormed(p, d);
    }
  }

  /** Printing a parsed packet gives back the bytes the total length covers, or all of them
      with the length field corrected when it claims more than there are. A header length
      below four bytes (accepted, like any below 20) leaves even the length field alone. */
  lemma IPReprint(b: seq<Byte>)
    requires ParseIP(b).Parsed? && 20 <= ParseIP(b).value.PrintedLen()
    ensures var p, n := ParseIP(b).value, Min(Word16(b, 2), |b|);
      PrintIP(p) == if p.headerLen == 0 then b[..n] else PutWord(b[..n], 2, n)
  {
    var p, n := ParseIP(b).value, Min(Word16(b, 2), |b|);
    hide *;
    ParsedParts(b, p, n);
    ReprintedParts(b, n);
    ReprintedBytes(b, n, p.headerLen, p.options, PrintIP(p));
  }

  lemma ParsedParts(b: seq<Byte>, p: IPv4, n: Word)
    requires ParseIP(b) == Parsed(p) && n == Min(Word16(b, 2), |b|)
    ensures p.headerLen % 4 == 0 && p.headerLen as int <= n as int <= |b| && p.PrintedLen() == n as int
    ensures p.options == (if p.headerLen > 20 then b[20..p.headerLen] else []) && p.payload == b[p.headerLen..n]
  {
  }

  lemma PrintedFrom(p: IPv4, fixed: seq<Byte>, n: Word)
    requires 20 <= p.PrintedLen() == n as int && fixed == FixedHeader(p, n, p.checksum)
    ensures PrintIP(p) == (fixed + Fit(p.options, n as int - 20))[..p.headerLen] + p.payload
  {
    hide FixedHeader, HeaderNumbers, Fit, OrByte, OrFlags, To4;
    assert n as int % 0x1_0000 == n as int;
  }

  lemma ReprintedParts(b: seq<Byte>, n: Word)
    requires ParseIP(b).Parsed? && 20 <= ParseIP(b).value.PrintedLen() && n == Min(Word16(b, 2), |b|)
    ensures var p := ParseIP(b).value;
      PrintIP(p) == (PutWord(b[..20], 2, n) + Fit(p.options, n as int - 20))[..p.headerLen] + b[p.headerLen..n]
  {
    ReprintedHeader(b, n);
    PrintedFrom(ParseIP(b).value, PutWord(b[..20], 2, n), n);
  }

  lemma ReprintedHeader(b: seq<Byte>, n: Word)
    requires ParseIP(b).Parsed?
    ensures FixedHeader(ParseIP(b).value, n, ParseIP(b).value.checksum) == PutWord(b[..20], 2, n)
  {
    ReprintedNumbers(b, n);
    ReprintedAddresses(b);
    assert PutWord(b[..20], 2, n) == PutWord(b[..12], 2, n) + b[12..20];
  }

  lemma ReprintedBytes(b: seq<Byte>, n: Word, headerLen: Byte, options: seq<Byte>, printed: seq<Byte>)
    requires headerLen % 4 == 0 && headerLen as int <= n as int <= |b| && 20 <= n
    requires options == if headerLen > 20 then b[20..headerLen] else []
    requires printed == (PutWord(b[..20], 2, n) + Fit(options, n as int - 20))[..headerLen] + b[headerLen..n]
    ensures printed == if headerLen == 0 then b[..n] else PutWord(b[..n], 2, n)
  {
    if headerLen > 20 {
      assert (PutWord(b[..20], 2, n) + Fit(options, n as int - 20))[..headerLen] == PutWord(b[..20], 2, n) + options;
    }
  }

  lemma ReprintedNumbers(b: seq<Byte>, n: Word)
    requires ParseIP(b).Parsed?
    ensures HeaderNumbers(ParseIP(b).value, n, ParseIP(b).value.checksum) == PutWord(b[..12], 2, n)
  {
    hide BitOr;
    var p := ParseIP(b).value;
    ReprintedFirst(b[0]);
    ReprintedFlags(Word16(b, 6));
    ReadThenPut16(b, 4);
    ReadThenPut16(b, 6);
    ReadThenPut16(b, 10);
    assert PutWord(b[..12], 2, n) == [b[0], b[1]] + Put16(n) + b[4..6] + b[6..8] + [b[8], b[9]] + b[10..12];
  }

  lemma ReprintedFirst(first: Byte)
    requires first / 0x10 == 4
    ensures OrByte(0x10 * (4 % 0x10), (first % 0x10 * 4) / 4) == first
  {
    hide BitOr;
    PackedNibbles(4, first as int % 0x10);
  }

  lemma ReprintedFlags(w: Word)
    ensures OrFlags(w / 0x2000, w % 0x2000) == w
  {
    hide BitOr;
    var hi, lo := w as int / 0x2000, w as int % 0x2000;
    assert hi % 8 == hi && lo % 0x2000 == lo;
  }

  lemma ReprintedAddresses(b: seq<Byte>)
    requires ParseIP(b).Parsed?
    ensures Fit(To4(ParseIP(b).value.srcIP), 4) + Fit(To4(ParseIP(b).value.dstIP), 4) == b[12..20]
  {
  }

  /** When the parser's slice is out of range: the length field is shorter than the header. */
  lemma ParseIPPanicsExactly(b: seq<Byte>)
    ensures ParseIP(b).Panics?
      <==> 20 <= |b| && b[0] / 0x10 == 4 && Word16(b, 2) as int < b[0] as int % 0x10 * 4 <= |b|
  {
  }

  /** Twenty bytes whose length field is zero. */
  lemma ZeroLengthPanics()
    ensures ParseIP([0x45] + Zeros(19)).Panics?
  {
    var b: seq<Byte> := [0x45] + Zeros(19);
    assert b[0] == 0x45 && Word16(b, 2) == 0;
  }

  /** A packet whose payload has grown by a byte since its length field was set. */
  const STALE := IPv4(4, 20, 0, 20, 0, 0, 0, 64, TCP, 0, [10, 0, 0, 1], [10, 0, 0, 2], [], [7])

  lemma StaleFields()
    ensures !STALE.WellFormed() && STALE.headerLen == 20 && STALE.totalLen == 20 && STALE.PrintedLen() == 21
  {
  }

  /** It is printed with its true length: it does not parse back, */
  lemma StaleLengthIsNotKept()
    ensures STALE.headerLen == 20 && ParseIP(PrintIP(STALE)) != Parsed(STALE)
  {
    hide *;
    StaleFields();
    IPRoundTripExactly(STALE);
  }

  /** nor does a header checksum recalculated from the old length verify. */
  lemma StaleLengthFailsChecksum()
    ensures STALE.headerLen == 20
    ensures ChecksumOf(PrintIP(STALE.(checksum := HeaderChecksum(STALE)))[..STALE.headerLen]) != 0
  {
    hide *;
    StaleFields();
    RecalculatedHeaderVerifiesExactly(STALE);
    PairIsExtremes(20, 21);
  }

  /** Changing the length field (word 1) of a header that sums to zero. */
  lemma LengthFieldChange(stored: seq<Byte>, length: Word)
    requires 20 <= |stored| <= 255 && stored[0] != 0 && ChecksumOf(stored) == 0
    ensures var old' := Word16(stored, 2);
      ChecksumOf(PutWord(stored, 2, length)) == 0 <==> old' == length || {old', length} == {0, 0xFFFF}
  {
    var printed := PutWord(stored, 2, length);
    RefinesRfc1071(stored);
    RefinesRfc1071(printed);
    WordsOfPut(stored, 1, length);
    assert Words(stored)[0] != 0 && Words(stored)[1] == Word16(stored, 2);
    WordUpdate(Words(stored), 1, length);
  }

  /** After `RecalculateIPChecksum`, the printed header sums to zero exactly when the stored
      total length is the printed one, or the two are 0 and 0xFFFF, which a sum cannot tell
      apart: `Serialize` writes a length of its own. */
  lemma RecalculatedHeaderVerifiesExactly(p: IPv4)
    requires 20 <= p.headerLen
    ensures var length: Word := p.PrintedLen() % 0x1_0000;
      var printed := PrintIP(p.(checksum := HeaderChecksum(p)));
      ChecksumOf(printed[..p.headerLen]) == 0 <==> p.totalLen == length || {p.totalLen, length} == {0, 0xFFFF}
  {
    hide FixedHeader, HeaderNumbers, HeaderImage, PrintIP, Fit, OrByte, OrFlags, To4, ChecksumOf;
    var image, c := HeaderImage(p), HeaderChecksum(p);
    FieldAcceptedExactly(image, 5, c);
    PrintedImage(p, c);
    ImageFields(p);
    LengthFieldChange(PutWord(image, 10, c), p.PrintedLen() % 0x1_0000);
  }

  lemma ImageFields(p: IPv4)
    requires 20 <= p.headerLen
    ensures HeaderImage(p)[0] != 0 && Word16(HeaderImage(p), 2) == p.totalLen
  {
    assert HeaderImage(p)[..12] == HeaderNumbers(p, p.totalLen, 0);
    assert forall i :: 0 <= i < 4 ==> HeaderImage(p)[i] == HeaderNumbers(p, p.totalLen, 0)[i];
  }

  lemma PrintedImage(p: IPv4, c: Word)
    requires 20 <= p.headerLen
    ensures PrintIP(p.(checksum := c))[..p.headerLen]
         == PutWord(PutWord(HeaderImage(p), 10, c), 2, p.PrintedLen() % 0x1_0000)
  {
    hide OrByte, OrFlags, BitOr, To4;
    var q := p.(checksum := c);
    PrintedHeader(q);
    assert HeaderNumbers(q, p.PrintedLen() % 0x1_0000, c)
        == PutWord(PutWord(HeaderNumbers(p, p.totalLen, 0), 10, c), 2, p.PrintedLen() % 0x1_0000);
  }

  // ---------------------------------------------------------------- TCP as a value

  datatype Tcp = Tcp(
    srcPort: Word, dstPort: Word, seqNum: Word32, ackNum: Word32, dataOffset: Byte, flags: Byte,
    window: Word, checksum: Word, urgent: Word, options: seq<Byte>, payload: seq<Byte>)
  {
    predicate WellFormed() {
      20 <= dataOffset <= 60 && dataOffset % 4 == 0 && flags < 0x40 && |options| == dataOffset as int - 20
    }
  }

  function ParseTCP(data: seq<Byte>): (r: Outcome<Tcp>)
    ensures r.Parsed? ==> 20 <= |data| && r.value.dataOffset as int <= |data|
  {
    if |data| < 20 then Rejected
    else
      var dataOffset: Byte := data[12] / 0x10 * 4;
      if dataOffset > 20 && |data| < dataOffset as int then Rejected
      else Parsed(Tcp(
        Word16(data, 0), Word16(data, 2), Long32(data, 4), Long32(data, 8), dataOffset, data[13] % 0x40,
        Word16(data, 14), Word16(data, 16), Word16(data, 18),
        if dataOffset > 20 then data[20..dataOffset] else [],
        data[dataOffset..]))
  }

  /** TCP header bytes 0 to 11. */
  function TcpNumbers(t: Tcp): (r: seq<Byte>)
    ensures |r| == 12
  {
    Put16(t.srcPort) + Put16(t.dstPort) + Put32(t.seqNum) + Put32(t.ackNum)
  }

  /** TCP header bytes 12 to 19. */
  function TcpControl(t: Tcp): (r: seq<Byte>)
    ensures |r| == 8
  {
    [t.dataOffset / 4 % 0x10 * 0x10, t.flags] + Put16(t.window) + Put16(t.checksum) + Put16(t.urgent)
  }

  /** TCP header bytes 0 to 19. */
  function TcpHeader(t: Tcp): (r: seq<Byte>)
    ensures |r| == 20
  {
    TcpNumbers(t) + TcpControl(t)
  }

  function PrintTCP(t: Tcp): (r: seq<Byte>)
    requires 20 <= t.dataOffset as int + |t.payload|
    ensures |r| == t.dataOffset as int + |t.payload|
  {
    (TcpHeader(t) + Fit(t.options, t.dataOffset as int + |t.payload| - 20))[..t.dataOffset] + t.payload
  }

  // ---------------------------------------------------------------- TCP as an object

  class TCPPacket {
    var srcPort: Word
    var dstPort: Word
    var seqNum: Word32
    var ackNum: Word32
    var dataOffset: Byte
    var flags: Byte
    var window: Word
    var checksum: Word
    var urgent: Word
    var options: seq<Byte>
    var payload: seq<Byte>

    function Fields(): Tcp
      reads this
    {
      Tcp(srcPort, dstPort, seqNum, ackNum, dataOffset, flags, window, checksum, urgent, options, payload)
    }

    constructor ()
      ensures Fields() == Tcp(0, 0, 0, 0, 0, 0, 0, 0, 0, [], [])
    {
      srcPort, dstPort, seqNum, ackNum, dataOffset, flags := 0, 0, 0, 0, 0, 0;
      window, checksum, urgent, options, payload := 0, 0, 0, [], [];
    }

    static method Parse(data: seq<Byte>) returns (r: Outcome<TCPPacket>)
      ensures r.Rejected? <==> ParseTCP(data).Rejected?
      ensures !r.Panics?
      ensures r.Parsed? ==> fresh(r.value) && ParseTCP(data) == Parsed(r.value.Fields())
    {
      if |data| < 20 { return Rejected; }
      var tcp := new TCPPacket();
      tcp.ReadHeader(data);
      if tcp.dataOffset > 20 {
        if |data| < tcp.dataOffset as int { return Rejected; }
        tcp.options := data[20..tcp.dataOffset];
      }
      if |data| > tcp.dataOffset as int {
        tcp.payload := data[tcp.dataOffset..];
      }
      return Parsed(tcp);
    }

    /** The field-by-field reads of bytes 0 to 19. */
    method ReadHeader(data: seq<Byte>)
      requires 20 <= |data|
      modifies `srcPort, `dstPort, `seqNum, `ackNum, `dataOffset, `flags, `window, `checksum, `urgent
      ensures srcPort == Word16(data, 0) && dstPort == Word16(data, 2)
      ensures seqNum == Long32(data, 4) && ackNum == Long32(data, 8)
      ensures dataOffset == data[12] / 0x10 * 4 && flags == data[13] % 0x40
      ensures window == Word16(data, 14) && checksum == Word16(data, 16) && urgent == Word16(data, 18)
    {
      srcPort := Word16(data, 0);
      dstPort := Word16(data, 2);
      seqNum := Long32(data, 4);
      ackNum := Long32(data, 8);
      dataOffset := data[12] / 0x10 * 4;
      flags := data[13] % 0x40;
      window := Word16(data, 14);
      checksum := Word16(data, 16);
      urgent := Word16(data, 18);
    }

    method Serialize() returns (data: array<Byte>)
      requires 20 <= dataOffset as int + |payload|
      ensures fresh(data) && data[..] == PrintTCP(Fields())
    {
      var n := dataOffset as int + |payload|;
      data := new Byte[n](_ => 0);
      WriteHeader(data);
      ghost var fixed := TcpHeader(Fields());
      if |options| > 0 {
        CopyInto(data, 20, options);
      }
      OptionsLayout(fixed, options, n - 20);
      ghost var header: seq<Byte> := data[..];
      CopyInto(data, dataOffset, payload);
      PayloadLayout(header, dataOffset, payload);
    }

    method WriteHeader(data: array<Byte>)
      requires 20 <= data.Length && data[..] == Zeros(data.Length)
      modifies data
      ensures data[..] == TcpHeader(Fields()) + Zeros(data.Length - 20)
    {
      WriteNumbers(data);
      WriteControl(data, TcpNumbers(Fields()));
    }

    method WriteNumbers(data: array<Byte>)
      requires 20 <= data.Length && data[..] == Zeros(data.Length)
      modifies data
      ensures data[..] == Partly(TcpNumbers(Fields()), data.Length)
    {
      assert data[..] == Partly([], data.Length);
      PutUint16(data, 0, srcPort, []);
      ghost var done: seq<Byte> := Put16(srcPort);
      assert [] + done == done;
      PutUint16(data, 2, dstPort, done);
      done := done + Put16(dstPort);
      PutUint32(data, 4, seqNum, done);
      done := done + Put32(seqNum);
      PutUint32(data, 8, ackNum, done);
    }

    method WriteControl(data: array<Byte>, ghost done: seq<Byte>)
      requires |done| == 12 && 20 <= data.Length && data[..] == Partly(done, data.Length)
      modifies data
      ensures data[..] == Partly(done + TcpControl(Fields()), data.Length)
    {
      var offset: Byte := dataOffset / 4 % 0x10 * 0x10;
      ghost var control: seq<Byte> := [offset, flags];
      PutBytes(data, 12, offset, flags, done);
      PutUint16(data, 14, window, done + control);
      assert done + control + Put16(window) == done + (control + Put16(window));
      control := control + Put16(window);
      PutUint16(data, 16, checksum, done + control);
      assert done + control + Put16(checksum) == done + (control + Put16(checksum));
      control := control + Put16(checksum);
      PutUint16(data, 18, urgent, done + control);
      assert done + control + Put16(urgent) == done + (control + Put16(urgent));
    }
  }

  // ---------------------------------------------------------------- TCP theorems

  lemma PrintedTcp(t: Tcp, d: seq<Byte>)
    requires 20 <= t.dataOffset && d == PrintTCP(t)
    ensures d[..20] == TcpHeader(t)
    ensures d[20..t.dataOffset] == Fit(t.options, t.dataOffset as int - 20)
    ensures d[t.dataOffset..] == t.payload
  {
  }

  lemma TcpHeaderFields(t: Tcp, h: seq<Byte>)
    requires 20 <= |h| && h[..20] == TcpHeader(t)
    ensures Word16(h, 0) == t.srcPort && Word16(h, 2) == t.dstPort
    ensures Long32(h, 4) == t.seqNum && Long32(h, 8) == t.ackNum
    ensures h[12] == t.dataOffset / 4 % 0x10 * 0x10 && h[13] == t.flags
    ensures Word16(h, 14) == t.window && Word16(h, 16) == t.checksum && Word16(h, 18) == t.urgent
  {
    hide BitOr;
    assert forall i :: 0 <= i < 20 ==> h[i] == TcpHeader(t)[i];
  }

  lemma PackedOffset(dataOffset: Byte)
    requires dataOffset <= 60 && dataOffset % 4 == 0
    ensures (dataOffset / 4 % 0x10 * 0x10) / 0x10 * 4 == dataOffset
  {
    hide BitOr;
  }

  lemma TcpFieldsAreParsed(t: Tcp, d: seq<Byte>)
    requires t.WellFormed() && |d| == t.dataOffset as int + |t.payload|
    requires Word16(d, 0) == t.srcPort && Word16(d, 2) == t.dstPort
    requires Long32(d, 4) == t.seqNum && Long32(d, 8) == t.ackNum
    requires d[12] / 0x10 * 4 == t.dataOffset && d[13] == t.flags
    requires Word16(d, 14) == t.window && Word16(d, 16) == t.checksum && Word16(d, 18) == t.urgent
    requires d[20..t.dataOffset] == t.options && d[t.dataOffset..] == t.payload
    ensures ParseTCP(d) == Parsed(t)
  {
  }

  lemma WellFormedTcpIsParsed(t: Tcp, d: seq<Byte>)
    requires t.WellFormed() && d == PrintTCP(t)
    ensures ParseTCP(d) == Parsed(t)
  {
    PrintedTcp(t, d);
    TcpHeaderFields(t, d);
    assert Fit(t.options, t.dataOffset as int - 20) == t.options;
    PackedOffset(t.dataOffset);
    TcpFieldsAreParsed(t, d);
  }

  lemma ParsedTcpIsWellFormed(d: seq<Byte>)
    requires ParseTCP(d).Parsed?
    ensures var t := ParseTCP(d).value;
      && t.dataOffset <= 60 && t.dataOffset % 4 == 0 && t.flags < 0x40
      && |t.options| == (if t.dataOffset > 20 then t.dataOffset as int - 20 else 0)
  {
  }

  lemma TCPRoundTripExactly(t: Tcp)
    requires 20 <= t.dataOffset
    ensures ParseTCP(PrintTCP(t)) == Parsed(t) <==> t.WellFormed()
  {
    if t.WellFormed() {
      WellFormedTcpIsParsed(t, PrintTCP(t));
    }
    if ParseTCP(PrintTCP(t)) == Parsed(t) {
      ParsedTcpIsWellFormed(PrintTCP(t));
    }
  }

  /** A segment with eight flags, of which the byte printed for them keeps six. */
  lemma ReservedFlagsAreLost()
    ensures var t := Tcp(80, 443, 1, 0, 20, 0x42, 0xFFFF, 0, 0, [], []);
      ParseTCP(PrintTCP(t)) != Parsed(t)
  {
    var t := Tcp(80, 443, 1, 0, 20, 0x42, 0xFFFF, 0, 0, [], []);
    assert !t.WellFormed();
    hide *;
    TCPRoundTripExactly(t);
  }

  /** The bytes a TCP header keeps through the structure: the reserved bits are lost. */
  function WithoutReserved(b: seq<Byte>): (r: seq<Byte>)
    requires 20 <= |b|
    ensures |r| == |b|
  {
    b[12 := b[12] / 0x10 * 0x10][13 := b[13] % 0x40]
  }

  /** Printing a parsed segment gives back the input without its reserved bits; only the
      header part, so a data offset below 20 also keeps the bits after it. */
  lemma TCPReprint(b: seq<Byte>)
    requires ParseTCP(b).Parsed?
    ensures var t := ParseTCP(b).value;
      PrintTCP(t) == WithoutReserved(b)[..t.dataOffset] + b[t.dataOffset..]
  {
    var t := ParseTCP(b).value;
    ReprintedTcpHeader(b);
    if t.dataOffset <= 20 {
      assert (TcpHeader(t) + Fit(t.options, |b| - 20))[..t.dataOffset] == TcpHeader(t)[..t.dataOffset];
    } else {
      assert (TcpHeader(t) + Fit(t.options, |b| - 20))[..t.dataOffset] == TcpHeader(t) + t.options;
    }
  }

  lemma ReprintedTcpHeader(b: seq<Byte>)
    requires ParseTCP(b).Parsed?
    ensures TcpHeader(ParseTCP(b).value) == WithoutReserved(b)[..20]
  {
    ReprintedTcpNumbers(b);
    ReprintedTcpControl(b);
    assert WithoutReserved(b)[..20] == b[..12] + ([b[12] / 0x10 * 0x10, b[13] % 0x40] + b[14..20]);
    hide ParseTCP, TcpNumbers, TcpControl;
  }

  lemma ReprintedTcpNumbers(b: seq<Byte>)
    requires ParseTCP(b).Parsed?
    ensures TcpNumbers(ParseTCP(b).value) == b[..12]
  {
    ReadThenPut16(b, 0);
    ReadThenPut16(b, 2);
    ReadThenPut32(b, 4);
    ReadThenPut32(b, 8);
    hide Put16, Put32, Word16, Long32;
    assert b[..12] == b[0..2] + b[2..4] + b[4..8] + b[8..12];
  }

  lemma ReprintedTcpControl(b: seq<Byte>)
    requires ParseTCP(b).Parsed?
    ensures TcpControl(ParseTCP(b).value) == [b[12] / 0x10 * 0x10, b[13] % 0x40] + b[14..20]
  {
    ReadThenPut16(b, 14);
    ReadThenPut16(b, 16);
    ReadThenPut16(b, 18);
    hide Put16, Word16;
    assert ParseTCP(b).value.dataOffset / 4 % 0x10 == b[12] / 0x10;
    assert b[14..20] == b[14..16] + b[16..18] + b[18..20];
  }

  /** A segment printed into a packet is recovered through both parsers. */
  lemma NestedRoundTrip(p: IPv4, t: Tcp)
    requires p.WellFormed() && t.WellFormed() && p.payload == PrintTCP(t)
    ensures ParseIP(PrintIP(p)) == Parsed(p) && ParseTCP(ParseIP(PrintIP(p)).value.payload) == Parsed(t)
  {
    IPRoundTripExactly(p);
    TCPRoundTripExactly(t);
  }

  // ---------------------------------------------------------------- known packets

  const KNOWN := IPv4(
    4, 20, 0x10, 21, 0x1234, 2, 5, 64, UDP, 0x5F6E, [10, 1, 2, 3], [192, 168, 0, 199], [], [0x2A])

  /** One packet byte by byte, in the layout of RFC 791, section 3.1. */
  lemma KnownPacket()
    ensures KNOWN.headerLen == 20
    ensures var data := [
        0x45, 0x10, 0x00, 0x15, 0x12, 0x34, 0x40, 0x05, 64, 17, 0x5F, 0x6E,
        10, 1, 2, 3, 192, 168, 0, 199, 0x2A];
      PrintIP(KNOWN) == data && ParseIP(data) == Parsed(KNOWN)
  {
    hide BitOr;
    PrintedHeader(KNOWN);
    PackedNibbles(4, 5);
    assert OrFlags(2, 5) == 0x4005;
    assert KNOWN.WellFormed();
    WellFormedIsParsed(KNOWN, PrintIP(KNOWN));
  }

  const KNOWN_SEGMENT := Tcp(
    40000, 443, 0x0102_0304, 0x0506_0708, 24, 0x12, 0x2000, 0xABCD, 0x0011, [2, 4, 5, 0xB4], [0x2A])

  const KNOWN_HEADER: seq<Byte> := [
    0x9C, 0x40, 0x01, 0xBB, 1, 2, 3, 4, 5, 6, 7, 8, 0x60, 0x12, 0x20, 0x00, 0xAB, 0xCD, 0x00, 0x11]

  lemma KnownHeader()
    ensures TcpHeader(KNOWN_SEGMENT) == KNOWN_HEADER && KNOWN_SEGMENT.WellFormed()
  {
    assert Put16(40000) == [0x9C, 0x40] && Put16(443) == [0x01, 0xBB];
    assert Put32(0x0102_0304) == [1, 2, 3, 4] && Put32(0x0506_0708) == [5, 6, 7, 8];
    assert TcpNumbers(KNOWN_SEGMENT) == KNOWN_HEADER[..12];
    assert Put16(0x2000) == [0x20, 0x00] && Put16(0xABCD) == [0xAB, 0xCD] && Put16(0x0011) == [0x00, 0x11];
    assert TcpControl(KNOWN_SEGMENT) == KNOWN_HEADER[12..];
  }

  /** One segment byte by byte, in the layout of RFC 9293, section 3.1. */
  lemma KnownSegment()
    ensures KNOWN_SEGMENT.dataOffset == 24
    ensures var data := KNOWN_HEADER + [2, 4, 5, 0xB4, 0x2A];
      PrintTCP(KNOWN_SEGMENT) == data && ParseTCP(data) == Parsed(KNOWN_SEGMENT)
  {
    KnownHeader();
    TCPRoundTripExactly(KNOWN_SEGMENT);
    hide TcpHeader, ParseTCP;
    assert Fit(KNOWN_SEGMENT.options, 5) == [2, 4, 5, 0xB4, 0];
  }
}
