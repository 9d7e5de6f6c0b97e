/** Connection identifiers, from `pkg/network/connection.go`: both directions of a flow get the
    same ID because the endpoints are put in order before they are hashed. The hash itself is a
    parameter; the theorems are about the bytes that go into it. */
module ConnectionId {
  import opened Bytes
  import opened Wire
  import Packet
  import Checksum

  datatype Endpoint = Endpoint(ip: seq<Byte>, port: Word)
  datatype Tuple = Tuple(srcIP: seq<Byte>, srcPort: Word, dstIP: seq<Byte>, dstPort: Word) {
    function Reverse(): Tuple {
      Tuple(dstIP, dstPort, srcIP, srcPort)
    }
  }

  // ---------------------------------------------------------------- the order on addresses

  /** `k` is the first index at which `a` and `b` differ, and `a` is smaller there. */
  ghost predicate SmallerAt(a: seq<Byte>, b: seq<Byte>, k: nat) {
    k < |a| && k < |b| && a[..k] == b[..k] && a[k] < b[k]
  }

  /** Shorter first; addresses of one length lexicographically. */
  ghost predicate Less(a: seq<Byte>, b: seq<Byte>) {
    |a| < |b| || (|a| == |b| && exists k: nat :: SmallerAt(a, b, k))
  }

  method CompareIPs(a: seq<Byte>, b: seq<Byte>) returns (cmp: int)
    ensures -1 <= cmp <= 1
    ensures cmp == -1 <==> Less(a, b)
    ensures cmp == 0 <==> a == b
    ensures cmp == 1 <==> Less(b, a)
  {
    if |a| < |b| { return -1; }
    if |a| > |b| { return 1; }
    for i := 0 to |a|
      invariant a[..i] == b[..i]
    {
      if a[i] < b[i] {
        assert SmallerAt(a, b, i);
        LessIsAsymmetric(a, b);
        return -1;
      }
      if a[i] > b[i] {
        assert SmallerAt(b, a, i);
        LessIsAsymmetric(b, a);
        return 1;
      }
    }
    assert a == a[..|a|] && b == b[..|b|];
    return 0;
  }

  lemma LessIsAsymmetric(a: seq<Byte>, b: seq<Byte>)
    requires Less(a, b)
    ensures !Less(b, a) && a != b
  {
    if |a| == |b| {
      var k: nat :| SmallerAt(a, b, k);
      forall j: nat ensures !SmallerAt(b, a, j) {
        if j < k && j < |a| {
          assert a[j] == a[..k][j] && b[j] == b[..k][j];
        } else if k < j <= |a| {
          assert a[k] == a[..j][k] && b[k] == b[..j][k];
        }
      }
    }
  }

  lemma LessIsIrreflexive(a: seq<Byte>)
    ensures !Less(a, a)
  {
  }

  lemma LessIsTransitive(a: seq<Byte>, b: seq<Byte>, c: seq<Byte>)
    requires Less(a, b) && Less(b, c)
    ensures Less(a, c)
  {
    if |a| == |b| == |c| {
      var i: nat :| SmallerAt(a, b, i);
      var j: nat :| SmallerAt(b, c, j);
      var k := Min(i, j);
      assert a[..k] == a[..i][..k] && b[..k] == b[..i][..k] && b[..k] == b[..j][..k] && c[..k] == c[..j][..k];
      if i < j { assert b[i] == b[..j][i] && c[i] == c[..j][i]; }
      if j < i { assert b[j] == b[..i][j] && a[j] == a[..i][j]; }
      assert SmallerAt(a, c, k);
    }
  }

  lemma LessIsTotal(a: seq<Byte>, b: seq<Byte>)
    ensures Less(a, b) || Less(b, a) || a == b
  {
    if |a| == |b| && a != b {
      FirstDifference(a, b, 0);
    }
  }

  lemma FirstDifference(a: seq<Byte>, b: seq<Byte>, k: nat)
    requires |a| == |b| && k <= |a| && a[..k] == b[..k] && a != b
    ensures exists j: nat :: SmallerAt(a, b, j) || SmallerAt(b, a, j)
    decreases |a| - k
  {
    assert a[..|a|] == a && b[..|b|] == b;
    if k == |a| {
      assert false;
    } else if a[k] == b[k] {
      assert a[..k + 1] == a[..k] + [a[k]] && b[..k + 1] == b[..k] + [b[k]];
      FirstDifference(a, b, k + 1);
    } else {
      assert SmallerAt(a, b, k) || SmallerAt(b, a, k);
    }
  }

  /** The order in which two endpoints are hashed: by address, then by port. */
  ghost predicate Before(e: Endpoint, f: Endpoint) {
    Less(e.ip, f.ip) || (e.ip == f.ip && e.port < f.port)
  }

  /** The order on endpoints is strict and total. */
  lemma EndpointOrder(e: Endpoint, f: Endpoint, g: Endpoint)
    ensures !(Before(e, f) && Before(f, e)) && !Before(e, e)
    ensures Before(e, f) || Before(f, e) || e == f
    ensures Before(e, f) && Before(f, g) ==> Before(e, g)
  {
    LessIsTotal(e.ip, f.ip);
    if Less(e.ip, f.ip) { LessIsAsymmetric(e.ip, f.ip); }
    if Less(f.ip, e.ip) { LessIsAsymmetric(f.ip, e.ip); }
    if Less(e.ip, e.ip) { LessIsAsymmetric(e.ip, e.ip); }
    if Less(e.ip, f.ip) && Less(f.ip, g.ip) { LessIsTransitive(e.ip, f.ip, g.ip); }
  }

  // ---------------------------------------------------------------- what is hashed

  /** IPv4 addresses are brought to four bytes, but only when both ends are IPv4. */
  function Normalised(t: Tuple): (Endpoint, Endpoint) {
    if To4(t.srcIP) == [] || To4(t.dstIP) == [] then
      (Endpoint(t.srcIP, t.srcPort), Endpoint(t.dstIP, t.dstPort))
    else
      (Endpoint(To4(t.srcIP), t.srcPort), Endpoint(To4(t.dstIP), t.dstPort))
  }

  function Encoding(e: Endpoint, f: Endpoint): seq<Byte> {
    e.ip + Put16(e.port) + f.ip + Put16(f.port)
  }

  /** The bytes written to the hasher: the two normalised endpoints, the earlier one first. */
  ghost function Preimage(t: Tuple): seq<Byte> {
    var (e, f) := Normalised(t);
    if Before(f, e) then Encoding(f, e) else Encoding(e, f)
  }

  /** The hasher as the code uses it: an object that accumulates what is written. */
  class Hasher {
    var written: seq<Byte>

    constructor ()
      ensures written == []
    {
      written := [];
    }

    method Write(data: seq<Byte>)
      modifies this
      ensures written == old(written) + data
    {
      written := written + data;
    }
  }

  /** `hash` stands for the hexadecimal form of the first half of SHA-256. */
  method GenerateConnectionID(t: Tuple, hash: seq<Byte> -> string) returns (id: string)
    ensures id == hash(Preimage(t))
  {
    var srcIP4, dstIP4 := To4(t.srcIP), To4(t.dstIP);
    if srcIP4 == [] || dstIP4 == [] {
      srcIP4 := t.srcIP;
      dstIP4 := t.dstIP;
    }
    var ep1, ep2 := Endpoint(srcIP4, t.srcPort), Endpoint(dstIP4, t.dstPort);
    var cmp := CompareIPs(ep1.ip, ep2.ip);
    LessIsIrreflexive(ep1.ip);
    assert Normalised(t).0 == ep1 && Normalised(t).1 == ep2;
    assert Before(ep2, ep1) <==> cmp > 0 || (cmp == 0 && ep1.port > ep2.port);
    if cmp > 0 || (cmp == 0 && ep1.port > ep2.port) {
      ep1, ep2 := ep2, ep1;
    }
    id := HashEndpoints(ep1, ep2, hash);
  }

  /** One buffer of two bytes serves both ports; the hasher has its own copy of the first when it
      is overwritten. */
  method HashEndpoints(ep1: Endpoint, ep2: Endpoint, hash: seq<Byte> -> string) returns (id: string)
    ensures id == hash(Encoding(ep1, ep2))
  {
    var hasher := new Hasher();
    var portBytes := new Byte[2](_ => 0);
    hasher.Write(ep1.ip);
    PutPort(portBytes, ep1.port);
    hasher.Write(portBytes[..]);
    hasher.Write(ep2.ip);
    PutPort(portBytes, ep2.port);
    hasher.Write(portBytes[..]);
    assert hasher.written == Encoding(ep1, ep2);
    id := hash(hasher.written);
  }

  /** `binary.BigEndian.PutUint16`, whatever the buffer holds. */
  method PutPort(buf: array<Byte>, port: Word)
    requires buf.Length == 2
    modifies buf
    ensures buf[..] == Put16(port)
  {
    buf[0] := port / 0x100;
    buf[1] := port % 0x100;
  }

  /** The tuple of a TCP or UDP packet: its addresses, and the ports its payload begins with. */
  function TupleOf(p: Packet.IPv4): (r: Option<Tuple>)
    ensures r.Some? <==> p.protocol in {Checksum.TCP, Checksum.UDP} && 4 <= |p.payload|
  {
    if p.protocol != Checksum.TCP && p.protocol != Checksum.UDP then None
    else if |p.payload| < 4 then None
    else Some(Tuple(p.srcIP, Word16(p.payload, 0), p.dstIP, Word16(p.payload, 2)))
  }

  /** A packet that carries a segment has the segment's ports in its tuple. */
  lemma TupleOfSegment(p: Packet.IPv4, t: Packet.Tcp)
    requires p.protocol == Checksum.TCP && 20 <= t.dataOffset && p.payload == Packet.PrintTCP(t)
    ensures TupleOf(p) == Some(Tuple(p.srcIP, t.srcPort, p.dstIP, t.dstPort))
  {
    hide Put32;
    assert p.payload[..4] == Put16(t.srcPort) + Put16(t.dstPort);
    assert forall i :: 0 <= i < 4 ==> p.payload[i] == p.payload[..4][i];
  }

  method GenerateConnectionIDFromPacket(p: Packet.IPv4, hash: seq<Byte> -> string) returns (r: Option<string>)
    ensures r == if TupleOf(p).Some? then Some(hash(Preimage(TupleOf(p).value))) else None
  {
    var tuple := TupleOf(p);
    if tuple.None? { return None; }
    var id := GenerateConnectionID(tuple.value, hash);
    return Some(id);
  }

  // ---------------------------------------------------------------- theorems

  /** Both directions of a flow hash the same bytes. */
  lemma ReverseHasSamePreimage(t: Tuple)
    ensures Preimage(t.Reverse()) == Preimage(t)
  {
    var (e, f) := Normalised(t);
    EndpointOrder(e, f, e);
  }

  /** A reply packet (addresses and ports exchanged) gets the ID of the packet it answers. */
  lemma ReplyHasSamePreimage(p: Packet.IPv4, q: Packet.IPv4)
    requires TupleOf(p).Some? && TupleOf(q).Some?
    requires q.srcIP == p.dstIP && q.dstIP == p.srcIP
    requires q.payload[..2] == p.payload[2..4] && q.payload[2..4] == p.payload[..2]
    ensures Preimage(TupleOf(q).value) == Preimage(TupleOf(p).value)
  {
    assert forall i :: 0 <= i < 2 ==> q.payload[i] == q.payload[..2][i] && p.payload[i] == p.payload[..2][i];
    assert forall i :: 0 <= i < 2 ==> q.payload[i + 2] == q.payload[2..4][i] && p.payload[i + 2] == p.payload[2..4][i];
    ReverseHasSamePreimage(TupleOf(p).value);
  }

  /** An IPv4 flow has one ID however its addresses are represented. */
  lemma RepresentationIrrelevant(t: Tuple, u: Tuple)
    requires To4(t.srcIP) != [] && To4(t.dstIP) != []
    requires To4(t.srcIP) == To4(u.srcIP) && To4(t.dstIP) == To4(u.dstIP)
    requires t.srcPort == u.srcPort && t.dstPort == u.dstPort
    ensures Preimage(t) == Preimage(u)
  {
  }

  /** Two IPv4 addresses, each in either form, hash the same twelve bytes: the two addresses of
      four bytes and the two ports. */
  lemma EitherFormHashesTheSame(
      a: seq<Byte>, b: seq<Byte>, srcPort: Word, dstPort: Word, src: seq<Byte>, dst: seq<Byte>)
    requires |a| == 4 && |b| == 4 && src in {a, Mapped(a)} && dst in {b, Mapped(b)}
    ensures var preimage := Preimage(Tuple(src, srcPort, dst, dstPort));
      && preimage == Preimage(Tuple(a, srcPort, b, dstPort)) && |preimage| == 12
      && preimage in {a + Put16(srcPort) + b + Put16(dstPort), b + Put16(dstPort) + a + Put16(srcPort)}
  {
    MappedIsIPv4(a);
    MappedIsIPv4(b);
  }

  /** When one of the two is no IPv4 address, both are hashed as they are, whatever form the other
      has. */
  lemma OtherwiseHashedAsTheyAre(t: Tuple)
    requires !IsIPv4(t.srcIP) || !IsIPv4(t.dstIP)
    ensures Preimage(t) in {
      t.srcIP + Put16(t.srcPort) + t.dstIP + Put16(t.dstPort), t.dstIP + Put16(t.dstPort) + t.srcIP + Put16(t.srcPort)}
  {
    OnlyIPv4(t.srcIP);
    OnlyIPv4(t.dstIP);
  }

  /** The bytes hashed for port 443 of 192.168.0.199 and port 40000 of 10.1.2.3. */
  lemma KnownPreimage()
    ensures Preimage(Tuple([192, 168, 0, 199], 443, [10, 1, 2, 3], 40000))
         == [10, 1, 2, 3, 0x9C, 0x40, 192, 168, 0, 199, 0x01, 0xBB]
  {
    var e, f := Endpoint([192, 168, 0, 199], 443), Endpoint([10, 1, 2, 3], 40000);
    assert SmallerAt(f.ip, e.ip, 0);
    assert Before(f, e);
  }

  predicate SamePair(p: (Endpoint, Endpoint), q: (Endpoint, Endpoint)) {
    p == q || p == (q.1, q.0)
  }

  /** An encoding can be decoded once the lengths of both addresses are known. */
  lemma EncodingIsInjective(e: Endpoint, f: Endpoint, g: Endpoint, h: Endpoint)
    requires Encoding(e, f) == Encoding(g, h) && |e.ip| == |g.ip|
    ensures e == g && f == h
  {
    var x, y := Encoding(e, f), Encoding(g, h);
    assert |x| == |e.ip| + |f.ip| + 4 && |y| == |g.ip| + |h.ip| + 4;
    var n, m := |e.ip|, |f.ip|;
    assert e.ip == x[..n] && g.ip == y[..n];
    assert Put16(e.port) == x[n..n + 2] && Put16(g.port) == y[n..n + 2];
    assert f.ip == x[n + 2..n + 2 + m] && h.ip == y[n + 2..n + 2 + m];
    assert Put16(f.port) == x[n + 2 + m..] && Put16(h.port) == y[n + 2 + m..];
    Put16IsInjective(e.port, g.port);
    Put16IsInjective(f.port, h.port);
  }

  lemma Put16IsInjective(v: Word, w: Word)
    requires Put16(v) == Put16(w)
    ensures v == w
  {
    assert Put16(v)[0] == Put16(w)[0] && Put16(v)[1] == Put16(w)[1];
  }

  /** The lengths of the two normalised addresses, the smaller first. */
  function Lengths(t: Tuple): (r: (nat, nat))
    ensures r.0 <= r.1
  {
    var (e, f) := Normalised(t);
    if |e.ip| <= |f.ip| then (|e.ip|, |f.ip|) else (|f.ip|, |e.ip|)
  }

  /** Two flows have the same two normalised endpoints, in either order, exactly when the hashed
      bytes are equal and the lengths of the addresses are, whatever these lengths. */
  lemma SameEndpointsExactly(t: Tuple, u: Tuple)
    ensures SamePair(Normalised(t), Normalised(u)) <==> Preimage(t) == Preimage(u) && Lengths(t) == Lengths(u)
  {
    var (e, f) := Normalised(t);
    var (g, h) := Normalised(u);
    EndpointOrder(e, f, e);
    EndpointOrder(g, h, g);
    var (e', f') := if Before(f, e) then (f, e) else (e, f);
    var (g', h') := if Before(h, g) then (h, g) else (g, h);
    if Preimage(t) == Preimage(u) && Lengths(t) == Lengths(u) {
      assert Lengths(t) == (|e'.ip|, |f'.ip|) && Lengths(u) == (|g'.ip|, |h'.ip|);
      EncodingIsInjective(e', f', g', h');
    }
  }

  /** Equal hashed bytes mean the same endpoints, for addresses of the given lengths. */
  ghost predicate Injective(lengths: set<nat>) {
    forall t, u :: HasLengths(t, lengths) && HasLengths(u, lengths) && Preimage(t) == Preimage(u) ==>
      SamePair(Normalised(t), Normalised(u))
  }

  predicate HasLengths(t: Tuple, lengths: set<nat>) {
    |Normalised(t).0.ip| in lengths && |Normalised(t).1.ip| in lengths
  }

  /** No two different pairs of these lengths have the same sum. */
  predicate SumsDiffer(lengths: set<nat>) {
    forall a, b, c, d :: a in lengths && b in lengths && c in lengths && d in lengths && a <= b && c <= d ==>
      a + b == c + d ==> a == c
  }

  /** Nothing separates the parts of an encoding: it is injective on addresses of given lengths
      exactly when the sum of two lengths determines both. */
  lemma InjectiveExactly(lengths: set<nat>)
    ensures Injective(lengths) <==> SumsDiffer(lengths)
  {
    hide Preimage, Normalised, SamePair, Zeros, ZeroTuple;
    if SumsDiffer(lengths) {
      forall t, u | HasLengths(t, lengths) && HasLengths(u, lengths) && Preimage(t) == Preimage(u)
        ensures SamePair(Normalised(t), Normalised(u))
      {
        SumsFixLengths(t, u, lengths);
        SameEndpointsExactly(t, u);
      }
    } else {
      var a, b, c, d :| a in lengths && b in lengths && c in lengths && d in lengths
        && a <= b && c <= d && a + b == c + d && a != c;
      OtherLengthsCollide(a, b, c, d);
      assert HasLengths(ZeroTuple(a, b), lengths) && HasLengths(ZeroTuple(c, d), lengths);
    }
  }

  lemma SumsFixLengths(t: Tuple, u: Tuple, lengths: set<nat>)
    requires SumsDiffer(lengths) && HasLengths(t, lengths) && HasLengths(u, lengths) && Preimage(t) == Preimage(u)
    ensures Lengths(t) == Lengths(u)
  {
    PreimageLength(t);
    PreimageLength(u);
    hide Preimage, Normalised;
  }

  lemma PreimageLength(t: Tuple)
    ensures |Preimage(t)| == Lengths(t).0 + Lengths(t).1 + 4
  {
  }

  function ZeroTuple(n: nat, m: nat): (t: Tuple)
    ensures Normalised(t) == (Endpoint(Zeros(n), 0), Endpoint(Zeros(m), 0))
    ensures |Normalised(t).0.ip| == n && |Normalised(t).1.ip| == m
  {
    ZerosStay(n);
    ZerosStay(m);
    Tuple(Zeros(n), 0, Zeros(m), 0)
  }

  lemma ZerosStay(n: nat)
    ensures To4(Zeros(n)) == if n == 4 then Zeros(n) else []
  {
    var mapped: seq<Byte> := Zeros(10) + [0xFF, 0xFF];
    assert mapped[10] == 0xFF;
    if n == 16 { assert Zeros(n)[..12][10] == 0; }
  }

  /** Any two different pairs of lengths with one sum have a collision: all zeros. */
  lemma OtherLengthsCollide(a: nat, b: nat, c: nat, d: nat)
    requires a <= b && c <= d && a + b == c + d && a != c
    ensures Preimage(ZeroTuple(a, b)) == Preimage(ZeroTuple(c, d))
    ensures !SamePair(Normalised(ZeroTuple(a, b)), Normalised(ZeroTuple(c, d)))
  {
    ZeroPreimage(a, b);
    ZeroPreimage(c, d);
    assert |Zeros(a)| == a && |Zeros(c)| == c && |Zeros(d)| == d;
  }

  lemma ZeroPreimage(n: nat, m: nat)
    ensures Preimage(ZeroTuple(n, m)) == Zeros(n + m + 4)
  {
    var e, f := Endpoint(Zeros(n), 0), Endpoint(Zeros(m), 0);
    assert Encoding(e, f) == Zeros(n + m + 4) == Encoding(f, e);
  }

  /** The lengths Go gives an address: nil, IPv4, IPv6. */
  const GO_LENGTHS: set<nat> := {0, 4, 16}

  lemma GoLengthsDiffer()
    ensures SumsDiffer(GO_LENGTHS)
  {
  }

  lemma NormalisedLengths(t: Tuple)
    requires |t.srcIP| in GO_LENGTHS && |t.dstIP| in GO_LENGTHS
    ensures HasLengths(t, GO_LENGTHS)
  {
    hide To4;
  }

  /** For those, the hashed bytes are equal exactly when the flows have the same two normalised
      endpoints, in either order. */
  lemma PreimageExactly(t: Tuple, u: Tuple)
    requires |t.srcIP| in GO_LENGTHS && |t.dstIP| in GO_LENGTHS && |u.srcIP| in GO_LENGTHS && |u.dstIP| in GO_LENGTHS
    ensures Preimage(t) == Preimage(u) <==> SamePair(Normalised(t), Normalised(u))
  {
    hide Preimage, Normalised, SamePair, HasLengths, SumsDiffer, Lengths, To4;
    GoLengthsDiffer();
    InjectiveExactly(GO_LENGTHS);
    NormalisedLengths(t);
    NormalisedLengths(u);
    SameEndpointsExactly(t, u);
  }
}
