/** Packets in transit: what it means that packets of one origin are in order, without
    duplicates, and carry the bytes they should. */
module Pipeline {
  import opened Bytes
  import opened Wire
  import opened Process

  /** The packets of one origin, in order. */
  function Of(xs: seq<Packet>, o: Origin): (r: seq<Packet>)
    ensures forall p :: p in r ==> p in xs && p.origin == o
  {
    if xs == [] then []
    else
      var last := xs[|xs| - 1];
      Of(xs[..|xs| - 1], o) + (if last.origin == o then [last] else [])
  }

  lemma {:induction false} OfConcat(xs: seq<Packet>, ys: seq<Packet>, o: Origin)
    ensures Of(xs + ys, o) == Of(xs, o) + Of(ys, o)
  {
    if ys == [] {
      assert xs + ys == xs;
    } else {
      assert (xs + ys)[..|xs + ys| - 1] == xs + ys[..|ys| - 1];
      OfConcat(xs, ys[..|ys| - 1], o);
    }
  }

  lemma OfOne(p: Packet, o: Origin)
    ensures Of([p], o) == if p.origin == o then [p] else []
  {
    assert [p][..0] == [];
  }

  lemma OfSnoc(xs: seq<Packet>, p: Packet, o: Origin)
    ensures Of(xs + [p], o) == if p.origin == o then Of(xs, o) + [p] else Of(xs, o)
  {
    OfConcat(xs, [p], o);
    OfOne(p, o);
  }

  lemma OfCons(p: Packet, xs: seq<Packet>, o: Origin)
    ensures Of([p] + xs, o) == if p.origin == o then [p] + Of(xs, o) else Of(xs, o)
  {
    OfConcat([p], xs, o);
    OfOne(p, o);
  }

  lemma {:induction false} KeepsMember(xs: seq<Packet>, p: Packet)
    requires p in xs
    ensures p in Of(xs, p.origin)
  {
    var last := xs[|xs| - 1];
    if p != last {
      assert p in xs[..|xs| - 1];
      KeepsMember(xs[..|xs| - 1], p);
    }
  }

  // ---------------------------------------------------------------- contents

  /** The read buffer after the given chunks were read into it, one over the other. */
  function Replay(chunks: seq<Packet>): seq<Byte> {
    if chunks == [] then Zeros(BUFFER) else Overwritten(Replay(chunks[..|chunks| - 1]), chunks[|chunks| - 1].data)
  }

  /** The chunks of one socket: numbered, of one connection, and as large as a read can be. */
  predicate Numbered(chunks: seq<Packet>, o: Origin) {
    forall i :: 0 <= i < |chunks| ==>
      chunks[i].origin == o && chunks[i].serial == i && chunks[i].stamp == i + 1
      && chunks[i].connId == chunks[0].connId && 0 < |chunks[i].data| <= BUFFER
  }

  lemma {:induction false} ReplayLength(chunks: seq<Packet>)
    requires forall i :: 0 <= i < |chunks| ==> |chunks[i].data| <= BUFFER
    ensures |Replay(chunks)| == BUFFER
  {
    if chunks != [] { ReplayLength(chunks[..|chunks| - 1]); }
  }

  /** The same packet but for its bytes, of which there are as many. */
  predicate SameIdentity(p: Packet, q: Packet) {
    p.(data := [], stamp := 0) == q.(data := [], stamp := 0) && |p.data| == |q.data|
  }

  /** `p` is one of the chunks, and its bytes are those the buffer held after `p.stamp` reads.
      An `exact` one is the chunk as it was read. */
  predicate Faithful(p: Packet, chunks: seq<Packet>, exact: bool) {
    && p.serial < |chunks| && SameIdentity(p, chunks[p.serial])
    && p.serial < p.stamp <= |chunks|
    && p.data == Fit(Replay(chunks[..p.stamp]), |p.data|)
    && (exact ==> p == chunks[p.serial])
  }

  /** In order, without duplicates, and each packet faithful. */
  predicate Ordered(xs: seq<Packet>, chunks: seq<Packet>, exact: bool) {
    && (forall i :: 0 <= i < |xs| ==> Faithful(xs[i], chunks, exact))
    && (forall i, j :: 0 <= i < j < |xs| ==> xs[i].serial < xs[j].serial)
  }

  /** A chunk just read, or sent before the next read, has the bytes that were read. */
  lemma PromptlySentIsExact(p: Packet, chunks: seq<Packet>, o: Origin)
    requires Numbered(chunks, o) && Faithful(p, chunks, false) && p.stamp == p.serial + 1
    ensures p == chunks[p.serial]
  {
    ChunkIsFaithful(chunks, o, p.serial);
  }

  lemma ChunkIsFaithful(chunks: seq<Packet>, o: Origin, i: nat)
    requires Numbered(chunks, o) && i < |chunks|
    ensures Faithful(chunks[i], chunks, true)
  {
    var c := chunks[i];
    assert chunks[..i + 1][..i] == chunks[..i];
    ReplayLength(chunks[..i]);
    var before := Replay(chunks[..i]);
    assert Replay(chunks[..i + 1]) == c.data + before[|c.data|..];
    assert Fit(c.data + before[|c.data|..], |c.data|) == c.data;
  }

  lemma FaithfulLater(p: Packet, chunks: seq<Packet>, c: Packet, exact: bool)
    requires Faithful(p, chunks, exact)
    ensures Faithful(p, chunks + [c], exact)
  {
    assert (chunks + [c])[..p.stamp] == chunks[..p.stamp];
  }

  /** Copying a chunk out of the buffer after more reads. */
  lemma CopiedOutLater(p: Packet, chunks: seq<Packet>, o: Origin)
    requires Numbered(chunks, o) && Faithful(p, chunks, false)
    ensures Faithful(p.(data := Fit(Replay(chunks), |p.data|), stamp := |chunks|), chunks, false)
  {
    assert chunks[..|chunks|] == chunks;
  }

  // ---------------------------------------------------------------- order is kept

  /** `ys` is `xs`, perhaps without one of its packets. */
  ghost predicate Shrinks(xs: seq<Packet>, ys: seq<Packet>) {
    ys == xs || exists i :: 0 <= i < |xs| && ys == xs[..i] + xs[i + 1..]
  }

  lemma DroppedMiddle(a: seq<Packet>, p: Packet, b: seq<Packet>)
    ensures Shrinks(a + [p] + b, a + b)
  {
    var xs := a + [p] + b;
    assert a + b == xs[..|a|] + xs[|a| + 1..];
  }

  lemma ShrinkKeepsOrder(xs: seq<Packet>, ys: seq<Packet>, chunks: seq<Packet>, exact: bool)
    requires Ordered(xs, chunks, exact) && Shrinks(xs, ys)
    ensures Ordered(ys, chunks, exact)
  {
  }

  lemma ReadKeepsOrder(xs: seq<Packet>, chunks: seq<Packet>, c: Packet, o: Origin, exact: bool)
    requires Ordered(xs, chunks, exact) && Numbered(chunks + [c], o)
    ensures Ordered(xs + [c], chunks + [c], exact)
  {
    forall i | 0 <= i < |xs| ensures Faithful(xs[i], chunks + [c], exact) {
      FaithfulLater(xs[i], chunks, c, exact);
    }
    ChunkIsFaithful(chunks + [c], o, |chunks|);
  }

  lemma ReplaceKeepsOrder(a: seq<Packet>, p: Packet, q: Packet, b: seq<Packet>, chunks: seq<Packet>, exact: bool)
    requires Ordered(a + [p] + b, chunks, exact) && Faithful(q, chunks, exact) && q.serial == p.serial
    ensures Ordered(a + [q] + b, chunks, exact)
  {
    var xs, ys := a + [p] + b, a + [q] + b;
    assert forall i :: 0 <= i < |xs| && i != |a| ==> ys[i] == xs[i];
    assert xs[|a|] == p && ys[|a|] == q;
    assert forall i :: 0 <= i < |xs| ==> ys[i].serial == xs[i].serial;
  }

  lemma PartKeepsOrder(a: seq<Packet>, b: seq<Packet>, chunks: seq<Packet>, exact: bool)
    requires Ordered(a + b, chunks, exact)
    ensures Ordered(a, chunks, exact)
  {
    assert forall i :: 0 <= i < |a| ==> (a + b)[i] == a[i];
  }
}
