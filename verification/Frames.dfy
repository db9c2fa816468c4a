/** The outer frame of the channel multiplexer: what a receiver makes of the bytes
    on the wire, whatever the reads they arrive in. */
module Frames {
  import opened Text

  type Byte = x: int | 0 <= x < 256
  type Bytes = seq<Byte>

  const MAX_OUTER_FRAME_BYTES := 1024
  const OTA_BUFFER_BYTES := 2048

  /** The byte-stuffing code and the two channel numbers of a link. */
  datatype Link = Link(encode: Bytes -> Bytes, decode: Bytes -> Option<Bytes>, ota: Byte, app: Byte) {
    /** What the code has to guarantee: a round trip without zero bytes. */
    ghost predicate Lawful() {
      && ota != app
      && forall x :: decode(encode(x)) == Some(x) && 0 !in encode(x) && encode(x) != []
    }
  }

  datatype Frame = Frame(channel: Byte, payload: Bytes)

  /** `cobs_encode(bytes([channel]) + payload) + b"\x00"` */
  function Framed(link: Link, f: Frame): Bytes { link.encode([f.channel] + f.payload) + [0] }

  /** Everything found in a buffer, and what is left behind the last delimiter. */
  datatype Parsed = Parsed(frames: seq<Frame>, dropped: nat, rest: Bytes) {
    /** One reception after another. */
    function Then(q: Parsed): Parsed { Parsed(frames + q.frames, dropped + q.dropped, q.rest) }
  }

  lemma ThenThen(p: Parsed, q: Parsed, r: Parsed)
    ensures p.Then(q.Then(r)) == p.Then(q).Then(r)
  {}

  /** The position of the first delimiter. */
  function Find(buf: Bytes): (i: nat)
    ensures i <= |buf| && 0 !in buf[..i] && (i < |buf| ==> buf[i] == 0)
  {
    if buf == [] || buf[0] == 0 then 0 else 1 + Find(buf[1..])
  }

  /** One delimited piece: a frame, a piece that counts as dropped, or nothing. */
  function Piece(link: Link, piece: Bytes): Parsed {
    if piece == [] then Parsed([], 0, [])
    else if |piece| > MAX_OUTER_FRAME_BYTES then Parsed([], 1, [])
    else match link.decode(piece)
      case None => Parsed([], 1, [])
      case Some(x) =>
        if x == [] then Parsed([], 1, [])
        else if x[0] == link.ota || x[0] == link.app then Parsed([Frame(x[0], x[1..])], 0, [])
        else Parsed([], 0, [])
  }

  function Parse(link: Link, buf: Bytes): Parsed
    decreases |buf|
  {
    var i := Find(buf);
    if i == |buf| then Parsed([], 0, buf) else
    Piece(link, buf[..i]).Then(Parse(link, buf[i + 1..]))
  }

  /** One pump: parse, then give up on an over-long remainder. */
  function Pumped(link: Link, buf: Bytes): Parsed {
    var p := Parse(link, buf);
    if |p.rest| > MAX_OUTER_FRAME_BYTES then Parsed(p.frames, p.dropped + 1, []) else p
  }

  /** A whole reception: one pump for each chunk that a read returned. */
  function Received(link: Link, buf: Bytes, chunks: seq<Bytes>): Parsed
    decreases |chunks|
  {
    if chunks == [] then Parsed([], 0, buf) else
    var p := Pumped(link, buf + chunks[0]);
    p.Then(Received(link, p.rest, chunks[1..]))
  }

  function Joined(chunks: seq<Bytes>): Bytes {
    if chunks == [] then [] else chunks[0] + Joined(chunks[1..])
  }

  /** The same reads, ending after `n` bytes. */
  function Clipped(chunks: seq<Bytes>, n: nat): seq<Bytes>
    requires n <= |Joined(chunks)|
  {
    if n == 0 then []
    else if n <= |chunks[0]| then [chunks[0][..n]]
    else [chunks[0]] + Clipped(chunks[1..], n - |chunks[0]|)
  }

  /* ---- pieces on the wire ---- */

  /** Delimited pieces, not necessarily decodable. */
  predicate ZeroFree(pieces: seq<Bytes>) { forall p | p in pieces :: 0 !in p }

  /** Pieces of acceptable length. */
  predicate Acceptable(pieces: seq<Bytes>) {
    forall p | p in pieces :: 0 !in p && |p| <= MAX_OUTER_FRAME_BYTES
  }

  function Wire(pieces: seq<Bytes>): Bytes {
    if pieces == [] then [] else pieces[0] + [0] + Wire(pieces[1..])
  }

  /** What a receiver in step makes of the pieces. */
  function Heard(link: Link, pieces: seq<Bytes>, tail: Bytes): Parsed {
    if pieces == [] then Parsed([], 0, tail) else Piece(link, pieces[0]).Then(Heard(link, pieces[1..], tail))
  }

  lemma {:induction false} FindAt(a: Bytes, b: Bytes)
    requires 0 !in a
    ensures Find(a + [0] + b) == |a|
  {
    if a != [] {
      FindAt(a[1..], b);
      assert (a + [0] + b)[1..] == a[1..] + [0] + b;
    }
  }

  lemma {:induction false} FindNone(a: Bytes)
    requires 0 !in a
    ensures Find(a) == |a|
  {
    if a != [] { FindNone(a[1..]); }
  }

  lemma {:induction false} FindSome(a: Bytes)
    requires a != [] && a[|a| - 1] == 0
    ensures Find(a) < |a|
  {
    if |a| > 1 { FindSome(a[1..]); }
  }

  /** A piece in front is taken on its own. */
  lemma ParseFront(link: Link, a: Bytes, b: Bytes)
    requires 0 !in a
    ensures Parse(link, a + [0] + b) == Piece(link, a).Then(Parse(link, b))
  {
    var s := a + [0] + b;
    FindAt(a, b);
    assert s[..|a|] == a && s[|a| + 1..] == b;
  }

  lemma Regroup(a: Bytes, b: Bytes, c: Bytes)
    ensures (a + b) + c == a + (b + c)
  {}

  lemma NothingAdded(x: Bytes)
    ensures [] + x == x && x + [] == x
  {}

  /** A buffer that ends in a delimiter has a first piece. */
  lemma FirstPiece(a: Bytes) returns (head: Bytes, tail: Bytes)
    requires a != [] && a[|a| - 1] == 0
    ensures 0 !in head && a == head + [0] + tail && (tail != [] ==> tail[|tail| - 1] == 0)
  {
    FindSome(a);
    head, tail := a[..Find(a)], a[Find(a) + 1..];
  }

  lemma ParseSplitsAfter(link: Link, head: Bytes, tail: Bytes, b: Bytes)
    requires 0 !in head
    requires Parse(link, tail).rest == [] && Parse(link, tail + b) == Parse(link, tail).Then(Parse(link, b))
    ensures Parse(link, head + [0] + tail).rest == []
    ensures Parse(link, head + [0] + (tail + b)) == Parse(link, head + [0] + tail).Then(Parse(link, b))
  {
    ParseFront(link, head, tail);
    ParseFront(link, head, tail + b);
    ThenThen(Piece(link, head), Parse(link, tail), Parse(link, b));
  }

  /** Nothing before a delimiter influences what comes after it. */
  lemma {:induction false} ParseSplits(link: Link, a: Bytes, b: Bytes)
    requires a != [] ==> a[|a| - 1] == 0
    ensures Parse(link, a).rest == [] && Parse(link, a + b) == Parse(link, a).Then(Parse(link, b))
    decreases |a|
  {
    if a == [] {
      assert a + b == b;
    } else {
      var head, tail := FirstPiece(a);
      ParseSplits(link, tail, b);
      ParseSplitsAfter(link, head, tail, b);
      Regroup(head + [0], tail, b);
    }
  }

  /** Equal concatenations, the first part of one inside the first part of the other. */
  lemma CutFront(a: Bytes, b: Bytes, c: Bytes, d: Bytes)
    requires a + b == c + d && |a| <= |c|
    ensures c[..|a|] == a && b == c[|a|..] + d
  {
    assert (c + d)[..|a|] == c[..|a|] && (a + b)[..|a|] == a;
    assert (c + d)[|a|..] == c[|a|..] + d && (a + b)[|a|..] == b;
  }

  /** A read that ends before the first delimiter. */
  lemma ReadShort(link: Link, a: Bytes, x: Bytes, y: Bytes, z: Bytes)
    requires x + y == a + z && |x| <= |a| && 0 !in a
    ensures Parse(link, x) == Parsed([], 0, x) && 0 !in x
  {
    CutFront(x, y, a, z);
    assert x == a[..|x|];
    FindNone(x);
  }

  lemma FrontTaken(link: Link, x: Bytes, a: Bytes, z: Bytes)
    requires 0 !in a && |a| < |x| && x[..|a| + 1] == a + [0] && z == x[|a| + 1..]
    ensures Parse(link, x) == Piece(link, a).Then(Parse(link, z))
  {
    ParseFront(link, a, z);
    assert x == a + [0] + z;
  }

  lemma PiecesMoved(pieces: seq<Bytes>, n: nat)
    requires n < |pieces|
    ensures pieces[..n + 1][0] == pieces[0] && pieces[..n + 1][1..] == pieces[1..][..n] && pieces[1..][n..] == pieces[n + 1..]
  {}

  /** A read that ends anywhere inside a stream of pieces: the complete ones are
      heard, and the rest is the beginning of the next one. */
  lemma {:induction false} ReadInside(link: Link, pieces: seq<Bytes>, tail: Bytes, x: Bytes, y: Bytes) returns (k: nat)
    requires ZeroFree(pieces) && 0 !in tail
    requires x + y == Wire(pieces) + tail
    ensures k <= |pieces|
    ensures Parse(link, x) == Heard(link, pieces[..k], Parse(link, x).rest)
    ensures Parse(link, x).rest + y == Wire(pieces[k..]) + tail
    ensures 0 !in Parse(link, x).rest && |Parse(link, x).rest| <= if k < |pieces| then |pieces[k]| else |tail|
    decreases |pieces|
  {
    k := 0;
    assert pieces[..0] == [] && pieces[0..] == pieces;
    if pieces == [] {
      assert x + y == tail + [];
      ReadShort(link, tail, x, y, []);
    } else {
      var a, later := pieces[0], Wire(pieces[1..]) + tail;
      assert a in pieces;
      Regroup(a + [0], Wire(pieces[1..]), tail);
      if |x| <= |a| {
        Regroup(a, [0], later);
        ReadShort(link, a, x, y, [0] + later);
      } else {
        var z := x[|a| + 1..];
        CutFront(a + [0], later, x, y);
        var n := ReadInside(link, pieces[1..], tail, z, y);
        FrontTaken(link, x, a, z);
        k := n + 1;
        PiecesMoved(pieces, n);
      }
    }
  }

  lemma {:induction false} HeardSplits(link: Link, a: seq<Bytes>, b: seq<Bytes>, x: Bytes, tail: Bytes)
    ensures Heard(link, a + b, tail) == Heard(link, a, x).Then(Heard(link, b, tail))
  {
    if a == [] {
      assert a + b == b;
    } else {
      HeardSplits(link, a[1..], b, x, tail);
      assert (a + b)[1..] == a[1..] + b;
      ThenThen(Piece(link, a[0]), Heard(link, a[1..], x), Heard(link, b, tail));
    }
  }

  /** From a synchronised receiver on, the cuts between reads do not matter. */
  lemma {:induction false} InStep(link: Link, buf: Bytes, chunks: seq<Bytes>, pieces: seq<Bytes>, tail: Bytes)
    requires Acceptable(pieces) && 0 !in tail && |tail| <= MAX_OUTER_FRAME_BYTES
    requires buf + Joined(chunks) == Wire(pieces) + tail && 0 !in buf
    ensures Received(link, buf, chunks) == Heard(link, pieces, tail)
    decreases |chunks|, 0
  {
    if chunks == [] {
      assert buf + Joined(chunks) == buf;
    } else {
      OneReadInStep(link, buf + chunks[0], Joined(chunks[1..]), chunks[1..], pieces, tail) by {
        assert buf + chunks[0] + Joined(chunks[1..]) == buf + Joined(chunks);
      }
    }
  }

  lemma OneReadInStep(link: Link, x: Bytes, y: Bytes, chunks: seq<Bytes>, pieces: seq<Bytes>, tail: Bytes)
    requires Acceptable(pieces) && 0 !in tail && |tail| <= MAX_OUTER_FRAME_BYTES
    requires x + y == Wire(pieces) + tail && y == Joined(chunks)
    ensures Pumped(link, x).Then(Received(link, Pumped(link, x).rest, chunks)) == Heard(link, pieces, tail)
    decreases |chunks|, 1
  {
    hide Parse, Wire, Heard, Piece;
    var k := ReadInside(link, pieces, tail, x, y);
    var r := Parse(link, x).rest;
    assert forall p | p in pieces[k..] :: p in pieces;
    assert k < |pieces| ==> pieces[k] in pieces;
    InStep(link, r, chunks, pieces[k..], tail);
    HeardSplits(link, pieces[..k], pieces[k..], r, tail);
    assert pieces[..k] + pieces[k..] == pieces;
  }

  /** Resynchronisation: after any bytes that end in a delimiter, however they and
      the rest are cut into reads, exactly the pieces that follow are heard. */
  lemma {:induction false} Resynchronises(link: Link, buf: Bytes, chunks: seq<Bytes>, noise: Bytes, pieces: seq<Bytes>, tail: Bytes)
    requires noise != [] ==> noise[|noise| - 1] == 0
    requires noise == [] ==> buf == []
    requires Acceptable(pieces) && 0 !in tail && |tail| <= MAX_OUTER_FRAME_BYTES
    requires Joined(chunks) == noise + (Wire(pieces) + tail)
    ensures Received(link, buf, chunks) == Received(link, buf, Clipped(chunks, |noise|)).Then(Heard(link, pieces, tail))
    decreases |chunks|
  {
    if noise == [] {
      InStep(link, buf, chunks, pieces, tail);
    } else if |noise| <= |chunks[0]| {
      Straddled(link, buf, chunks, noise, pieces, tail);
    } else {
      var c := chunks[0];
      var more := noise[|c|..];
      CutFront(c, Joined(chunks[1..]), noise, Wire(pieces) + tail);
      var p := Pumped(link, buf + c);
      Resynchronises(link, p.rest, chunks[1..], more, pieces, tail);
      var clip := Clipped(chunks[1..], |more|);
      assert Clipped(chunks, |noise|) == [c] + clip;
      assert ([c] + clip)[1..] == clip;
      ThenThen(p, Received(link, p.rest, clip), Heard(link, pieces, tail));
    }
  }

  /** The read in which the noise ends. */
  lemma Straddled(link: Link, buf: Bytes, chunks: seq<Bytes>, noise: Bytes, pieces: seq<Bytes>, tail: Bytes)
    requires chunks != [] && noise != [] && noise[|noise| - 1] == 0 && |noise| <= |chunks[0]|
    requires Acceptable(pieces) && 0 !in tail && |tail| <= MAX_OUTER_FRAME_BYTES
    requires Joined(chunks) == noise + (Wire(pieces) + tail)
    ensures Received(link, buf, chunks) == Received(link, buf, Clipped(chunks, |noise|)).Then(Heard(link, pieces, tail))
  {
    hide Parse, Wire, Heard, Piece;
    var c, rest := chunks[0], Joined(chunks[1..]);
    var more, n := c[|noise|..], buf + noise;
    CutFront(noise, Wire(pieces) + tail, c, rest);
    assert buf + c == n + more;
    ParseSplits(link, n, more);
    var p, q := Parse(link, n), Parse(link, more);
    assert Parse(link, buf + c) == p.Then(q);
    assert Pumped(link, buf + c) == p.Then(Pumped(link, more));
    OneReadInStep(link, more, rest, chunks[1..], pieces, tail);
    ThenThen(p, Pumped(link, more), Received(link, Pumped(link, more).rest, chunks[1..]));
    assert Received(link, buf, chunks) == p.Then(Heard(link, pieces, tail));
    OneRead(link, buf, noise);
    assert Clipped(chunks, |noise|) == [noise];
  }

  lemma OneRead(link: Link, buf: Bytes, chunk: Bytes)
    ensures var p := Pumped(link, buf + chunk); Received(link, buf, [chunk]) == Parsed(p.frames, p.dropped, p.rest)
  {
    assert [chunk][1..] == [];
  }

  /* ---- frames ---- */

  predicate Fits(link: Link, f: Frame) {
    (f.channel == link.ota || f.channel == link.app) && |link.encode([f.channel] + f.payload)| <= MAX_OUTER_FRAME_BYTES
  }

  function Encoded(link: Link, frames: seq<Frame>): seq<Bytes> {
    seq(|frames|, i requires 0 <= i < |frames| => link.encode([frames[i].channel] + frames[i].payload))
  }

  function Sent(link: Link, frames: seq<Frame>): Bytes {
    if frames == [] then [] else Framed(link, frames[0]) + Sent(link, frames[1..])
  }

  lemma {:induction false} EncodedHeard(link: Link, frames: seq<Frame>)
    requires link.Lawful() && forall f | f in frames :: Fits(link, f)
    ensures Acceptable(Encoded(link, frames)) && Wire(Encoded(link, frames)) == Sent(link, frames)
    ensures Heard(link, Encoded(link, frames), []) == Parsed(frames, 0, [])
  {
    var pieces := Encoded(link, frames);
    if frames != [] {
      var f := frames[0];
      assert f in frames;
      EncodedHeard(link, frames[1..]);
      assert pieces[1..] == Encoded(link, frames[1..]) && pieces[0] == link.encode([f.channel] + f.payload);
      FrameHeard(link, f);
      assert [f] + frames[1..] == frames;
    }
  }

  /** After any bytes that end in a delimiter every frame sent is delivered exactly
      once, in order, with nothing added or counted as dropped, for all ways of
      cutting the stream into reads. */
  lemma EveryFrameOnce(link: Link, buf: Bytes, chunks: seq<Bytes>, noise: Bytes, frames: seq<Frame>)
    requires link.Lawful() && forall f | f in frames :: Fits(link, f)
    requires noise != [] ==> noise[|noise| - 1] == 0
    requires noise == [] ==> buf == []
    requires Joined(chunks) == noise + Sent(link, frames)
    ensures var before := Received(link, buf, Clipped(chunks, |noise|));
            Received(link, buf, chunks) == Parsed(before.frames + frames, before.dropped, [])
  {
    EncodedHeard(link, frames);
    assert Sent(link, frames) + [] == Sent(link, frames);
    Resynchronises(link, buf, chunks, noise, Encoded(link, frames), []);
  }

  /** Over-long input is the exception: given up in the middle, its end is taken for
      a frame of its own, so there the cuts between reads do matter. */
  lemma OverlongTailIsHeard(link: Link, x: Bytes, f: Frame)
    requires link.Lawful() && Fits(link, f) && 0 !in x && |x| > MAX_OUTER_FRAME_BYTES
    ensures Received(link, [], [x, Framed(link, f)]).frames == [f]
    ensures Received(link, [], [x + Framed(link, f)]).frames == []
  {
    var e := link.encode([f.channel] + f.payload);
    FrameHeard(link, f);
    FindNone(x);
    var p, wire := Pumped(link, x), Framed(link, f);
    assert p == Parsed([], 1, []);
    EndsInPiece(link, e);
    assert Pumped(link, wire) == Parsed([f], 0, []);
    OneRead(link, [], wire);
    NothingAdded(wire);
    NothingAdded(x);
    assert [x, wire][1..] == [wire];
    assert Received(link, [], [x, wire]) == p.Then(Received(link, p.rest, [wire]));
    EndsInPiece(link, x + e);
    Regroup(x, e, [0]);
    OneRead(link, [], x + wire);
    NothingAdded(x + wire);
  }

  lemma EndsInPiece(link: Link, a: Bytes)
    requires 0 !in a
    ensures Parse(link, a + [0]) == Piece(link, a).Then(Parsed([], 0, []))
  {
    ParseFront(link, a, []);
    NothingAdded(a + [0]);
  }

  lemma FrameHeard(link: Link, f: Frame)
    requires link.Lawful() && Fits(link, f)
    ensures Piece(link, link.encode([f.channel] + f.payload)) == Parsed([f], 0, [])
  {
    var x := [f.channel] + f.payload;
    assert link.decode(link.encode(x)) == Some(x);
    assert x[1..] == f.payload;
  }

  /* ---- nothing is unaccounted for ---- */

  /** A piece that decodes to a frame of neither channel. */
  predicate Foreign(link: Link, piece: Bytes) {
    && piece != [] && |piece| <= MAX_OUTER_FRAME_BYTES
    && var x := link.decode(piece); x.Some? && x.value != [] && x.value[0] != link.ota && x.value[0] != link.app
  }

  function ForeignPieces(link: Link, pieces: seq<Bytes>): nat {
    if pieces == [] then 0 else (if Foreign(link, pieces[0]) then 1 else 0) + ForeignPieces(link, pieces[1..])
  }

  function FullPieces(pieces: seq<Bytes>): nat {
    if pieces == [] then 0 else (if pieces[0] != [] then 1 else 0) + FullPieces(pieces[1..])
  }

  lemma PieceCounts(link: Link, piece: Bytes)
    ensures var p := Piece(link, piece);
            && |p.frames| + p.dropped + (if Foreign(link, piece) then 1 else 0) == (if piece != [] then 1 else 0)
            && forall f | f in p.frames :: f.channel == link.ota || f.channel == link.app
  {}

  /** Every piece between two delimiters that is not empty is one frame of the two channels,
      is counted as dropped, or is a frame of another channel; and only those two get
      frames. */
  lemma {:induction false} EveryPieceCounts(link: Link, pieces: seq<Bytes>)
    requires ZeroFree(pieces)
    ensures var p := Parse(link, Wire(pieces));
            && |p.frames| + p.dropped + ForeignPieces(link, pieces) == FullPieces(pieces)
            && p.rest == [] && forall f | f in p.frames :: f.channel == link.ota || f.channel == link.app
  {
    hide Piece, Foreign;
    if pieces == [] {
      assert Find([]) == 0;
    } else {
      assert pieces[0] in pieces && forall x | x in pieces[1..] :: x in pieces;
      ParseFront(link, pieces[0], Wire(pieces[1..]));
      PieceCounts(link, pieces[0]);
      EveryPieceCounts(link, pieces[1..]);
    }
  }
}
