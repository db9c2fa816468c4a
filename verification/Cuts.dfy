/** When the cuts between reads matter: the receiver gives up on an over-long
    remainder, and what follows it up to the next delimiter is taken for a piece of
    its own. */
module Cuts {
  import opened Frames

  /** No end of a piece that a receiver may be left with is a frame. */
  ghost predicate Tame(link: Link, pieces: seq<Bytes>) {
    forall p, n | p in pieces && MAX_OUTER_FRAME_BYTES < n <= |p| :: Piece(link, p[n..]).frames == []
  }

  /** Whatever the reads, the frames are those of the pieces. */
  ghost predicate CutsDoNotMatter(link: Link, pieces: seq<Bytes>, tail: Bytes) {
    forall chunks | Joined(chunks) == Wire(pieces) + tail ::
      Received(link, [], chunks).frames == Heard(link, pieces, tail).frames
  }

  lemma TameRest(link: Link, pieces: seq<Bytes>, k: nat, n: nat)
    requires Tame(link, pieces) && k < |pieces| && n <= |pieces[k]|
    ensures Tame(link, [pieces[k][n..]] + pieces[k + 1..]) && Tame(link, pieces[k..])
  {
    var p, rest := pieces[k], [pieces[k][n..]] + pieces[k + 1..];
    assert p in pieces;
    forall q, m | q in rest && MAX_OUTER_FRAME_BYTES < m <= |q| ensures Piece(link, q[m..]).frames == [] {
      if q == p[n..] {
        assert q[m..] == p[n + m..];
      } else {
        assert q in pieces;
      }
    }
    assert forall q | q in pieces[k..] :: q in pieces;
  }

  lemma HeardFrames(link: Link, pieces: seq<Bytes>, k: nat, tail: Bytes, x: Bytes)
    requires k <= |pieces|
    ensures Heard(link, pieces, tail).frames == Heard(link, pieces[..k], x).frames + Heard(link, pieces[k..], tail).frames
  {
    HeardSplits(link, pieces[..k], pieces[k..], x, tail);
    assert pieces[..k] + pieces[k..] == pieces;
  }

  /** Giving up inside an over-long piece: what is left is the stream of its end and
      of the later pieces. */
  lemma GivenUp(link: Link, pieces: seq<Bytes>, tail: Bytes, r: Bytes, y: Bytes)
    requires ZeroFree(pieces) && pieces != [] && Tame(link, pieces)
    requires r + y == Wire(pieces) + tail && 0 !in r && |r| > MAX_OUTER_FRAME_BYTES
    ensures |r| <= |pieces[0]|
    ensures var left := [pieces[0][|r|..]] + pieces[1..];
            && y == Wire(left) + tail && Tame(link, left) && ZeroFree(left)
            && Heard(link, left, tail).frames == Heard(link, pieces, tail).frames
  {
    var p, later := pieces[0], Wire(pieces[1..]) + tail;
    assert p in pieces;
    Regroup(p + [0], Wire(pieces[1..]), tail);
    Regroup(p, [0], later);
    assert (r + y)[|p|] == 0;
    CutFront(r, y, p, [0] + later);
    var n := |r|;
    var left := [p[n..]] + pieces[1..];
    assert left[1..] == pieces[1..];
    Regroup(p[n..], [0], later);
    Regroup(p[n..] + [0], Wire(pieces[1..]), tail);
    TameRest(link, pieces, 0, n);
    assert Piece(link, p[n..]).frames == [];
    assert Piece(link, p).frames == [];
  }

  lemma {:induction false} TameIsEnough(link: Link, buf: Bytes, chunks: seq<Bytes>, pieces: seq<Bytes>, tail: Bytes)
    requires ZeroFree(pieces) && 0 !in tail && Tame(link, pieces)
    requires buf + Joined(chunks) == Wire(pieces) + tail && 0 !in buf
    ensures Received(link, buf, chunks).frames == Heard(link, pieces, tail).frames
    decreases |chunks|
  {
    hide Parse, Piece, Tame;
    if chunks == [] {
      assert buf + Joined(chunks) == buf;
    } else {
      var x, y := buf + chunks[0], Joined(chunks[1..]);
      assert x + y == buf + Joined(chunks);
      var k := ReadInside(link, pieces, tail, x, y);
      var r := Parse(link, x).rest;
      HeardFrames(link, pieces, k, tail, r);
      RestTame(link, pieces, k);
      if |r| <= MAX_OUTER_FRAME_BYTES {
        TameIsEnough(link, r, chunks[1..], pieces[k..], tail);
      } else if k == |pieces| {
        NothingAdded(tail);
        assert y == tail[|r|..] by { CutFront(r, y, tail, []); NothingAdded(tail[|r|..]); }
        NothingAdded(y);
        TameIsEnough(link, [], chunks[1..], [], y);
      } else {
        GivenUp(link, pieces[k..], tail, r, y);
        NothingAdded(y);
        TameIsEnough(link, [], chunks[1..], [pieces[k][|r|..]] + pieces[k..][1..], tail);
      }
    }
  }

  lemma RestTame(link: Link, pieces: seq<Bytes>, k: nat)
    requires Tame(link, pieces) && ZeroFree(pieces) && k <= |pieces|
    ensures Tame(link, pieces[k..]) && ZeroFree(pieces[k..])
  {
    assert forall q | q in pieces[k..] :: q in pieces;
  }

  lemma {:induction false} ParseWire(link: Link, pieces: seq<Bytes>, tail: Bytes)
    requires ZeroFree(pieces) && 0 !in tail
    ensures Parse(link, Wire(pieces) + tail) == Heard(link, pieces, tail)
  {
    if pieces == [] {
      assert [] + tail == tail;
      FindNone(tail);
    } else {
      assert pieces[0] in pieces;
      ParseWire(link, pieces[1..], tail);
      Regroup(pieces[0] + [0], Wire(pieces[1..]), tail);
      ParseFront(link, pieces[0], Wire(pieces[1..]) + tail);
    }
  }

  lemma {:induction false} WireJoins(a: seq<Bytes>, b: seq<Bytes>)
    ensures Wire(a + b) == Wire(a) + Wire(b)
  {
    if a == [] {
      assert a + b == b;
    } else {
      WireJoins(a[1..], b);
      assert (a + b)[1..] == a[1..] + b;
      Regroup(a[0] + [0], Wire(a[1..]), Wire(b));
    }
  }

  /** Two reads, cut where a receiver gives up, that hear one frame more. */
  lemma WildIsHeard(link: Link, pieces: seq<Bytes>, tail: Bytes, k: nat, n: nat)
    requires ZeroFree(pieces) && 0 !in tail && k < |pieces| && MAX_OUTER_FRAME_BYTES < n <= |pieces[k]|
    requires Piece(link, pieces[k][n..]).frames != []
    ensures var chunks := [Wire(pieces[..k]) + pieces[k][..n], Wire([pieces[k][n..]] + pieces[k + 1..]) + tail];
            Joined(chunks) == Wire(pieces) + tail
            && |Received(link, [], chunks).frames| > |Heard(link, pieces, tail).frames|
  {
    hide Parse;
    var p := pieces[k];
    var front, back := pieces[..k], [p[n..]] + pieces[k + 1..];
    var x, y := Wire(front) + p[..n], Wire(back) + tail;
    RestZeroFree(pieces, k, n);
    CutInPiece(pieces, tail, k, n);
    ParseWire(link, front, p[..n]);
    ParseWire(link, back, tail);
    HeardRest(link, front, p[..n]);
    TwoReads(link, x, y);
    assert back[0] == p[n..] && back[1..] == pieces[k + 1..];
    HeardFrames(link, pieces, k, tail, p[..n]);
    assert pieces[k..][1..] == pieces[k + 1..] && pieces[k..][0] == p;
    assert Piece(link, p).frames == [];
  }

  lemma RestZeroFree(pieces: seq<Bytes>, k: nat, n: nat)
    requires ZeroFree(pieces) && k < |pieces| && n <= |pieces[k]|
    ensures ZeroFree(pieces[..k]) && ZeroFree([pieces[k][n..]] + pieces[k + 1..]) && 0 !in pieces[k][..n]
  {
    assert pieces[k] in pieces;
    assert forall q | q in pieces[..k] :: q in pieces;
    assert forall q | q in pieces[k + 1..] :: q in pieces;
  }

  lemma CutInPiece(pieces: seq<Bytes>, tail: Bytes, k: nat, n: nat)
    requires k < |pieces| && n <= |pieces[k]|
    ensures Joined([Wire(pieces[..k]) + pieces[k][..n], Wire([pieces[k][n..]] + pieces[k + 1..]) + tail]) == Wire(pieces) + tail
  {
    var p, front, rest := pieces[k], pieces[..k], pieces[k + 1..];
    var x: Bytes, y: Bytes := Wire(front) + p[..n], Wire([p[n..]] + rest) + tail;
    assert ([p[n..]] + rest)[1..] == rest && ([p] + rest)[1..] == rest;
    assert pieces == front + ([p] + rest);
    WireJoins(front, [p] + rest);
    assert p == p[..n] + p[n..];
    assert Wire(pieces) == Wire(front) + (p + [0] + Wire(rest));
    assert Wire([p[n..]] + rest) == p[n..] + [0] + Wire(rest);
    assert x + y == Wire(pieces) + tail;
    assert [x, y][1..] == [y];
    assert [y][1..] == [];
    NothingAdded(y);
    assert Joined([y]) == y;
  }

  lemma {:induction false} HeardRest(link: Link, pieces: seq<Bytes>, tail: Bytes)
    ensures Heard(link, pieces, tail).rest == tail
  {
    if pieces != [] { HeardRest(link, pieces[1..], tail); }
  }

  lemma TwoReads(link: Link, x: Bytes, y: Bytes)
    requires |Parse(link, x).rest| > MAX_OUTER_FRAME_BYTES
    ensures Received(link, [], [x, y]).frames == Parse(link, x).frames + Parse(link, y).frames
  {
    NothingAdded(x);
    NothingAdded(y);
    assert [x, y][1..] == [y];
    OneRead(link, [], y);
  }

  /** The cuts between reads do not matter exactly when no end of an over-long
      piece, from the first byte that a receiver may have missed, is itself a frame. */
  lemma CutsIffTame(link: Link, pieces: seq<Bytes>, tail: Bytes)
    requires ZeroFree(pieces) && 0 !in tail
    ensures CutsDoNotMatter(link, pieces, tail) <==> Tame(link, pieces)
  {
    if Tame(link, pieces) {
      forall chunks | Joined(chunks) == Wire(pieces) + tail
        ensures Received(link, [], chunks).frames == Heard(link, pieces, tail).frames
      {
        NothingAdded(Joined(chunks));
        TameIsEnough(link, [], chunks, pieces, tail);
      }
    } else {
      var p, n :| p in pieces && MAX_OUTER_FRAME_BYTES < n <= |p| && Piece(link, p[n..]).frames != [];
      var k :| 0 <= k < |pieces| && pieces[k] == p;
      WildIsHeard(link, pieces, tail, k, n);
      var chunks := [Wire(pieces[..k]) + p[..n], Wire([p[n..]] + pieces[k + 1..]) + tail];
      assert Received(link, [], chunks).frames != Heard(link, pieces, tail).frames;
    }
  }
}
