/**
 Cutting a server-sent event stream into frames at blank lines.

 `Split` is the simple reading of a whole stream; the transport delivers the
 stream in arbitrary chunks, and `SplitExtends` is why that makes no difference.
 */
module Frames {
  import opened Base

  type byte = n: nat | n < 256
  type Bytes = seq<byte>

  const CR: byte := 13
  const LF: byte := 10
  const LF_LF: Bytes := [LF, LF]
  const CRLF_CRLF: Bytes := [CR, LF, CR, LF]

  predicate At(buffer: Bytes, pattern: Bytes, i: nat) {
    i + |pattern| <= |buffer| && buffer[i..i + |pattern|] == pattern
  }

  /** The first window at or after `from` that equals `pattern`. */
  function Position(buffer: Bytes, pattern: Bytes, from: nat): (r: Option<nat>)
    requires from <= |buffer|
    ensures r.Some? ==> from <= r.value && At(buffer, pattern, r.value)
    ensures forall i :: from <= i < (if r.Some? then r.value else |buffer|) ==> !At(buffer, pattern, i)
    decreases |buffer| - from
  {
    if from == |buffer| then None
    else if At(buffer, pattern, from) then Some(from)
    else Position(buffer, pattern, from + 1)
  }

  datatype Boundary = Boundary(end: nat, delimiter: nat)

  function FindFrameBoundary(buffer: Bytes): (r: Option<Boundary>)
  {
    var crlf := Position(buffer, CRLF_CRLF, 0);
    var lf := Position(buffer, LF_LF, 0);
    if crlf.Some? && lf.Some? && crlf.value <= lf.value then Some(Boundary(crlf.value, 4))
    else if lf.Some? then Some(Boundary(lf.value, 2))
    else if crlf.Some? then Some(Boundary(crlf.value, 4))
    else None
  }

  /** A blank line of either spelling starts at `i`. */
  predicate Blank(buffer: Bytes, i: nat) {
    At(buffer, LF_LF, i) || At(buffer, CRLF_CRLF, i)
  }

  ghost predicate NoBlank(buffer: Bytes) {
    forall i :: 0 <= i < |buffer| ==> !Blank(buffer, i)
  }

  lemma {:induction false} AtIsBytes(b: Bytes, i: nat)
    ensures At(b, LF_LF, i) <==> i + 2 <= |b| && b[i] == LF && b[i + 1] == LF
    ensures At(b, CRLF_CRLF, i) <==> i + 4 <= |b| && b[i] == CR && b[i + 1] == LF && b[i + 2] == CR && b[i + 3] == LF
  {
    if i + 2 <= |b| {
      assert b[i..i + 2] == [b[i], b[i + 1]];
    }
    if i + 4 <= |b| {
      assert b[i..i + 4] == [b[i], b[i + 1], b[i + 2], b[i + 3]];
    }
  }

  /** The boundary is the first blank line of either spelling. */
  lemma {:induction false} BoundaryIsFirstBlank(b: Bytes)
    ensures FindFrameBoundary(b).None? <==> NoBlank(b)
    ensures FindFrameBoundary(b).Some? ==>
              var Boundary(end, delimiter) := FindFrameBoundary(b).value;
              && end + delimiter <= |b|
              && ((delimiter == 2 && At(b, LF_LF, end)) || (delimiter == 4 && At(b, CRLF_CRLF, end)))
              && forall i :: 0 <= i < end ==> !Blank(b, i)
  {
    if FindFrameBoundary(b).Some? {
      assert Blank(b, FindFrameBoundary(b).value.end);
    }
  }

  /** Whatever ends at the first blank line is the boundary. */
  lemma {:induction false} FirstBlankIsBoundary(b: Bytes, end: nat, delimiter: nat)
    requires (delimiter == 2 && At(b, LF_LF, end)) || (delimiter == 4 && At(b, CRLF_CRLF, end))
    requires forall i :: 0 <= i < end ==> !Blank(b, i)
    ensures FindFrameBoundary(b) == Some(Boundary(end, delimiter))
  {
    BoundaryIsFirstBlank(b);
    AtIsBytes(b, end);
    assert end < |b| && Blank(b, end);
    var found := FindFrameBoundary(b).value;
    assert Blank(b, found.end);
  }

  lemma {:induction false} BlankInPrefix(b: Bytes, more: Bytes, i: nat, end: nat, delimiter: nat)
    requires (delimiter == 2 && At(b, LF_LF, end)) || (delimiter == 4 && At(b, CRLF_CRLF, end))
    requires i < end && Blank(b + more, i)
    ensures Blank(b, i)
  {
    AtIsBytes(b, end);
    AtIsBytes(b, i);
    AtIsBytes(b + more, i);
  }

  /** A boundary found in what has arrived is still the first one of the whole stream. */
  lemma {:induction false} BoundaryIsStable(b: Bytes, more: Bytes)
    requires FindFrameBoundary(b).Some?
    ensures FindFrameBoundary(b + more) == FindFrameBoundary(b)
  {
    BoundaryIsFirstBlank(b);
    var Boundary(end, delimiter) := FindFrameBoundary(b).value;
    assert (b + more)[end..end + delimiter] == b[end..end + delimiter];
    forall i | 0 <= i < end ensures !Blank(b + more, i) {
      if Blank(b + more, i) {
        BlankInPrefix(b, more, i, end, delimiter);
      }
    }
    FirstBlankIsBoundary(b + more, end, delimiter);
  }

  // ---------------------------------------------------------------- a whole stream

  datatype Piece = Piece(frame: Bytes, delimiter: Bytes)

  datatype Framing = Framing(pieces: seq<Piece>, rest: Bytes) {
    function After(piece: Piece): Framing { Framing([piece] + pieces, rest) }
  }

  function Split(b: Bytes): (r: Framing)
    decreases |b|
  {
    match FindFrameBoundary(b)
    case None => Framing([], b)
    case Some(Boundary(end, delimiter)) =>
      BoundaryIsFirstBlank(b);
      Split(b[end + delimiter..]).After(Piece(b[..end], b[end..end + delimiter]))
  }

  /** What `f` becomes when `more` arrives behind its remainder. */
  function Continue(f: Framing, more: Bytes): Framing {
    var g := Split(f.rest + more);
    Framing(f.pieces + g.pieces, g.rest)
  }

  lemma {:induction false} ContinueAfter(f: Framing, piece: Piece, more: Bytes)
    ensures Continue(f.After(piece), more) == Continue(f, more).After(piece)
  {
    assert ([piece] + f.pieces) + Split(f.rest + more).pieces == [piece] + (f.pieces + Split(f.rest + more).pieces);
  }

  lemma {:induction false} SplitAt(b: Bytes, piece: Piece, tail: Bytes)
    requires b == piece.frame + piece.delimiter + tail
    requires FindFrameBoundary(b) == Some(Boundary(|piece.frame|, |piece.delimiter|))
    ensures Split(b) == Split(tail).After(piece)
  {
    assert b[..|piece.frame|] == piece.frame;
    assert b[|piece.frame|..|piece.frame| + |piece.delimiter|] == piece.delimiter;
    assert b[|piece.frame| + |piece.delimiter|..] == tail;
  }

  lemma {:induction false} SplitAtGrows(b: Bytes, more: Bytes, piece: Piece, tail: Bytes)
    requires b == piece.frame + piece.delimiter + tail
    requires FindFrameBoundary(b) == Some(Boundary(|piece.frame|, |piece.delimiter|))
    ensures Split(b + more) == Split(tail + more).After(piece)
  {
    var whole := b + more;
    assert FindFrameBoundary(whole) == FindFrameBoundary(b) by { BoundaryIsStable(b, more); }
    assert whole == piece.frame + piece.delimiter + (tail + more) by {
      Regroup(piece.frame + piece.delimiter, tail, more);
    }
    SplitAt(whole, piece, tail + more);
  }

  lemma {:induction false} FirstPiece(b: Bytes) returns (piece: Piece, tail: Bytes)
    requires FindFrameBoundary(b).Some?
    ensures b == piece.frame + piece.delimiter + tail && |tail| < |b|
    ensures FindFrameBoundary(b) == Some(Boundary(|piece.frame|, |piece.delimiter|))
  {
    BoundaryIsFirstBlank(b);
    var Boundary(end, delimiter) := FindFrameBoundary(b).value;
    piece, tail := Piece(b[..end], b[end..end + delimiter]), b[end + delimiter..];
  }

  /** Reading on after more has arrived equals reading the whole at once. */
  lemma {:induction false} SplitExtends(b: Bytes, more: Bytes)
    ensures Split(b + more) == Continue(Split(b), more)
    decreases |b|
  {
    if FindFrameBoundary(b).None? {
      assert Split(b) == Framing([], b);
    } else {
      var piece, tail := FirstPiece(b);
      SplitExtends(tail, more);
      SplitAt(b, piece, tail);
      SplitAtGrows(b, more, piece, tail);
      ContinueAfter(Split(tail), piece, more);
    }
  }

  function Join(f: Framing): (r: Bytes)
    decreases |f.pieces|
  {
    if f.pieces == [] then f.rest
    else f.pieces[0].frame + f.pieces[0].delimiter + Join(f.(pieces := f.pieces[1..]))
  }

  lemma {:induction false} JoinAfter(f: Framing, piece: Piece)
    ensures Join(f.After(piece)) == piece.frame + piece.delimiter + Join(f)
  {
    assert f.After(piece).pieces[1..] == f.pieces;
  }

  /** A frame ended by one of the two delimiters, with no blank line completed any earlier. */
  ghost predicate CleanPiece(p: Piece) {
    && (p.delimiter == LF_LF || p.delimiter == CRLF_CRLF)
    && NoBlank(p.frame + p.delimiter[..|p.delimiter| - 1])
  }

  ghost predicate Clean(f: Framing) {
    && (forall k :: 0 <= k < |f.pieces| ==> CleanPiece(f.pieces[k]))
    && NoBlank(f.rest)
  }

  lemma {:induction false} FirstPieceIsClean(b: Bytes, piece: Piece, tail: Bytes)
    requires b == piece.frame + piece.delimiter + tail
    requires FindFrameBoundary(b) == Some(Boundary(|piece.frame|, |piece.delimiter|))
    ensures CleanPiece(piece)
  {
    BoundaryIsFirstBlank(b);
    var end := |piece.frame|;
    assert b[end..end + |piece.delimiter|] == piece.delimiter;
    var early := piece.frame + piece.delimiter[..|piece.delimiter| - 1];
    assert forall k :: 0 <= k < |early| ==> early[k] == b[k];
    forall i | 0 <= i < |early| ensures !Blank(early, i) {
      AtIsBytes(early, i);
      AtIsBytes(b, i);
      AtIsBytes(b, end);
      if i < end { assert !Blank(b, i); }
    }
  }

  lemma {:induction false} CleanAfter(f: Framing, piece: Piece)
    requires Clean(f) && CleanPiece(piece)
    ensures Clean(f.After(piece))
  {
  }

  /** Frames, delimiters and remainder re-concatenate to the stream, and every cut is at the first blank line. */
  lemma {:induction false} SplitIsClean(b: Bytes)
    ensures Join(Split(b)) == b && Clean(Split(b))
    decreases |b|
  {
    if FindFrameBoundary(b).None? {
      BoundaryIsFirstBlank(b);
      assert Split(b) == Framing([], b);
    } else {
      var piece, tail := FirstPiece(b);
      SplitIsClean(tail);
      SplitAt(b, piece, tail);
      FirstPieceIsClean(b, piece, tail);
      CleanAfter(Split(tail), piece);
      JoinAfter(Split(tail), piece);
    }
  }

  lemma {:induction false} NoneEarlier(p: Piece, b: Bytes, i: nat)
    requires CleanPiece(p) && i < |p.frame| && |b| >= |p.frame| + |p.delimiter|
    requires forall k :: 0 <= k < |p.frame| ==> b[k] == p.frame[k]
    requires forall k :: 0 <= k < |p.delimiter| ==> b[|p.frame| + k] == p.delimiter[k]
    ensures !Blank(b, i)
  {
    var early := p.frame + p.delimiter[..|p.delimiter| - 1];
    assert forall k :: 0 <= k < |early| ==> early[k] == b[k];
    assert !Blank(early, i);
    var end, first, second := |p.frame|, p.delimiter[0], p.delimiter[1];
    assert b[end + 0] == first && b[end + 1] == second;
    AtIsBytes(b, i);
    AtIsBytes(early, i);
  }

  lemma {:induction false} CleanPieceIsFirst(p: Piece, more: Bytes)
    requires CleanPiece(p)
    ensures FindFrameBoundary(p.frame + p.delimiter + more) == Some(Boundary(|p.frame|, |p.delimiter|))
  {
    var b, end := p.frame + p.delimiter + more, |p.frame|;
    assert b[end..end + |p.delimiter|] == p.delimiter;
    forall i | 0 <= i < end ensures !Blank(b, i) {
      NoneEarlier(p, b, i);
    }
    FirstBlankIsBoundary(b, end, |p.delimiter|);
  }

  /** No other way of cutting the stream is clean, so the frames are determined by the bytes alone. */
  lemma {:induction false} CleanIsUnique(f: Framing)
    requires Clean(f)
    ensures Split(Join(f)) == f
    decreases |f.pieces|
  {
    if f.pieces == [] {
      BoundaryIsFirstBlank(f.rest);
    } else {
      var piece, tail := f.pieces[0], f.(pieces := f.pieces[1..]);
      CleanIsUnique(tail);
      CleanPieceIsFirst(piece, Join(tail));
      SplitAt(Join(f), piece, Join(tail));
      assert f == tail.After(piece);
    }
  }
}
