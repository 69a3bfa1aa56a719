/**
 * The rectangular board abstraction (GameBoard.cs): queries over the board's list
 * of pieces. The list order is the order the LINQ lookups scan.
 */
module GameBoard {
  import opened Wrappers
  import opened Pieces

  /** True iff `p` lies on a `width` × `height` board whose lowest coordinates are 0. */
  predicate OnBoard(width: int, height: int, p: Point)
  {
    0.0 <= p.x < width as real && 0.0 <= p.y < height as real
  }

  /** No piece of the list, on or off the board, is at exactly `p` (the negated LINQ `Any`). */
  predicate IsEmpty(pieces: seq<Piece>, p: Point)
    decreases |pieces|
  {
    |pieces| == 0 || (pieces[0].position != p && IsEmpty(pieces[1..], p))
  }

  /**
   * The index of the first piece of the list at exactly `p`, or None (the LINQ
   * `FirstOrDefault`, where None stands for null).
   */
  function PieceAt(pieces: seq<Piece>, p: Point): (r: Option<nat>)
    ensures r.Some? ==> r.value < |pieces| && pieces[r.value].position == p
    decreases |pieces|
  {
    if |pieces| == 0 then None
    else if pieces[0].position == p then Some(0)
    else match PieceAt(pieces[1..], p)
      case None => None
      case Some(i) => Some(i + 1)
  }

  /** The list after the piece at index `i` has been given the position `p`; nothing else changes. */
  function Relocate(pieces: seq<Piece>, i: nat, p: Point): (r: seq<Piece>)
    requires i < |pieces|
    ensures |r| == |pieces| && r[i].position == p
    ensures forall j :: 0 <= j < |r| ==> r[j].kind == pieces[j].kind
    ensures forall j :: 0 <= j < |r| && j != i ==> r[j] == pieces[j]
  {
    pieces[i := SetPosition(pieces[i], p)]
  }

  /** `IsEmpty(p)` holds iff no piece in the list has position exactly `p`. */
  lemma {:induction false} IsEmptyIff(pieces: seq<Piece>, p: Point)
    ensures IsEmpty(pieces, p) <==> forall i :: 0 <= i < |pieces| ==> pieces[i].position != p
    decreases |pieces|
  {
    if |pieces| > 0 {
      IsEmptyIff(pieces[1..], p);
      assert forall i :: 1 <= i < |pieces| ==> pieces[i] == pieces[1..][i - 1];
    }
  }

  /**
   * `PieceAt(p)` is the first piece in list order whose position is `p`, and it is
   * None exactly when no piece is at `p`.
   */
  lemma {:induction false} PieceAtIsFirst(pieces: seq<Piece>, p: Point)
    ensures PieceAt(pieces, p).Some? ==>
              forall j :: 0 <= j < PieceAt(pieces, p).value ==> pieces[j].position != p
    ensures PieceAt(pieces, p).None? <==> forall i :: 0 <= i < |pieces| ==> pieces[i].position != p
    decreases |pieces|
  {
    if |pieces| > 0 && pieces[0].position != p {
      PieceAtIsFirst(pieces[1..], p);
      assert forall i :: 1 <= i < |pieces| ==> pieces[i] == pieces[1..][i - 1];
    }
  }

  /** `IsEmpty(p) == (PieceAt(p) == null)`. */
  lemma EmptyIffNoPieceAt(pieces: seq<Piece>, p: Point)
    ensures IsEmpty(pieces, p) <==> PieceAt(pieces, p).None?
  {
    IsEmptyIff(pieces, p);
    PieceAtIsFirst(pieces, p);
  }

  /** Relocating one piece elsewhere leaves a position that other pieces hold occupied. */
  lemma RelocateKeepsOthers(pieces: seq<Piece>, i: nat, dest: Point, q: Point)
    requires i < |pieces| && q != dest
    ensures IsEmpty(Relocate(pieces, i, dest), q) <==>
              forall j :: 0 <= j < |pieces| && j != i ==> pieces[j].position != q
  {
    IsEmptyIff(Relocate(pieces, i, dest), q);
  }
}
