/**
 * Pieces, moves and roles: the value types shared by the board and the rules engine
 * (BreakthruGamePieceType.cs, GamePiece.cs, BreakthruGamePiece.cs, Move.cs and the
 * PlayerRole enum of BreakthruGameplay.cs).
 */
module Pieces {
  /**
   * A position. System.Windows.Point holds two doubles; they are modelled as exact
   * reals, so the half-integer reserve slot of the flagship, (-1.5, 0), is representable
   * and `==` is exact equality, as the C# code uses it.
   */
  datatype Point = Point(x: real, y: real)

  /** The three kinds of Breakthru pieces. */
  datatype PieceType = GoldEscort | GoldFlagship | Silvership

  /** The two roles a player can take. */
  datatype PlayerRole = Gold | Silver

  /**
   * A piece: a type fixed at construction and a position, the only thing that changes.
   * In the model a piece is identified by its index in the board's piece list, never by value.
   */
  datatype Piece = Piece(kind: PieceType, position: Point)

  /** A move: which piece (its index in the board's list) and where it shall go. */
  datatype Move = Move(piece: nat, destination: Point)

  /** The default position a piece gets when constructed with a type only. */
  const DefaultPosition: Point := Point(0.0, 0.0)

  /** A piece constructed from its type alone. */
  function NewPiece(kind: PieceType): (p: Piece)
    ensures p.kind == kind && p.position == DefaultPosition
  {
    Piece(kind, DefaultPosition)
  }

  /**
   * The position setter: it accepts any point whatsoever, the rules are checked
   * elsewhere, and it leaves the type alone.
   */
  function SetPosition(p: Piece, position: Point): (q: Piece)
    ensures q.kind == p.kind && q.position == position
  {
    p.(position := position)
  }

  /** The role that is not `role`. */
  function Other(role: PlayerRole): (r: PlayerRole)
    ensures r != role
  {
    if role == Gold then Silver else Gold
  }
}
