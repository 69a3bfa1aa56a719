/**
 * The pure rules of BreakthruGameplay.cs: role ownership, placement validation,
 * straight-line move and diagonal capture legality, and win detection. Each predicate
 * reads the current piece list of the board.
 */
module BreakthruRules {
  import opened Wrappers
  import opened Pieces
  import opened GameBoard
  import opened BreakthruGameBoard

  // ----- Role ownership -----

  /** True iff pieces of type `kind` belong to `role`. */
  predicate PieceTypeMatchesPlayerRole(kind: PieceType, role: PlayerRole)
  {
    (role == Silver && kind == Silvership) || (role == Gold && kind != Silvership)
  }

  /** The colour of a piece type, stated independently of the role test. */
  function Colour(kind: PieceType): PlayerRole
  {
    match kind
    case Silvership => Silver
    case GoldEscort => Gold
    case GoldFlagship => Gold
  }

  /** Silver owns exactly the silverships; Gold owns exactly the escorts and the flagship. */
  lemma RoleOwnership(kind: PieceType, role: PlayerRole)
    ensures PieceTypeMatchesPlayerRole(kind, role) <==> Colour(kind) == role
    ensures PieceTypeMatchesPlayerRole(kind, Silver) <==> kind == Silvership
    ensures PieceTypeMatchesPlayerRole(kind, Gold) <==> (kind == GoldEscort || kind == GoldFlagship)
    ensures PieceTypeMatchesPlayerRole(kind, Gold) != PieceTypeMatchesPlayerRole(kind, Silver)
  {
  }

  /** The number of pieces `role` owns, wherever they are (the count `PlacePieces` computes). */
  function CountOwned(pieces: seq<Piece>, role: PlayerRole): (n: nat)
    ensures n <= |pieces|
    decreases |pieces|
  {
    if |pieces| == 0 then 0
    else CountOwned(pieces[..|pieces| - 1], role) +
         (if PieceTypeMatchesPlayerRole(pieces[|pieces| - 1].kind, role) then 1 else 0)
  }

  /** The owned count is the number of list positions holding a piece of `role`. */
  lemma {:induction false} CountOwnedIsSize(pieces: seq<Piece>, role: PlayerRole)
    ensures CountOwned(pieces, role) == |set i | 0 <= i < |pieces| && PieceTypeMatchesPlayerRole(pieces[i].kind, role)|
    decreases |pieces|
  {
    var owned := set i | 0 <= i < |pieces| && PieceTypeMatchesPlayerRole(pieces[i].kind, role);
    if |pieces| > 0 {
      var n := |pieces| - 1;
      var init := pieces[..n];
      CountOwnedIsSize(init, role);
      var before := set i | 0 <= i < |init| && PieceTypeMatchesPlayerRole(init[i].kind, role);
      if PieceTypeMatchesPlayerRole(pieces[n].kind, role) {
        assert owned == before + {n};
      } else {
        assert owned == before;
      }
    } else {
      assert owned == {};
    }
  }

  /** The number of pieces `role` owns that are on the board (the count `PerformTurn` computes). */
  function CountMovable(pieces: seq<Piece>, role: PlayerRole): nat
    decreases |pieces|
  {
    if |pieces| == 0 then 0
    else
      var last := pieces[|pieces| - 1];
      CountMovable(pieces[..|pieces| - 1], role) +
      (if OnThisBoard(last.position) && PieceTypeMatchesPlayerRole(last.kind, role) then 1 else 0)
  }

  /**
   * The movable count is at most the owned count; it equals it exactly when every piece of
   * `role` is on the board, and it is 0 exactly when none is.
   */
  lemma {:induction false} MovableCounts(pieces: seq<Piece>, role: PlayerRole)
    ensures CountMovable(pieces, role) <= CountOwned(pieces, role)
    ensures CountMovable(pieces, role) == CountOwned(pieces, role) <==>
              forall i :: 0 <= i < |pieces| && PieceTypeMatchesPlayerRole(pieces[i].kind, role) ==>
                OnThisBoard(pieces[i].position)
    ensures CountMovable(pieces, role) == 0 <==>
              forall i :: 0 <= i < |pieces| && PieceTypeMatchesPlayerRole(pieces[i].kind, role) ==>
                !OnThisBoard(pieces[i].position)
    decreases |pieces|
  {
    if |pieces| > 0 {
      var init := pieces[..|pieces| - 1];
      MovableCounts(init, role);
      assert forall i :: 0 <= i < |init| ==> init[i] == pieces[i];
    }
  }

  /** Gold owns 13 pieces and Silver 20 in the constructor's layout. */
  lemma CountOwnedInLayout(pieces: seq<Piece>)
    requires Layout(pieces)
    ensures CountOwned(pieces, Gold) == 13
    ensures CountOwned(pieces, Silver) == 20
  {
    CountOwnedPrefix(pieces, 33);
    assert pieces[..33] == pieces;
  }

  lemma {:induction false} CountOwnedPrefix(pieces: seq<Piece>, n: nat)
    requires Layout(pieces) && n <= 33
    ensures CountOwned(pieces[..n], Gold) == if n < 20 then 0 else n - 20
    ensures CountOwned(pieces[..n], Silver) == if n < 20 then n else 20
  {
    if n > 0 {
      CountOwnedPrefix(pieces, n - 1);
      assert pieces[..n][..n - 1] == pieces[..n - 1];
    }
  }

  // ----- Placement validation -----

  /** A placement can only be legal if the piece is off the board and the destination is empty. */
  predicate BasicPlacementCheck(pieces: seq<Piece>, piece: Piece, position: Point)
  {
    !OnThisBoard(piece.position) && IsEmpty(pieces, position)
  }

  /**
   * Gold placement: the flagship only at the centre, an escort only inside the gold
   * area and never at the centre, a silvership never.
   */
  function IsValidGoldPlacement(pieces: seq<Piece>, piece: Piece, position: Point): (r: bool)
    ensures r ==> BasicPlacementCheck(pieces, piece, position)
    ensures r ==> OnThisBoard(position) && PieceTypeMatchesPlayerRole(piece.kind, Gold)
    ensures piece.kind == GoldFlagship ==>
              (r <==> BasicPlacementCheck(pieces, piece, position) && position == OriginalFlagshipPosition)
    ensures piece.kind == GoldEscort ==>
              (r <==> BasicPlacementCheck(pieces, piece, position) &&
                      InGoldArea(position) && position != OriginalFlagshipPosition)
    ensures piece.kind == Silvership ==> !r
  {
    if !BasicPlacementCheck(pieces, piece, position) then false
    else match piece.kind
      case GoldEscort => InGoldArea(position) && position != OriginalFlagshipPosition
      case GoldFlagship => position == OriginalFlagshipPosition
      case Silvership => false
  }

  /** Silver placement: a silvership only on the board and outside the gold area. */
  function IsValidSilverPlacement(pieces: seq<Piece>, piece: Piece, position: Point): (r: bool)
    ensures r <==> BasicPlacementCheck(pieces, piece, position) && piece.kind == Silvership &&
                   OnThisBoard(position) && !InGoldArea(position)
    ensures r ==> PieceTypeMatchesPlayerRole(piece.kind, Silver) && position != OriginalFlagshipPosition
  {
    if !BasicPlacementCheck(pieces, piece, position) then false
    else piece.kind == Silvership && OnThisBoard(position) && !InGoldArea(position)
  }

  // ----- Movement and capture -----

  function Max(a: real, b: real): real { if a >= b then a else b }
  function Min(a: real, b: real): real { if a <= b then a else b }
  function Abs(a: real): real { if a >= 0.0 then a else -a }

  /** The cell at integer row `k` of the column at `x`. */
  function ColumnCell(x: real, k: int): Point { Point(x, k as real) }

  /** The cell at integer column `k` of the row at `y`. */
  function RowCell(k: int, y: real): Point { Point(k as real, y) }

  /** C#'s `(int)` cast of a double: truncation toward zero. */
  function Trunc(r: real): int
  {
    if r >= 0.0 then r.Floor else -((-r).Floor)
  }

  /**
   * What `IsValidMove` decides: a move along a column or a row (exactly one coordinate
   * changes) whose scanned cells, from `(int)min(dest, origin + 1)` to
   * `(int)max(dest, origin - 1)`, are all free. Nothing requires the destination to
   * be on the board.
   */
  predicate ValidMove(pieces: seq<Piece>, piece: Piece, position: Point)
  {
    var o := piece.position;
    if o.x == position.x && o.y != position.y then
      forall k: int :: Trunc(Min(position.y, o.y + 1.0)) <= k <= Trunc(Max(position.y, o.y - 1.0)) ==>
        PieceAt(pieces, ColumnCell(position.x, k)).None?
    else if o.y == position.y && o.x != position.x then
      forall k: int :: Trunc(Min(position.x, o.x + 1.0)) <= k <= Trunc(Max(position.x, o.x - 1.0)) ==>
        PieceAt(pieces, RowCell(k, position.y)).None?
    else false
  }

  /** The source's scan: it stops at the first occupied cell. */
  method IsValidMove(pieces: seq<Piece>, piece: Piece, position: Point) returns (valid: bool)
    ensures valid == ValidMove(pieces, piece, position)
  {
    var max: int, min: int;
    if piece.position.x == position.x && piece.position.y != position.y {
      max := Trunc(Max(position.y, piece.position.y - 1.0));
      min := Trunc(Min(position.y, piece.position.y + 1.0));
      ghost var low := min;
      while min <= max
        invariant low <= min
        invariant forall k: int :: low <= k < min ==> PieceAt(pieces, ColumnCell(position.x, k)).None?
        decreases max - min
      {
        if PieceAt(pieces, ColumnCell(position.x, min)) != None {
          return false;
        }
        min := min + 1;
      }
      return true;
    } else if piece.position.y == position.y && piece.position.x != position.x {
      max := Trunc(Max(position.x, piece.position.x - 1.0));
      min := Trunc(Min(position.x, piece.position.x + 1.0));
      ghost var low := min;
      while min <= max
        invariant low <= min
        invariant forall k: int :: low <= k < min ==> PieceAt(pieces, RowCell(k, position.y)).None?
        decreases max - min
      {
        if PieceAt(pieces, RowCell(min, position.y)) != None {
          return false;
        }
        min := min + 1;
      }
      return true;
    } else {
      return false;
    }
  }

  /** One step diagonally: both coordinates change by exactly one. */
  predicate DiagonalStep(from: Point, to: Point)
  {
    Abs(from.x - to.x) == 1.0 && Abs(from.y - to.y) == 1.0
  }

  /**
   * A capture: one diagonal step onto the square of a piece of the other colour
   * (the first piece found there). `role` is not consulted, as in the source.
   */
  function IsValidCapture(pieces: seq<Piece>, piece: Piece, position: Point, role: PlayerRole): (r: bool)
    ensures r <==> DiagonalStep(piece.position, position) && PieceAt(pieces, position).Some? &&
                   Colour(pieces[PieceAt(pieces, position).value].kind) != Colour(piece.kind)
    ensures r ==> !IsEmpty(pieces, position)
  {
    var captured := PieceAt(pieces, position);
    EmptyIffNoPieceAt(pieces, position);
    Abs(piece.position.x - position.x) == 1.0 && Abs(piece.position.y - position.y) == 1.0 &&
    captured.Some? &&
    (((piece.kind == GoldFlagship || piece.kind == GoldEscort) && pieces[captured.value].kind == Silvership) ||
     ((pieces[captured.value].kind == GoldFlagship || pieces[captured.value].kind == GoldEscort) &&
      piece.kind == Silvership))
  }

  // ----- Win detection -----

  /**
   * The player who has won, by role (Some(Silver) stands for the silver player), or
   * None: Silver once the flagship is off the board, Gold once it stands on the
   * outer rim of the board.
   */
  function GetWinner(pieces: seq<Piece>): (r: Option<PlayerRole>)
    requires GoldFlagshipOf(pieces).Some?
    ensures var f := pieces[GoldFlagshipOf(pieces).value].position;
            (r == Some(Silver) <==> !OnThisBoard(f)) &&
            (r == Some(Gold) <==> OnThisBoard(f) &&
                                  (f.x == 0.0 || f.y == 0.0 || f.x == (Width - 1) as real || f.y == (Height - 1) as real))
  {
    var flagshipPos := pieces[GoldFlagshipOf(pieces).value].position;
    if !OnThisBoard(flagshipPos) then Some(Silver)
    else if flagshipPos.x == 0.0 || flagshipPos.y == 0.0 ||
            flagshipPos.x == (Width - 1) as real || flagshipPos.y == (Height - 1) as real then Some(Gold)
    else None
  }

  // ----- Properties of the rules -----

  /** A real with no fractional part: every cell and every slot except the flagship's reserve. */
  predicate Integral(r: real)
  {
    r.Floor as real == r
  }

  predicate IntegralPoint(p: Point)
  {
    Integral(p.x) && Integral(p.y)
  }

  /** `k` lies after `from`, walking toward `to`, up to and including `to`. */
  predicate Between(from: int, to: int, k: int)
  {
    from < k <= to || to <= k < from
  }

  /** On integers the truncated min/max bounds of the scan are exactly the cells `Between` origin and destination. */
  lemma ScanRange(from: int, to: int)
    requires from != to
    ensures forall k: int ::
              (Trunc(Min(to as real, from as real + 1.0)) <= k <= Trunc(Max(to as real, from as real - 1.0))) <==>
              Between(from, to, k)
  {
    var lo := if to <= from + 1 then to else from + 1;
    var hi := if to >= from - 1 then to else from - 1;
    assert Min(to as real, from as real + 1.0) == lo as real;
    assert Max(to as real, from as real - 1.0) == hi as real;
    assert Trunc(lo as real) == lo;
    assert Trunc(hi as real) == hi;
  }

  /**
   * For integer cells, `IsValidMove` holds iff exactly one coordinate differs and every
   * cell from one past the origin up to and including the destination is empty. So the
   * destination itself must be empty.
   */
  lemma {:induction false} IsValidMovePath(pieces: seq<Piece>, piece: Piece, position: Point)
    requires IntegralPoint(piece.position) && IntegralPoint(position)
    ensures ValidMove(pieces, piece, position) <==>
              ((piece.position.x == position.x) != (piece.position.y == position.y)) &&
              (piece.position.x == position.x ==>
                 forall k: int :: Between(piece.position.y.Floor, position.y.Floor, k) ==>
                   IsEmpty(pieces, ColumnCell(position.x, k))) &&
              (piece.position.y == position.y ==>
                 forall k: int :: Between(piece.position.x.Floor, position.x.Floor, k) ==>
                   IsEmpty(pieces, RowCell(k, position.y)))
    ensures ValidMove(pieces, piece, position) ==> IsEmpty(pieces, position)
  {
    var o, d := piece.position, position;
    if o.x == d.x && o.y != d.y {
      var a, b := o.y.Floor, d.y.Floor;
      ScanRange(a, b);
      forall k: int
        ensures PieceAt(pieces, ColumnCell(d.x, k)).None? <==> IsEmpty(pieces, ColumnCell(d.x, k))
      {
        EmptyIffNoPieceAt(pieces, ColumnCell(d.x, k));
      }
      assert ColumnCell(d.x, b) == d;
      assert Between(a, b, b);
    } else if o.y == d.y && o.x != d.x {
      var a, b := o.x.Floor, d.x.Floor;
      ScanRange(a, b);
      forall k: int
        ensures PieceAt(pieces, RowCell(k, d.y)).None? <==> IsEmpty(pieces, RowCell(k, d.y))
      {
        EmptyIffNoPieceAt(pieces, RowCell(k, d.y));
      }
      assert RowCell(b, d.y) == d;
      assert Between(a, b, b);
    }
  }

  /** A diagonal step is never a move; it can only be a capture. */
  lemma DiagonalIsNoMove(pieces: seq<Piece>, piece: Piece, position: Point)
    requires DiagonalStep(piece.position, position)
    ensures !ValidMove(pieces, piece, position)
  {
  }

  /**
   * Nothing requires the destination of a move to be on the board: from the freshly
   * reset board, a silvership standing at (0, 0) may move to (0, -2).
   */
  lemma MoveOffBoardExample()
    ensures var pieces := Relocate(InitialPieces(), 0, Point(0.0, 0.0));
            ValidMove(pieces, pieces[0], Point(0.0, -2.0)) && !OnThisBoard(Point(0.0, -2.0))
  {
    var pieces := Relocate(InitialPieces(), 0, Point(0.0, 0.0));
    forall k: int | -2 <= k <= -1
      ensures PieceAt(pieces, ColumnCell(0.0, k)).None?
    {
      forall i | 0 <= i < |pieces|
        ensures pieces[i].position != ColumnCell(0.0, k)
      {
        if 20 <= i < 32 {
          CsDivOfNegated(i - 20, 6);
        }
      }
      PieceAtIsFirst(pieces, ColumnCell(0.0, k));
    }
    assert Trunc(Min(-2.0, 1.0)) == -2;
    assert Trunc(Max(-2.0, -1.0)) == -1;
  }

  /**
   * For a flagship on an integer cell, Gold has won iff the flagship is on the board
   * and one orthogonal step would leave it.
   */
  lemma GoldWinsOnRim(pieces: seq<Piece>)
    requires GoldFlagshipOf(pieces).Some?
    requires IntegralPoint(pieces[GoldFlagshipOf(pieces).value].position)
    ensures var f := pieces[GoldFlagshipOf(pieces).value].position;
            GetWinner(pieces) == Some(Gold) <==>
              OnThisBoard(f) &&
              !(OnThisBoard(Point(f.x - 1.0, f.y)) && OnThisBoard(Point(f.x + 1.0, f.y)) &&
                OnThisBoard(Point(f.x, f.y - 1.0)) && OnThisBoard(Point(f.x, f.y + 1.0)))
  {
    var f := pieces[GoldFlagshipOf(pieces).value].position;
    var x, y := f.x.Floor, f.y.Floor;
    assert f.x == x as real && f.y == y as real;
    if OnThisBoard(f) {
      assert 0 <= x <= 10 && 0 <= y <= 10;
    }
  }

  /** While the flagship stands in the gold area nobody has won. */
  lemma NoWinnerInGoldArea(pieces: seq<Piece>)
    requires GoldFlagshipOf(pieces).Some? && InGoldArea(pieces[GoldFlagshipOf(pieces).value].position)
    ensures GetWinner(pieces).None?
  {
    GoldAreaInside(pieces[GoldFlagshipOf(pieces).value].position);
  }

  /** While the flagship is on the board Gold has a movable piece, so Gold's turn asks for a move. */
  lemma FlagshipKeepsGoldMovable(pieces: seq<Piece>)
    requires Layout(pieces) && OnThisBoard(pieces[32].position)
    ensures CountMovable(pieces, Gold) >= 1
  {
    MovableCounts(pieces, Gold);
    assert PieceTypeMatchesPlayerRole(pieces[32].kind, Gold);
  }
}
