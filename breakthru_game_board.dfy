/**
 * The Breakthru board (BreakthruGameBoard.cs): an 11 × 11 grid owning a fixed list of
 * 33 pieces, their off-board reserve slots, and the two counters that give captured
 * pieces collision-free "removed" slots.
 */
module BreakthruGameBoard {
  import opened Wrappers
  import opened Pieces
  import opened GameBoard

  const Width: int := 11
  const Height: int := 11

  /** The flagship's required starting cell, the centre of the board. */
  const OriginalFlagshipPosition: Point := Point(5.0, 5.0)

  /** The reserve slot of the flagship, half a column left of the escorts. */
  const FlagshipReserve: Point := Point(-1.5, 0.0)

  /** C#'s integer `/`, which truncates toward zero (Dafny's `/` is Euclidean). */
  function CsDiv(a: int, b: int): int
    requires b > 0
  {
    if a >= 0 then a / b else -((-a) / b)
  }

  /** The type the constructor gives the piece at list index `i`: 20 silverships, 12 escorts, the flagship. */
  function KindAt(i: nat): PieceType
  {
    if i < 20 then Silvership else if i < 32 then GoldEscort else GoldFlagship
  }

  /** The list holds exactly the constructor's 33 pieces, in the constructor's order. */
  predicate Layout(pieces: seq<Piece>)
  {
    |pieces| == 33 && forall i :: 0 <= i < 33 ==> pieces[i].kind == KindAt(i)
  }

  /** The gold area, x and y both in [3, 7]. */
  predicate InGoldArea(p: Point)
  {
    p.x >= 3.0 && p.x <= 7.0 && p.y >= 3.0 && p.y <= 7.0
  }

  /** The board's own `OnBoard`, with Width = Height = 11. */
  predicate OnThisBoard(p: Point)
  {
    OnBoard(Width, Height, p)
  }

  /** The first piece of type GoldFlagship in list order, or None (the LINQ `FirstOrDefault`). */
  function GoldFlagshipOf(pieces: seq<Piece>): (r: Option<nat>)
    ensures r.Some? ==> r.value < |pieces| && pieces[r.value].kind == GoldFlagship
    ensures r.Some? ==> forall j :: 0 <= j < r.value ==> pieces[j].kind != GoldFlagship
    ensures r.None? <==> forall j :: 0 <= j < |pieces| ==> pieces[j].kind != GoldFlagship
    decreases |pieces|
  {
    if |pieces| == 0 then None
    else if pieces[0].kind == GoldFlagship then Some(0)
    else match GoldFlagshipOf(pieces[1..])
      case None => None
      case Some(i) => Some(i + 1)
  }

  /** The indices of the pieces of type `kind`, in list order (the LINQ query ... `ToList()`). */
  function IndicesOfKind(pieces: seq<Piece>, kind: PieceType): (r: seq<nat>)
    ensures forall k :: 0 <= k < |r| ==> r[k] < |pieces| && pieces[r[k]].kind == kind
    ensures forall k, l :: 0 <= k < l < |r| ==> r[k] < r[l]
    decreases |pieces|
  {
    if |pieces| == 0 then []
    else
      var rest := IndicesOfKind(pieces[..|pieces| - 1], kind);
      if pieces[|pieces| - 1].kind == kind then rest + [|pieces| - 1] else rest
  }

  /** Reserve slot of the i-th silvership: two columns right of the board, ten per column. */
  function SilverReserve(i: nat): Point
  {
    Point((Width + i / 10) as real, (i % 10) as real)
  }

  /** Reserve slot of the i-th escort: two columns left of the board, six per column, rows 1 to 6. */
  function EscortReserve(i: nat): Point
  {
    Point((CsDiv(-(i as int), 6) - 1) as real, (i % 6 + 1) as real)
  }

  /** Slot of the n-th captured gold piece: right of the board, ten per column. */
  function GoldRemovedSlot(n: nat): Point
  {
    Point((Width + n / 10) as real, (n % 10) as real)
  }

  /** Slot of the n-th captured silvership: left of the board, ten per column. */
  function SilverRemovedSlot(n: nat): Point
  {
    Point((CsDiv(-(n as int), 10) - 1) as real, (n % 10) as real)
  }

  /** Where `ResetPieces` parks the piece at list index `i` of the constructor's layout. */
  function ReservePosition(i: nat): Point
  {
    if i < 20 then SilverReserve(i) else if i < 32 then EscortReserve(i - 20) else FlagshipReserve
  }

  /** The piece list right after construction or `ResetPieces`. */
  function InitialPieces(): (r: seq<Piece>)
    ensures Layout(r)
  {
    seq(33, i requires 0 <= i => Piece(KindAt(i), ReservePosition(i)))
  }

  /** The board's state: its pieces and its two removal counters. */
  datatype BoardState = BoardState(pieces: seq<Piece>, silverRemoved: nat, goldRemoved: nat)

  /**
   * The state after `RemoveFromBoard(piece)`. None stands for null and an index outside
   * the list for a piece of another board: both leave everything unchanged. A member
   * piece goes to the next removed slot of its colour and that colour's counter grows.
   */
  function Removed(s: BoardState, piece: Option<nat>): (r: BoardState)
    ensures |r.pieces| == |s.pieces|
    ensures forall j :: 0 <= j < |s.pieces| ==> r.pieces[j].kind == s.pieces[j].kind
    ensures forall j :: 0 <= j < |s.pieces| && Some(j) != piece ==> r.pieces[j] == s.pieces[j]
    ensures !(piece.Some? && piece.value < |s.pieces|) ==> r == s
    ensures piece.Some? && piece.value < |s.pieces| ==>
              var i := piece.value;
              !OnThisBoard(r.pieces[i].position) &&
              if s.pieces[i].kind == Silvership then
                r.pieces[i].position == SilverRemovedSlot(s.silverRemoved) &&
                r.silverRemoved == s.silverRemoved + 1 && r.goldRemoved == s.goldRemoved
              else
                r.pieces[i].position == GoldRemovedSlot(s.goldRemoved) &&
                r.goldRemoved == s.goldRemoved + 1 && r.silverRemoved == s.silverRemoved
  {
    if piece.Some? && piece.value < |s.pieces| then
      var i := piece.value;
      match s.pieces[i].kind
      case GoldEscort =>
        BoardState(Relocate(s.pieces, i, GoldRemovedSlot(s.goldRemoved)), s.silverRemoved, s.goldRemoved + 1)
      case GoldFlagship =>
        BoardState(Relocate(s.pieces, i, GoldRemovedSlot(s.goldRemoved)), s.silverRemoved, s.goldRemoved + 1)
      case Silvership =>
        BoardState(Relocate(s.pieces, i, SilverRemovedSlot(s.silverRemoved)), s.silverRemoved + 1, s.goldRemoved)
    else s
  }

  /**
   * The container: the list of pieces (the only state the rules change) and the two
   * removal counters.
   */
  class Board {
    var pieces: seq<Piece>
    var silverRemoved: nat
    var goldRemoved: nat

    /** The pieces are the constructor's 33, in its order; only positions ever change. */
    ghost predicate Valid()
      reads this
    {
      Layout(pieces)
    }

    function State(): BoardState
      reads this
    {
      BoardState(pieces, silverRemoved, goldRemoved)
    }

    /** 20 silverships, then 12 escorts, then the flagship, all parked by `ResetPieces`. */
    constructor ()
      ensures Valid()
      ensures State() == BoardState(InitialPieces(), 0, 0)
    {
      var ps: seq<Piece> := [];
      for i := 0 to 20
        invariant |ps| == i
        invariant forall j :: 0 <= j < i ==> ps[j].kind == KindAt(j)
      {
        ps := ps + [NewPiece(Silvership)];
      }
      for i := 0 to 12
        invariant |ps| == 20 + i
        invariant forall j :: 0 <= j < 20 + i ==> ps[j].kind == KindAt(j)
      {
        ps := ps + [NewPiece(GoldEscort)];
      }
      ps := ps + [NewPiece(GoldFlagship)];
      pieces := ps;
      silverRemoved, goldRemoved := 0, 0;
      new;
      ResetPieces();
    }

    /**
     * Parks the i-th silvership at (11 + i/10, i%10), the i-th escort at (-(i/6) - 1, i%6 + 1)
     * and the flagship at (-1.5, 0), and zeroes both removal counters.
     */
    method ResetPieces()
      requires Valid()
      modifies this
      ensures Valid()
      ensures State() == BoardState(InitialPieces(), 0, 0)
    {
      var placed := pieces;
      IndicesInLayout(placed);
      var silverPieces := IndicesOfKind(placed, Silvership);
      for i := 0 to |silverPieces|
        invariant Layout(placed)
        invariant forall j :: 0 <= j < i ==> placed[j].position == ReservePosition(j)
      {
        var next := Relocate(placed, silverPieces[i], SilverReserve(i));
        ParkNext(placed, i, next);
        placed := next;
      }
      IndicesInLayout(placed);
      var goldPieces := IndicesOfKind(placed, GoldEscort);
      for i := 0 to |goldPieces|
        invariant Layout(placed)
        invariant forall j :: 0 <= j < 20 + i ==> placed[j].position == ReservePosition(j)
      {
        var next := Relocate(placed, goldPieces[i], EscortReserve(i));
        ParkNext(placed, 20 + i, next);
        placed := next;
      }
      var flagship := GoldFlagshipOf(placed);
      FlagshipInLayout(placed);
      placed := Relocate(placed, flagship.value, FlagshipReserve);
      AllInReserve(placed);
      pieces := placed;
      silverRemoved := 0;
      goldRemoved := 0;
    }

    /** Sends a captured piece to the next removed slot of its colour; no-op for a non-member. */
    method RemoveFromBoard(piece: Option<nat>)
      requires Valid()
      modifies this
      ensures Valid()
      ensures State() == Removed(old(State()), piece)
    {
      if piece.Some? && piece.value < |pieces| {
        var p := piece.value;
        match pieces[p].kind
        case GoldEscort =>
          pieces := Relocate(pieces, p, GoldRemovedSlot(goldRemoved));
          goldRemoved := goldRemoved + 1;
        case GoldFlagship =>
          pieces := Relocate(pieces, p, GoldRemovedSlot(goldRemoved));
          goldRemoved := goldRemoved + 1;
        case Silvership =>
          pieces := Relocate(pieces, p, SilverRemovedSlot(silverRemoved));
          silverRemoved := silverRemoved + 1;
      }
    }

    /** The unchecked position setter of one member piece. */
    method SetPiecePosition(i: nat, position: Point)
      requires Valid() && i < |pieces|
      modifies this
      ensures Valid()
      ensures State() == old(State()).(pieces := Relocate(old(pieces), i, position))
    {
      pieces := Relocate(pieces, i, position);
    }
  }

  /** In the constructor's layout the silverships are indices 0..19 and the escorts 20..31. */
  lemma IndicesInLayout(pieces: seq<Piece>)
    requires Layout(pieces)
    ensures IndicesOfKind(pieces, Silvership) == seq(20, i => i)
    ensures IndicesOfKind(pieces, GoldEscort) == seq(12, i => 20 + i)
    ensures IndicesOfKind(pieces, GoldFlagship) == [32]
  {
    IndicesInLayoutPrefix(pieces, 33);
    assert pieces[..33] == pieces;
  }

  lemma {:induction false} IndicesInLayoutPrefix(pieces: seq<Piece>, n: nat)
    requires Layout(pieces) && n <= 33
    ensures IndicesOfKind(pieces[..n], Silvership) == seq(if n < 20 then n else 20, i => i)
    ensures IndicesOfKind(pieces[..n], GoldEscort) == seq(if n < 20 then 0 else if n < 32 then n - 20 else 12, i => 20 + i)
    ensures IndicesOfKind(pieces[..n], GoldFlagship) == if n < 33 then [] else [32]
  {
    if n > 0 {
      IndicesInLayoutPrefix(pieces, n - 1);
      assert pieces[..n][..n - 1] == pieces[..n - 1];
    }
  }

  /** Parking piece `n` on its reserve slot extends the parked prefix by one and keeps the layout. */
  lemma ParkNext(placed: seq<Piece>, n: nat, next: seq<Piece>)
    requires Layout(placed) && n < 33
    requires forall j :: 0 <= j < n ==> placed[j].position == ReservePosition(j)
    requires next == Relocate(placed, n, ReservePosition(n))
    ensures Layout(next)
    ensures forall j :: 0 <= j < n + 1 ==> next[j].position == ReservePosition(j)
  {
  }

  /** A list in the layout with every piece on its reserve slot is the initial one. */
  lemma AllInReserve(pieces: seq<Piece>)
    requires Layout(pieces) && forall j :: 0 <= j < 33 ==> pieces[j].position == ReservePosition(j)
    ensures pieces == InitialPieces()
  {
    assert forall j :: 0 <= j < 33 ==> pieces[j] == InitialPieces()[j];
  }

  /** The flagship is the single piece of its type, the last of the list. */
  lemma FlagshipInLayout(pieces: seq<Piece>)
    requires Layout(pieces)
    ensures GoldFlagshipOf(pieces) == Some(32)
    ensures forall i :: 0 <= i < |pieces| ==> (pieces[i].kind == GoldFlagship <==> i == 32)
  {
    assert pieces[32].kind == GoldFlagship;
  }

  /** The four corners lie on the board; one step past either edge does not. */
  lemma OnBoardCorners()
    ensures OnThisBoard(Point(0.0, 0.0)) && OnThisBoard(Point(10.0, 10.0)) &&
            OnThisBoard(Point(0.0, 10.0)) && OnThisBoard(Point(10.0, 0.0))
    ensures !OnThisBoard(Point(-1.0, 0.0)) && !OnThisBoard(Point(0.0, -1.0)) &&
            !OnThisBoard(Point(0.0, 11.0)) && !OnThisBoard(Point(11.0, 0.0))
  {
  }

  /** The board's sample points: the gold area's corners and centre are in it, points just outside are not. */
  lemma InGoldAreaExamples()
    ensures !InGoldArea(Point(0.0, 0.0)) && !InGoldArea(Point(2.0, 2.0)) && !InGoldArea(Point(2.0, 3.0)) &&
            !InGoldArea(Point(3.0, 2.0)) && !InGoldArea(Point(8.0, 8.0)) && !InGoldArea(Point(7.0, 8.0)) &&
            !InGoldArea(Point(8.0, 7.0))
    ensures InGoldArea(Point(3.0, 3.0)) && InGoldArea(Point(5.0, 5.0)) && InGoldArea(Point(7.0, 7.0))
  {
  }

  /** The gold area lies on the board, clear of its outer rim, and holds the centre. */
  lemma GoldAreaInside(p: Point)
    ensures InGoldArea(p) ==> OnThisBoard(p) && p.x != 0.0 && p.y != 0.0 &&
                              p.x != (Width - 1) as real && p.y != (Height - 1) as real
    ensures InGoldArea(Point(5.0, 5.0))
  {
  }

  /** C#'s `-i / d` for a non-negative `i` is `-(i / d)`. */
  lemma CsDivOfNegated(i: nat, d: int)
    requires d > 0
    ensures CsDiv(-(i as int), d) == -(i / d)
  {
  }

  /** Every reserve slot lies outside the 11 × 11 board. */
  lemma ReserveOffBoard(i: nat)
    ensures !OnThisBoard(ReservePosition(i))
  {
    if 20 <= i < 32 {
      CsDivOfNegated(i - 20, 6);
    }
  }

  /** Distinct pieces of the layout get distinct reserve slots. */
  lemma ReserveDistinct(i: nat, j: nat)
    requires i < 33 && j < 33 && i != j
    ensures ReservePosition(i) != ReservePosition(j)
  {
    if i < 20 && j < 20 {
      SlotDigits(i, j, 10);
    } else if 20 <= i < 32 && 20 <= j < 32 {
      CsDivOfNegated(i - 20, 6);
      CsDivOfNegated(j - 20, 6);
      SlotDigits(i - 20, j - 20, 6);
    } else if i < 20 && 20 <= j < 32 {
      CsDivOfNegated(j - 20, 6);
    } else if 20 <= i < 32 && j < 20 {
      CsDivOfNegated(i - 20, 6);
    }
  }

  /** Two numbers with equal quotient and remainder are equal. */
  lemma SlotDigits(n: nat, m: nat, d: nat)
    requires d > 0 && n != m
    ensures n / d != m / d || n % d != m % d
  {
  }

  /**
   * After `ResetPieces` (and after construction) every piece is off the board and no two
   * pieces share a position; that the counters are zero is `Board.ResetPieces`'s own contract.
   */
  lemma ResetPiecesPlacement()
    ensures forall i :: 0 <= i < 33 ==> !OnThisBoard(InitialPieces()[i].position)
    ensures forall i, j :: 0 <= i < 33 && 0 <= j < 33 && i != j ==>
              InitialPieces()[i].position != InitialPieces()[j].position
  {
    forall i | 0 <= i < 33
      ensures !OnThisBoard(InitialPieces()[i].position)
    {
      ReserveOffBoard(i);
    }
    forall i, j | 0 <= i < 33 && 0 <= j < 33 && i != j
      ensures InitialPieces()[i].position != InitialPieces()[j].position
    {
      ReserveDistinct(i, j);
    }
  }

  /** Removed slots of one colour are distinct for distinct counter values. */
  lemma RemovedSlotsInjective(n: nat, m: nat)
    requires n != m
    ensures SilverRemovedSlot(n) != SilverRemovedSlot(m)
    ensures GoldRemovedSlot(n) != GoldRemovedSlot(m)
  {
    CsDivOfNegated(n, 10);
    CsDivOfNegated(m, 10);
    SlotDigits(n, m, 10);
  }

  /**
   * Two successive removals of different pieces of the same colour leave the two
   * victims in different slots, because the colour's counter has grown in between.
   */
  lemma SuccessiveRemovalsDistinct(s: BoardState, a: nat, b: nat)
    requires a < |s.pieces| && b < |s.pieces| && a != b
    requires (s.pieces[a].kind == Silvership) == (s.pieces[b].kind == Silvership)
    ensures var s2 := Removed(Removed(s, Some(a)), Some(b));
            s2.pieces[a].position != s2.pieces[b].position
  {
    var s1 := Removed(s, Some(a));
    if s.pieces[a].kind == Silvership {
      RemovedSlotsInjective(s.silverRemoved, s1.silverRemoved);
    } else {
      RemovedSlotsInjective(s.goldRemoved, s1.goldRemoved);
    }
  }
}
