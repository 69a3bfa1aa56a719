/**
 * What the placement phase, the turn phase and the game loop of BreakthruGameplay.cs
 * promise, proved about the functions that play them on values (and so, through the
 * contracts of the `Gameplay` methods, about the engine object).
 */
module GameplayProperties {
  import opened Wrappers
  import opened Pieces
  import opened GameBoard
  import opened BreakthruGameBoard
  import opened BreakthruRules
  import opened ScriptedPlayers
  import opened BreakthruGameplay

  // ----- Placement -----

  /**
   * A round of placement requests `r`: the first request is `pending`, every later one
   * is the retry naming the attempt just refused, and every attempt but an accepted last
   * one was refused.
   */
  lemma {:induction false} PlaceAttemptsRequests(v: Validation, pieces: seq<Piece>, pending: Request, moves: seq<Move>, k: nat,
                                                 r: Asked)
    requires Layout(pieces) && Members(moves) && k <= |moves|
    requires r == PlaceAttempts(v, pieces, pending, moves, k)
    ensures forall j :: 0 < j < |r.requests| ==> r.requests[j] == IllegalMoveAttempt(moves[k + j - 1])
    ensures forall i :: k <= i < r.next - (if r.accepted.Some? then 1 else 0) ==>
              !Accepts(v, pieces, pieces[moves[i].piece], moves[i].destination)
    decreases |moves| - k
  {
    if k < |moves| && !Accepts(v, pieces, pieces[moves[k].piece], moves[k].destination) {
      var r' := PlaceAttempts(v, pieces, IllegalMoveAttempt(moves[k]), moves, k + 1);
      PlaceAttemptsRequests(v, pieces, IllegalMoveAttempt(moves[k]), moves, k + 1, r');
      assert r.requests == [pending] + r'.requests;
      assert forall j :: 0 < j < |r.requests| ==> r.requests[j] == r'.requests[j - 1];
    }
  }

  /** The rule `PlacePieces` passes for `role`. */
  function PlacementRule(role: PlayerRole): Validation
  {
    if role == Gold then IsValidGoldPlacement else IsValidSilverPlacement
  }

  /**
   * Where a placed piece of `role` stands: on the board, the flagship at the centre,
   * an escort elsewhere in the gold area, a silvership outside it.
   */
  predicate PlacedWell(role: PlayerRole, piece: Piece)
  {
    OnThisBoard(piece.position) && PieceTypeMatchesPlayerRole(piece.kind, role) &&
    match piece.kind
    case GoldFlagship => piece.position == OriginalFlagshipPosition
    case GoldEscort => InGoldArea(piece.position) && piece.position != OriginalFlagshipPosition
    case Silvership => !InGoldArea(piece.position)
  }

  /** A move the rule of `role` accepts takes an off-board piece of `role` to an empty square where it stands well. */
  lemma RuleAccepts(role: PlayerRole, pieces: seq<Piece>, piece: Piece, position: Point)
    requires Accepts(PlacementRule(role), pieces, piece, position)
    ensures !OnThisBoard(piece.position) && IsEmpty(pieces, position)
    ensures PlacedWell(role, piece.(position := position))
  {
    if role == Gold {
      assert IsValidGoldPlacement(pieces, piece, position);
    } else {
      assert IsValidSilverPlacement(pieces, piece, position);
    }
  }

  /** 1 for a piece of `role` on the board, else 0: the summand of `CountMovable`. */
  function MovableUnit(piece: Piece, role: PlayerRole): nat
  {
    if OnThisBoard(piece.position) && PieceTypeMatchesPlayerRole(piece.kind, role) then 1 else 0
  }

  /** The movable count of a non-empty list: that of all but the last piece, plus the last one's share. */
  lemma MovableLast(pieces: seq<Piece>, role: PlayerRole)
    requires pieces != []
    ensures CountMovable(pieces, role) ==
            CountMovable(pieces[..|pieces| - 1], role) + MovableUnit(pieces[|pieces| - 1], role)
  {
  }

  /** Replacing one piece changes the movable count by the two pieces' own contributions only. */
  lemma {:induction false} MovableAfterUpdate(pieces: seq<Piece>, i: nat, q: Piece, role: PlayerRole)
    requires i < |pieces|
    ensures CountMovable(pieces[i := q], role) ==
            CountMovable(pieces, role) - MovableUnit(pieces[i], role) + MovableUnit(q, role)
    decreases |pieces|
  {
    var n := |pieces| - 1;
    var updated := pieces[i := q];
    MovableLast(updated, role);
    MovableLast(pieces, role);
    if i == n {
      assert updated[..n] == pieces[..n];
    } else {
      assert updated[..n] == pieces[..n][i := q];
      MovableAfterUpdate(pieces[..n], i, q, role);
    }
  }

  /** Moving one piece changes the movable count by that piece's own contribution only. */
  lemma MovableAfterRelocate(pieces: seq<Piece>, i: nat, p: Point, role: PlayerRole)
    requires i < |pieces|
    ensures CountMovable(Relocate(pieces, i, p), role) ==
            CountMovable(pieces, role) - MovableUnit(pieces[i], role) + MovableUnit(pieces[i].(position := p), role)
  {
    MovableAfterUpdate(pieces, i, SetPosition(pieces[i], p), role);
  }

  /**
   * A placement run `r` under the rule of `role` moves only pieces of `role`, each to
   * where it stands well; a complete one puts `todo` more pieces of `role` on the board.
   */
  lemma {:induction false} PlacementEffect(role: PlayerRole, pieces: seq<Piece>, todo: nat, moves: seq<Move>, k: nat,
                                           r: PlaceRun)
    requires Layout(pieces) && Members(moves) && k <= |moves|
    requires r == Placement(PlacementRule(role), pieces, todo, moves, k)
    ensures forall i :: 0 <= i < 33 ==> r.pieces[i] == pieces[i] || PlacedWell(role, r.pieces[i])
    ensures r.complete ==> CountMovable(r.pieces, role) == CountMovable(pieces, role) + todo
    decreases todo
  {
    if todo > 0 {
      var a := PlaceAttempts(PlacementRule(role), pieces, RequestMove, moves, k);
      if a.accepted.Some? {
        var m := a.accepted.value;
        RuleAccepts(role, pieces, pieces[m.piece], m.destination);
        var next := Relocate(pieces, m.piece, m.destination);
        PlacementEffect(role, next, todo - 1, moves, a.next, Placement(PlacementRule(role), next, todo - 1, moves, a.next));
        MovableAfterRelocate(pieces, m.piece, m.destination, role);
      }
    }
  }

  /** No move of `placed` names the piece at index `i`. */
  predicate Unnamed(placed: seq<Move>, i: nat)
  {
    forall j :: 0 <= j < |placed| ==> placed[j].piece != i
  }

  /**
   * How a placement run `r` proceeds after the round of asking `a` that found a move:
   * the first move carried out is the one that round accepted, and the rest of the run
   * is the run from the next move on, with that piece moved.
   */
  lemma PlacementUnfolds(v: Validation, pieces: seq<Piece>, todo: nat, moves: seq<Move>, k: nat, a: Asked,
                         r': PlaceRun, r: PlaceRun)
    requires Layout(pieces) && Members(moves) && k <= |moves| && todo > 0
    requires a == PlaceAttempts(v, pieces, RequestMove, moves, k) && a.accepted.Some?
    requires r' == Placement(v, Relocate(pieces, a.accepted.value.piece, a.accepted.value.destination), todo - 1, moves, a.next)
    requires r == Placement(v, pieces, todo, moves, k)
    ensures r.placed == [a.accepted.value] + r'.placed && r.pieces == r'.pieces
    ensures r.next == r'.next && r.complete == r'.complete
  {
  }

  /** A placement run `r` carries out at most `todo` moves, and it is complete exactly when it carried out `todo`. */
  lemma {:induction false} PlacementCount(v: Validation, pieces: seq<Piece>, todo: nat, moves: seq<Move>, k: nat,
                                          r: PlaceRun)
    requires Layout(pieces) && Members(moves) && k <= |moves|
    requires r == Placement(v, pieces, todo, moves, k)
    ensures |r.placed| <= todo && (r.complete <==> |r.placed| == todo)
    decreases todo
  {
    if todo > 0 {
      var a := PlaceAttempts(v, pieces, RequestMove, moves, k);
      if a.accepted.Some? {
        var m := a.accepted.value;
        var next := Relocate(pieces, m.piece, m.destination);
        var r' := Placement(v, next, todo - 1, moves, a.next);
        PlacementCount(v, next, todo - 1, moves, a.next, r');
        PlacementUnfolds(v, pieces, todo, moves, k, a, r', r);
      }
    }
  }

  /** The last element of `[m] + rest` is `m` when `rest` is empty, and the last of `rest` otherwise. */
  lemma LastOfCons(m: Move, rest: seq<Move>)
    ensures ([m] + rest)[|rest|] == if rest == [] then m else rest[|rest| - 1]
  {
  }

  /** A complete placement run `r` ends on the move it carried out last, or where it began if it carried out none. */
  lemma {:induction false} PlacementLastRead(v: Validation, pieces: seq<Piece>, todo: nat, moves: seq<Move>, k: nat,
                                             r: PlaceRun)
    requires Layout(pieces) && Members(moves) && k <= |moves|
    requires r == Placement(v, pieces, todo, moves, k)
    ensures r.complete ==> if r.placed == [] then r.next == k else r.placed[|r.placed| - 1] == moves[r.next - 1]
    decreases todo
  {
    if todo > 0 {
      var a := PlaceAttempts(v, pieces, RequestMove, moves, k);
      if a.accepted.Some? {
        var m := a.accepted.value;
        var next := Relocate(pieces, m.piece, m.destination);
        var r' := Placement(v, next, todo - 1, moves, a.next);
        PlacementLastRead(v, next, todo - 1, moves, a.next, r');
        PlacementUnfolds(v, pieces, todo, moves, k, a, r', r);
        LastOfCons(m, r'.placed);
      }
    }
  }

  /** A piece that no move of the placement run `r` names is unchanged, under any validation. */
  lemma {:induction false} PlacementFrame(v: Validation, pieces: seq<Piece>, todo: nat, moves: seq<Move>, k: nat,
                                          r: PlaceRun)
    requires Layout(pieces) && Members(moves) && k <= |moves|
    requires r == Placement(v, pieces, todo, moves, k)
    ensures forall i :: 0 <= i < 33 && Unnamed(r.placed, i) ==> r.pieces[i] == pieces[i]
    decreases todo
  {
    if todo > 0 {
      var a := PlaceAttempts(v, pieces, RequestMove, moves, k);
      if a.accepted.Some? {
        var m := a.accepted.value;
        var next := Relocate(pieces, m.piece, m.destination);
        var r' := Placement(v, next, todo - 1, moves, a.next);
        PlacementFrame(v, next, todo - 1, moves, a.next, r');
        PlacementUnfolds(v, pieces, todo, moves, k, a, r', r);
        forall i | 0 <= i < 33 && Unnamed(r.placed, i)
          ensures r.pieces[i] == pieces[i]
        {
          assert r.placed[0] == m;
          forall j | 0 <= j < |r'.placed| ensures r'.placed[j].piece != i { assert r'.placed[j] == r.placed[j + 1]; }
        }
      }
    }
  }

  /** Each move of `placed` took a piece that was off the board in `before`, and it stands on its destination in `after`. */
  predicate CarriedOut(placed: seq<Move>, before: seq<Piece>, after: seq<Piece>)
  {
    forall j :: 0 <= j < |placed| ==>
      placed[j].piece < |before| && placed[j].piece < |after| && !OnThisBoard(before[placed[j].piece].position) &&
      after[placed[j].piece].position == placed[j].destination
  }

  /** No two moves of `placed` name the same piece. */
  predicate DistinctPieces(placed: seq<Move>)
  {
    forall i, j :: 0 <= i < j < |placed| ==> placed[i].piece != placed[j].piece
  }

  /** One placed move `m` in front of the moves `rest` carried out after it, on the board `next` it left. */
  lemma CarriedOutStep(m: Move, rest: seq<Move>, pieces: seq<Piece>, next: seq<Piece>, after: seq<Piece>)
    requires |pieces| == |next| == |after| && m.piece < |pieces|
    requires !OnThisBoard(pieces[m.piece].position) && OnThisBoard(next[m.piece].position)
    requires next[m.piece].position == m.destination && after[m.piece] == next[m.piece]
    requires forall i :: 0 <= i < |pieces| && i != m.piece ==> next[i] == pieces[i]
    requires CarriedOut(rest, next, after) && DistinctPieces(rest)
    ensures CarriedOut([m] + rest, pieces, after) && DistinctPieces([m] + rest)
  {
    var placed := [m] + rest;
    forall j | 0 < j < |placed|
      ensures placed[j].piece != m.piece && placed[j] == rest[j - 1]
    {
    }
  }

  /**
   * The moves a placement run `r` under the rule of `role` carried out: each took a piece
   * that was off the board, and that piece now stands on the move's destination; no two
   * of them moved the same piece.
   */
  lemma {:induction false} PlacedMoves(role: PlayerRole, pieces: seq<Piece>, todo: nat, moves: seq<Move>, k: nat,
                                       r: PlaceRun)
    requires Layout(pieces) && Members(moves) && k <= |moves|
    requires r == Placement(PlacementRule(role), pieces, todo, moves, k)
    ensures CarriedOut(r.placed, pieces, r.pieces) && DistinctPieces(r.placed)
    decreases todo
  {
    if todo > 0 {
      var a := PlaceAttempts(PlacementRule(role), pieces, RequestMove, moves, k);
      if a.accepted.Some? {
        var m := a.accepted.value;
        RuleAccepts(role, pieces, pieces[m.piece], m.destination);
        var next := Relocate(pieces, m.piece, m.destination);
        var r' := Placement(PlacementRule(role), next, todo - 1, moves, a.next);
        PlacedMoves(role, next, todo - 1, moves, a.next, r');
        PlacementFrame(PlacementRule(role), next, todo - 1, moves, a.next, r');
        PlacementUnfolds(PlacementRule(role), pieces, todo, moves, k, a, r', r);
        assert OnThisBoard(next[m.piece].position);
        assert Unnamed(r'.placed, m.piece);
        CarriedOutStep(m, r'.placed, pieces, next, r.pieces);
      }
    }
  }

  /**
   * The placement loop of `role`, run for as many pieces as `role` owns, completes only
   * if every piece of `role` started off the board; then each of them stands well, and
   * no piece of the other role has moved.
   */
  lemma RolePlacementComplete(role: PlayerRole, pieces: seq<Piece>, moves: seq<Move>, k: nat, r: PlaceRun)
    requires Layout(pieces) && Members(moves) && k <= |moves|
    requires r == Placement(PlacementRule(role), pieces, CountOwned(pieces, role), moves, k) && r.complete
    ensures forall i :: 0 <= i < 33 && PieceTypeMatchesPlayerRole(pieces[i].kind, role) ==>
              !OnThisBoard(pieces[i].position) && PlacedWell(role, r.pieces[i])
    ensures forall i :: 0 <= i < 33 && !PieceTypeMatchesPlayerRole(pieces[i].kind, role) ==> r.pieces[i] == pieces[i]
  {
    PlacementEffect(role, pieces, CountOwned(pieces, role), moves, k, r);
    CountOwnedInLayout(pieces);
    CountOwnedInLayout(r.pieces);
    MovableCounts(pieces, role);
    MovableCounts(r.pieces, role);
    assert CountMovable(pieces, role) == 0;
    assert CountMovable(r.pieces, role) == CountOwned(r.pieces, role);
  }

  /**
   * `PlacePieces` on values: silver is asked for moves only once gold has placed all
   * 13 of its pieces, each of which was off the board before.
   */
  lemma GoldBeforeSilver(pieces: seq<Piece>, goldMoves: seq<Move>, gk: nat, silverMoves: seq<Move>, sk: nat, p: Placed)
    requires Layout(pieces) && Members(goldMoves) && Members(silverMoves) && gk <= |goldMoves| && sk <= |silverMoves|
    requires p == PlaceAll(pieces, goldMoves, gk, silverMoves, sk)
    ensures p.silverRequests == [] ==> p.silverNext == sk && !p.complete
    ensures p.silverRequests != [] ==>
              forall i :: 20 <= i < 33 ==> !OnThisBoard(pieces[i].position) && PlacedWell(Gold, p.pieces[i])
  {
    var gold := Placement(IsValidGoldPlacement, pieces, CountOwned(pieces, Gold), goldMoves, gk);
    if gold.complete {
      CountOwnedInLayout(gold.pieces);
      assert p.silverRequests != [];
      assert PlacementRule(Silver) == IsValidSilverPlacement;
      PlacementEffect(Silver, gold.pieces, CountOwned(gold.pieces, Silver), silverMoves, sk,
                      Placement(IsValidSilverPlacement, gold.pieces, CountOwned(gold.pieces, Silver), silverMoves, sk));
      GoldPlacedWell(pieces, goldMoves, gk, gold, p.pieces);
    }
  }

  /** Helper of `GoldBeforeSilver`: the gold pieces stand where gold's complete round put them. */
  lemma GoldPlacedWell(pieces: seq<Piece>, goldMoves: seq<Move>, gk: nat, gold: PlaceRun, after: seq<Piece>)
    requires Layout(pieces) && Members(goldMoves) && gk <= |goldMoves|
    requires gold == Placement(IsValidGoldPlacement, pieces, CountOwned(pieces, Gold), goldMoves, gk) && gold.complete
    requires |after| == 33 && forall i :: 20 <= i < 33 ==> after[i] == gold.pieces[i]
    ensures forall i :: 20 <= i < 33 ==> !OnThisBoard(pieces[i].position) && PlacedWell(Gold, after[i])
  {
    assert PlacementRule(Gold) == IsValidGoldPlacement;
    RolePlacementComplete(Gold, pieces, goldMoves, gk, gold);
  }

  /**
   * A complete `PlacePieces` on values started with every piece off the board and ends
   * with every piece standing well, the flagship at (5,5), so nobody has won yet.
   */
  lemma PlaceAllComplete(pieces: seq<Piece>, goldMoves: seq<Move>, gk: nat, silverMoves: seq<Move>, sk: nat, p: Placed)
    requires Layout(pieces) && Members(goldMoves) && Members(silverMoves) && gk <= |goldMoves| && sk <= |silverMoves|
    requires p == PlaceAll(pieces, goldMoves, gk, silverMoves, sk) && p.complete
    ensures forall i :: 0 <= i < 33 ==>
              !OnThisBoard(pieces[i].position) && PlacedWell(Colour(pieces[i].kind), p.pieces[i])
    ensures p.pieces[32].position == OriginalFlagshipPosition && GoldFlagshipOf(p.pieces) == Some(32) &&
            GetWinner(p.pieces) == None
  {
    CountOwnedInLayout(pieces);
    var gold := Placement(IsValidGoldPlacement, pieces, CountOwned(pieces, Gold), goldMoves, gk);
    assert PlacementRule(Gold) == IsValidGoldPlacement;
    RolePlacementComplete(Gold, pieces, goldMoves, gk, gold);
    CountOwnedInLayout(gold.pieces);
    assert PlacementRule(Silver) == IsValidSilverPlacement;
    RolePlacementComplete(Silver, gold.pieces, silverMoves, sk,
                          Placement(IsValidSilverPlacement, gold.pieces, CountOwned(gold.pieces, Silver), silverMoves, sk));
    forall i | 0 <= i < 33
      ensures !OnThisBoard(pieces[i].position) && PlacedWell(Colour(pieces[i].kind), p.pieces[i])
    {
      RoleOwnership(pieces[i].kind, Gold);
    }
    FlagshipInLayout(p.pieces);
  }

  // ----- Turns -----

  /**
   * What a capture by `piece` onto `position` does: the victim `v` found there is another
   * piece; it goes off the board to the next removed slot of its colour and that colour's
   * counter grows by one, the capturer stands on the square, and no other piece moves.
   */
  lemma CaptureEffect(s: BoardState, piece: nat, position: Point, role: PlayerRole, v: nat, r: BoardState)
    requires Layout(s.pieces) && piece < 33 && IsValidCapture(s.pieces, s.pieces[piece], position, role)
    requires PieceAt(s.pieces, position) == Some(v) && r == Captured(s, piece, position)
    ensures v != piece && s.pieces[v].position == position
    ensures r.pieces[piece].position == position && r.pieces[piece].kind == s.pieces[piece].kind
    ensures !OnThisBoard(r.pieces[v].position) && r.pieces[v].kind == s.pieces[v].kind
    ensures s.pieces[v].kind == Silvership ==>
              r.pieces[v].position == SilverRemovedSlot(s.silverRemoved) &&
              r.silverRemoved == s.silverRemoved + 1 && r.goldRemoved == s.goldRemoved
    ensures s.pieces[v].kind != Silvership ==>
              r.pieces[v].position == GoldRemovedSlot(s.goldRemoved) &&
              r.goldRemoved == s.goldRemoved + 1 && r.silverRemoved == s.silverRemoved
    ensures forall i :: 0 <= i < 33 && i != v && i != piece ==> r.pieces[i] == s.pieces[i]
  {
    var removed := Removed(s, Some(v));
    assert r.pieces == Relocate(removed.pieces, piece, position);
  }

  /** What an attempt `a` tells about its piece and about the turn after it, by the piece's place in the layout. */
  lemma ActionKinds(s: BoardState, role: PlayerRole, movable: int, t: TurnState, m: Move, a: Step)
    requires Layout(s.pieces) && m.piece < 33
    requires a == TurnAction(s, role, movable, t, m)
    ensures a.verdict == Illegal ==> a.turn == t && a.state == s
    ensures a.verdict == TurnOver ==> a.turn == t
    ensures a.verdict == Continue ==>
              t.firstMove && movable != 1 && a.turn == TurnState(false, Some(m.piece)) && KindAt(m.piece) != GoldFlagship
    ensures a.verdict != Illegal ==> t.movedPiece != Some(m.piece) && PieceTypeMatchesPlayerRole(KindAt(m.piece), role)
    ensures a.verdict != Illegal && KindAt(m.piece) == GoldFlagship ==> t.firstMove && a.verdict == TurnOver
  {
    assert s.pieces[m.piece].kind == KindAt(m.piece);
  }

  /**
   * How many actions the turn `r` took: at most two, and at most one when only one
   * piece is movable or the turn is past its first action; a turn that ended took at
   * least one, the last move read.
   */
  lemma {:induction false} TurnActionCount(s: BoardState, role: PlayerRole, movable: int, t: TurnState, pending: Request,
                                           moves: seq<Move>, k: nat, r: TurnRun)
    requires Layout(s.pieces) && Members(moves) && k <= |moves|
    requires r == Turn(s, role, movable, t, pending, moves, k)
    ensures |r.actions| <= (if t.firstMove && movable != 1 then 2 else 1)
    ensures r.complete ==> |r.actions| >= 1 && r.actions[|r.actions| - 1] == moves[r.next - 1]
    decreases |moves| - k
  {
    if k < |moves| {
      var a := TurnAction(s, role, movable, t, moves[k]);
      if a.verdict != TurnOver {
        var next := NextRequest(a.verdict == Continue, moves[k]);
        var r' := Turn(a.state, role, movable, a.turn, next, moves, k + 1);
        TurnActionCount(a.state, role, movable, a.turn, next, moves, k + 1, r');
        TurnUnfolds(s, role, movable, t, pending, moves, k, a, r', r);
        ActionKinds(s, role, movable, t, moves[k], a);
      }
    }
  }

  /**
   * The first action of a turn `r` begun with no action taken, when the turn ended: it is
   * one of the role's attempts on the board as it stood (refused attempts change nothing),
   * and the turn took two actions exactly when that first one was a straight move by a
   * piece other than the flagship with more than one piece movable.
   */
  lemma {:induction false} TurnFirstAction(s: BoardState, role: PlayerRole, movable: int, t: TurnState, pending: Request,
                                           moves: seq<Move>, k: nat, r: TurnRun)
    requires Layout(s.pieces) && Members(moves) && k <= |moves| && t.firstMove
    requires r == Turn(s, role, movable, t, pending, moves, k)
    ensures r.complete ==>
              r.actions != [] && r.actions[0].piece < 33 &&
              (|r.actions| == 2 <==>
                 KindAt(r.actions[0].piece) != GoldFlagship && movable != 1 &&
                 ValidMove(s.pieces, s.pieces[r.actions[0].piece], r.actions[0].destination))
    decreases |moves| - k
  {
    if k < |moves| {
      var m := moves[k];
      var a := TurnAction(s, role, movable, t, m);
      TurnActionRules(s, role, movable, t, m, a);
      ActionKinds(s, role, movable, t, m, a);
      assert s.pieces[m.piece].kind == KindAt(m.piece);
      if a.verdict != TurnOver {
        var next := NextRequest(a.verdict == Continue, m);
        var r' := Turn(a.state, role, movable, a.turn, next, moves, k + 1);
        TurnUnfolds(s, role, movable, t, pending, moves, k, a, r', r);
        if a.verdict == Illegal {
          TurnFirstAction(a.state, role, movable, a.turn, next, moves, k + 1, r');
        } else {
          TurnActionCount(a.state, role, movable, a.turn, next, moves, k + 1, r');
        }
      }
    }
  }

  /**
   * How many actions the turn `r` of `role` took: at most two, and at most one when the
   * role has a single movable piece, the flagship not counting for Gold; a role with no
   * piece on the board took none.
   */
  lemma TurnOfActionCount(s: BoardState, role: PlayerRole, moves: seq<Move>, k: nat, r: TurnRun)
    requires Layout(s.pieces) && Members(moves) && k <= |moves|
    requires r == TurnOf(s, role, moves, k)
    ensures |r.actions| <= 2
    ensures CountMovable(s.pieces, role) == 0 ==> r.actions == []
    ensures role == Gold && CountMovable(s.pieces, Gold) == 2 ==> |r.actions| <= 1
    ensures role == Silver && CountMovable(s.pieces, Silver) == 1 ==> |r.actions| <= 1
    ensures CountMovable(s.pieces, role) > 0 && r.complete ==>
              r.actions != [] && r.actions[0].piece < 33 &&
              (|r.actions| == 2 <==>
                 KindAt(r.actions[0].piece) != GoldFlagship &&
                 CountMovable(s.pieces, role) != (if role == Gold then 2 else 1) &&
                 ValidMove(s.pieces, s.pieces[r.actions[0].piece], r.actions[0].destination))
  {
    var n := CountMovable(s.pieces, role);
    if n > 0 {
      var movable := if role == Gold then n - 1 else n;
      TurnActionCount(s, role, movable, TurnState(true, None), RequestMove, moves, k, r);
      TurnFirstAction(s, role, movable, TurnState(true, None), RequestMove, moves, k, r);
    }
  }

  /**
   * Which pieces the turn `r` moved: each an on-board piece of the role other than the
   * one already moved; never the same piece twice, and the flagship only alone, as the
   * first action.
   */
  lemma {:induction false} TurnActionPieces(s: BoardState, role: PlayerRole, movable: int, t: TurnState, pending: Request,
                                            moves: seq<Move>, k: nat, r: TurnRun)
    requires Layout(s.pieces) && Members(moves) && k <= |moves| && (t.firstMove ==> t.movedPiece == None)
    requires r == Turn(s, role, movable, t, pending, moves, k)
    ensures forall j :: 0 <= j < |r.actions| ==>
              t.movedPiece != Some(r.actions[j].piece) && PieceTypeMatchesPlayerRole(KindAt(r.actions[j].piece), role) &&
              (KindAt(r.actions[j].piece) == GoldFlagship ==> |r.actions| == 1 && t.firstMove)
    ensures |r.actions| == 2 ==> r.actions[0].piece != r.actions[1].piece
    decreases |moves| - k
  {
    if k < |moves| {
      var m := moves[k];
      var a := TurnAction(s, role, movable, t, m);
      ActionKinds(s, role, movable, t, m, a);
      if a.verdict != TurnOver {
        var next := NextRequest(a.verdict == Continue, m);
        var r' := Turn(a.state, role, movable, a.turn, next, moves, k + 1);
        TurnActionPieces(a.state, role, movable, a.turn, next, moves, k + 1, r');
        TurnUnfolds(s, role, movable, t, pending, moves, k, a, r', r);
        if a.verdict == Continue {
          TurnActionCount(a.state, role, movable, a.turn, next, moves, k + 1, r');
          ActionPiecesStep(m, r'.actions, role, t);
        }
      }
    }
  }

  /**
   * A first action `m` by a piece of `role` other than the flagship, followed by at most
   * one action by another piece of the role that is not the flagship either.
   */
  lemma ActionPiecesStep(m: Move, rest: seq<Move>, role: PlayerRole, t: TurnState)
    requires t.firstMove && t.movedPiece == None && |rest| <= 1
    requires PieceTypeMatchesPlayerRole(KindAt(m.piece), role) && KindAt(m.piece) != GoldFlagship
    requires forall j :: 0 <= j < |rest| ==>
               rest[j].piece != m.piece && PieceTypeMatchesPlayerRole(KindAt(rest[j].piece), role) &&
               KindAt(rest[j].piece) != GoldFlagship
    ensures forall j :: 0 <= j < |[m] + rest| ==>
              t.movedPiece != Some(([m] + rest)[j].piece) && PieceTypeMatchesPlayerRole(KindAt(([m] + rest)[j].piece), role) &&
              (KindAt(([m] + rest)[j].piece) == GoldFlagship ==> |[m] + rest| == 1 && t.firstMove)
    ensures |[m] + rest| == 2 ==> ([m] + rest)[0].piece != ([m] + rest)[1].piece
  {
  }

  /** A turn `r` that did not end moved no flagship: its square, and so the winner, is as before. */
  lemma {:induction false} IncompleteTurnKeepsFlagship(s: BoardState, role: PlayerRole, movable: int, t: TurnState,
                                                       pending: Request, moves: seq<Move>, k: nat, r: TurnRun)
    requires Layout(s.pieces) && Members(moves) && k <= |moves|
    requires r == Turn(s, role, movable, t, pending, moves, k)
    ensures !r.complete ==> r.state.pieces[32] == s.pieces[32]
    decreases |moves| - k
  {
    if k < |moves| {
      var a := TurnAction(s, role, movable, t, moves[k]);
      if a.verdict != TurnOver {
        var next := NextRequest(a.verdict == Continue, moves[k]);
        IncompleteTurnKeepsFlagship(a.state, role, movable, a.turn, next, moves, k + 1,
                                    Turn(a.state, role, movable, a.turn, next, moves, k + 1));
        ActionKinds(s, role, movable, t, moves[k], a);
      }
    }
  }

  /**
   * The verdicts of the turn `r`: only the last move read can end the turn, which it
   * does exactly when the turn ended.
   */
  lemma {:induction false} TurnVerdicts(s: BoardState, role: PlayerRole, movable: int, t: TurnState, pending: Request,
                                        moves: seq<Move>, k: nat, r: TurnRun)
    requires Layout(s.pieces) && Members(moves) && k <= |moves|
    requires r == Turn(s, role, movable, t, pending, moves, k)
    ensures forall j :: 0 <= j < |r.verdicts| - 1 ==> r.verdicts[j] != TurnOver
    ensures r.complete <==> r.verdicts != [] && r.verdicts[|r.verdicts| - 1] == TurnOver
    decreases |moves| - k
  {
    if k < |moves| {
      var a := TurnAction(s, role, movable, t, moves[k]);
      if a.verdict != TurnOver {
        var next := NextRequest(a.verdict == Continue, moves[k]);
        var r' := Turn(a.state, role, movable, a.turn, next, moves, k + 1);
        TurnVerdicts(a.state, role, movable, a.turn, next, moves, k + 1, r');
        TurnUnfolds(s, role, movable, t, pending, moves, k, a, r', r);
        VerdictStep(a.verdict, r'.verdicts);
      }
    }
  }

  /** Putting a verdict `v` other than `TurnOver` in front of `verdicts` keeps `TurnOver` only last. */
  lemma VerdictStep(v: Verdict, verdicts: seq<Verdict>)
    requires v != TurnOver && forall j :: 0 <= j < |verdicts| - 1 ==> verdicts[j] != TurnOver
    ensures forall j :: 0 <= j < |[v] + verdicts| - 1 ==> ([v] + verdicts)[j] != TurnOver
    ensures ([v] + verdicts)[|verdicts|] == TurnOver <==> verdicts != [] && verdicts[|verdicts| - 1] == TurnOver
  {
    assert forall j :: 0 < j < |[v] + verdicts| ==> ([v] + verdicts)[j] == verdicts[j - 1];
  }

  /**
   * The request `req` that follows the move `m` answers its verdict `v`: it is the retry
   * naming `m` exactly when `m` was refused, and the plain request exactly when `m` was
   * accepted and the turn went on.
   */
  predicate Answers(req: Request, m: Move, v: Verdict)
  {
    (req == IllegalMoveAttempt(m) <==> v == Illegal) && (req == RequestMove <==> v == Continue)
  }

  /** Each request of the turn `r` after the first answers the verdict on the move read just before it. */
  lemma {:induction false} TurnRequests(s: BoardState, role: PlayerRole, movable: int, t: TurnState, pending: Request,
                                        moves: seq<Move>, k: nat, r: TurnRun)
    requires Layout(s.pieces) && Members(moves) && k <= |moves|
    requires r == Turn(s, role, movable, t, pending, moves, k)
    ensures forall j :: 0 < j < |r.requests| ==> Answers(r.requests[j], moves[k + j - 1], r.verdicts[j - 1])
    decreases |moves| - k
  {
    if k < |moves| {
      var a := TurnAction(s, role, movable, t, moves[k]);
      if a.verdict != TurnOver {
        var next := NextRequest(a.verdict == Continue, moves[k]);
        var r' := Turn(a.state, role, movable, a.turn, next, moves, k + 1);
        TurnRequests(a.state, role, movable, a.turn, next, moves, k + 1, r');
        TurnUnfolds(s, role, movable, t, pending, moves, k, a, r', r);
        NextRequestAnswers(a.verdict, moves[k]);
        AnswersStep(pending, r'.requests, a.verdict, r'.verdicts, moves, k);
      }
    }
  }

  /** The request after a move that did not end the turn answers that move's verdict. */
  lemma NextRequestAnswers(v: Verdict, m: Move)
    requires v != TurnOver
    ensures Answers(NextRequest(v == Continue, m), m, v)
  {
  }

  /** Putting one more request and verdict in front keeps every request answering the move read before it. */
  lemma AnswersStep(pending: Request, requests: seq<Request>, v: Verdict, verdicts: seq<Verdict>, moves: seq<Move>, k: nat)
    requires requests != [] && |requests| <= |verdicts| + 1 && k + 1 + |verdicts| <= |moves|
    requires Answers(requests[0], moves[k], v)
    requires forall j :: 0 < j < |requests| ==> Answers(requests[j], moves[(k + 1) + j - 1], verdicts[j - 1])
    ensures forall j :: 0 < j < |[pending] + requests| ==>
              Answers(([pending] + requests)[j], moves[k + j - 1], ([v] + verdicts)[j - 1])
  {
    forall j | 1 < j < |[pending] + requests|
      ensures Answers(([pending] + requests)[j], moves[k + j - 1], ([v] + verdicts)[j - 1])
    {
      var i := j - 1;
      assert ([pending] + requests)[j] == requests[i] && ([v] + verdicts)[j - 1] == verdicts[i - 1];
    }
  }

  /**
   * The turn `r` goes on at most once: no verdict is `Continue` once the first action
   * is taken, and after a `Continue` no other follows.
   */
  lemma {:induction false} TurnContinuesOnce(s: BoardState, role: PlayerRole, movable: int, t: TurnState, pending: Request,
                                             moves: seq<Move>, k: nat, r: TurnRun)
    requires Layout(s.pieces) && Members(moves) && k <= |moves|
    requires r == Turn(s, role, movable, t, pending, moves, k)
    ensures !t.firstMove ==> forall j :: 0 <= j < |r.verdicts| ==> r.verdicts[j] != Continue
    ensures forall i, j :: 0 <= i < j < |r.verdicts| && r.verdicts[i] == Continue ==> r.verdicts[j] != Continue
    decreases |moves| - k
  {
    if k < |moves| {
      var a := TurnAction(s, role, movable, t, moves[k]);
      ActionKinds(s, role, movable, t, moves[k], a);
      if a.verdict != TurnOver {
        var next := NextRequest(a.verdict == Continue, moves[k]);
        var r' := Turn(a.state, role, movable, a.turn, next, moves, k + 1);
        TurnContinuesOnce(a.state, role, movable, a.turn, next, moves, k + 1, r');
        TurnUnfolds(s, role, movable, t, pending, moves, k, a, r', r);
        ContinueStep(a.verdict, r'.verdicts);
      }
    }
  }

  /** Putting a verdict `v` in front of `verdicts` adds a `Continue` only where `v` is one. */
  lemma ContinueStep(v: Verdict, verdicts: seq<Verdict>)
    requires forall i, j :: 0 <= i < j < |verdicts| && verdicts[i] == Continue ==> verdicts[j] != Continue
    requires v == Continue ==> forall j :: 0 <= j < |verdicts| ==> verdicts[j] != Continue
    ensures forall i, j :: 0 <= i < j < |[v] + verdicts| && ([v] + verdicts)[i] == Continue ==>
              ([v] + verdicts)[j] != Continue
    ensures v != Continue && (forall j :: 0 <= j < |verdicts| ==> verdicts[j] != Continue) ==>
              forall j :: 0 <= j < |[v] + verdicts| ==> ([v] + verdicts)[j] != Continue
  {
    assert forall j :: 0 < j < |[v] + verdicts| ==> ([v] + verdicts)[j] == verdicts[j - 1];
  }

  /** One refused or non-final attempt of a turn, as `Turn` unfolds it. */
  lemma TurnUnfolds(s: BoardState, role: PlayerRole, movable: int, t: TurnState, pending: Request,
                    moves: seq<Move>, k: nat, a: Step, r': TurnRun, r: TurnRun)
    requires Layout(s.pieces) && Members(moves) && k < |moves|
    requires a == TurnAction(s, role, movable, t, moves[k]) && a.verdict != TurnOver
    requires r' == Turn(a.state, role, movable, a.turn, NextRequest(a.verdict == Continue, moves[k]), moves, k + 1)
    requires r == Turn(s, role, movable, t, pending, moves, k)
    ensures r.requests == [pending] + r'.requests && r'.requests[0] == NextRequest(a.verdict == Continue, moves[k])
    ensures r.actions == (if a.verdict == Continue then [moves[k]] else []) + r'.actions
    ensures r.verdicts == [a.verdict] + r'.verdicts
    ensures r.state == r'.state && r.next == r'.next && r.complete == r'.complete
  {
  }

  // ----- The game loop -----

  /** The winner `GetWinner` reports for a board in the constructor's layout. */
  function WinnerOf(pieces: seq<Piece>): Option<PlayerRole>
    requires Layout(pieces)
  {
    FlagshipInLayout(pieces);
    GetWinner(pieces)
  }

  /** Who has won depends on the flagship alone. */
  lemma WinnerFollowsFlagship(before: seq<Piece>, after: seq<Piece>)
    requires Layout(before) && Layout(after) && after[32] == before[32]
    ensures WinnerOf(after) == WinnerOf(before)
  {
    FlagshipInLayout(before);
    FlagshipInLayout(after);
  }

  /** A turn `r` that did not end leaves the winner as it was. */
  lemma IncompleteTurnKeepsWinner(s: BoardState, role: PlayerRole, moves: seq<Move>, k: nat, r: TurnRun)
    requires Layout(s.pieces) && Members(moves) && k <= |moves|
    requires r == TurnOf(s, role, moves, k) && !r.complete
    ensures WinnerOf(r.state.pieces) == WinnerOf(s.pieces) && r.next == |moves|
  {
    var n := CountMovable(s.pieces, role);
    IncompleteTurnKeepsFlagship(s, role, if role == Gold then n - 1 else n, TurnState(true, None), RequestMove, moves, k, r);
    WinnerFollowsFlagship(s.pieces, r.state.pieces);
  }

  /**
   * A turn of the game loop that did not end, as `Turns` unfolds it when nobody has won
   * yet: `t` is the turn of the role after `current`, and the game stops after it.
   */
  lemma TurnsStop(s: BoardState, current: PlayerRole, goldMoves: seq<Move>, gk: nat, silverMoves: seq<Move>, sk: nat,
                  t: TurnRun, g: GameRun)
    requires Layout(s.pieces) && Members(goldMoves) && Members(silverMoves) && gk <= |goldMoves| && sk <= |silverMoves|
    requires WinnerOf(s.pieces).None?
    requires t == TurnOf(s, Other(current), ForRole(Other(current), goldMoves, silverMoves), ForRole(Other(current), gk, sk))
    requires !t.complete
    requires g == Turns(s, current, goldMoves, gk, silverMoves, sk)
    ensures g.state == t.state && g.turns == [Other(current)] && g.winner == None
    ensures g.goldNext == ForRole(Other(current), t.next, gk) && g.silverNext == ForRole(Other(current), sk, t.next)
  {
    FlagshipInLayout(s.pieces);
  }

  /**
   * A turn of the game loop that ended, as `Turns` unfolds it when nobody has won yet:
   * `t` is the turn of the role after `current`, `g'` the rest of the game after it.
   */
  lemma TurnsGoOnAfter(s: BoardState, current: PlayerRole, goldMoves: seq<Move>, gk: nat, silverMoves: seq<Move>, sk: nat,
                       t: TurnRun, g': GameRun, g: GameRun)
    requires Layout(s.pieces) && Members(goldMoves) && Members(silverMoves) && gk <= |goldMoves| && sk <= |silverMoves|
    requires WinnerOf(s.pieces).None?
    requires t == TurnOf(s, Other(current), ForRole(Other(current), goldMoves, silverMoves), ForRole(Other(current), gk, sk))
    requires t.complete
    requires g' == Turns(t.state, Other(current), goldMoves, ForRole(Other(current), t.next, gk),
                         silverMoves, ForRole(Other(current), sk, t.next))
    requires g == Turns(s, current, goldMoves, gk, silverMoves, sk)
    ensures g.state == g'.state && g.turns == [Other(current)] + g'.turns && g.winner == g'.winner
    ensures g.goldNext == g'.goldNext && g.silverNext == g'.silverNext
  {
    FlagshipInLayout(s.pieces);
  }

  /** Each turn after the first is played by the role after the one before. */
  predicate Alternates(turns: seq<PlayerRole>)
  {
    forall j :: 0 < j < |turns| ==> turns[j] == Other(turns[j - 1])
  }

  /** Putting the opposite role before an alternating sequence of turns keeps it alternating. */
  lemma AlternatesAfter(role: PlayerRole, rest: seq<PlayerRole>)
    requires Alternates(rest) && (rest != [] ==> rest[0] == Other(role))
    ensures Alternates([role] + rest)
  {
    var turns := [role] + rest;
    forall j | 0 < j < |turns|
      ensures turns[j] == Other(turns[j - 1])
    {
      if j > 1 {
        assert turns[j] == rest[j - 1] && turns[j - 1] == rest[j - 2];
      }
    }
  }

  /**
   * The turns of a game `g` alternate: the first is played by the role after `current`,
   * each later one by the role after the one before; there is no turn at all exactly
   * when somebody has already won.
   */
  lemma {:induction false} TurnsAlternate(s: BoardState, current: PlayerRole, goldMoves: seq<Move>, gk: nat,
                                          silverMoves: seq<Move>, sk: nat, g: GameRun)
    requires Layout(s.pieces) && Members(goldMoves) && Members(silverMoves) && gk <= |goldMoves| && sk <= |silverMoves|
    requires g == Turns(s, current, goldMoves, gk, silverMoves, sk)
    ensures g.turns == [] <==> WinnerOf(s.pieces).Some?
    ensures g.turns != [] ==> g.turns[0] == Other(current)
    ensures Alternates(g.turns)
    decreases Progress(goldMoves, gk, silverMoves, sk, current)
  {
    FlagshipInLayout(s.pieces);
    if WinnerOf(s.pieces).None? {
      var role := Other(current);
      var t := TurnOf(s, role, ForRole(role, goldMoves, silverMoves), ForRole(role, gk, sk));
      if t.complete {
        var gk', sk' := ForRole(role, t.next, gk), ForRole(role, sk, t.next);
        FlagshipKeepsGoldMovable(s.pieces);
        var g' := Turns(t.state, role, goldMoves, gk', silverMoves, sk');
        TurnsAlternate(t.state, role, goldMoves, gk', silverMoves, sk', g');
        TurnsGoOnAfter(s, current, goldMoves, gk, silverMoves, sk, t, g', g);
        AlternatesAfter(role, g'.turns);
      } else {
        TurnsStop(s, current, goldMoves, gk, silverMoves, sk, t, g);
      }
    }
  }

  /** The role of the last of `turns`, or `current` when there is none. */
  function LastRole(turns: seq<PlayerRole>, current: PlayerRole): PlayerRole
  {
    if turns == [] then current else turns[|turns| - 1]
  }

  /** The last turn after `role`'s turn is the last of the rest, or `role`'s own. */
  lemma LastRoleAfter(role: PlayerRole, rest: seq<PlayerRole>, current: PlayerRole)
    ensures LastRole([role] + rest, current) == LastRole(rest, role)
  {
    if rest != [] {
      assert ([role] + rest)[|rest|] == rest[|rest| - 1];
    }
  }

  /**
   * How a game `g` with a result ends: the result names the winner the board shows and
   * the role of the last turn played, or `current` when the game was already won.
   */
  lemma {:induction false} TurnsWinner(s: BoardState, current: PlayerRole, goldMoves: seq<Move>, gk: nat,
                                       silverMoves: seq<Move>, sk: nat, g: GameRun)
    requires Layout(s.pieces) && Members(goldMoves) && Members(silverMoves) && gk <= |goldMoves| && sk <= |silverMoves|
    requires g == Turns(s, current, goldMoves, gk, silverMoves, sk) && g.winner.Some?
    ensures WinnerOf(g.state.pieces) == Some(g.winner.value.player)
    ensures g.winner.value.role == LastRole(g.turns, current)
    decreases Progress(goldMoves, gk, silverMoves, sk, current)
  {
    FlagshipInLayout(s.pieces);
    if WinnerOf(s.pieces).None? {
      var role := Other(current);
      var t := TurnOf(s, role, ForRole(role, goldMoves, silverMoves), ForRole(role, gk, sk));
      if t.complete {
        var gk', sk' := ForRole(role, t.next, gk), ForRole(role, sk, t.next);
        FlagshipKeepsGoldMovable(s.pieces);
        var g' := Turns(t.state, role, goldMoves, gk', silverMoves, sk');
        TurnsGoOnAfter(s, current, goldMoves, gk, silverMoves, sk, t, g', g);
        TurnsWinner(t.state, role, goldMoves, gk', silverMoves, sk', g');
        LastRoleAfter(role, g'.turns, current);
      } else {
        TurnsStop(s, current, goldMoves, gk, silverMoves, sk, t, g);
      }
    }
  }

  /**
   * How a game `g` without a result ends: nobody has won on the board, and the script
   * of the role that was on turn last ran out.
   */
  lemma {:induction false} TurnsUnfinished(s: BoardState, current: PlayerRole, goldMoves: seq<Move>, gk: nat,
                                           silverMoves: seq<Move>, sk: nat, g: GameRun)
    requires Layout(s.pieces) && Members(goldMoves) && Members(silverMoves) && gk <= |goldMoves| && sk <= |silverMoves|
    requires g == Turns(s, current, goldMoves, gk, silverMoves, sk) && g.winner.None?
    ensures WinnerOf(g.state.pieces) == None && g.turns != []
    ensures if LastRole(g.turns, current) == Gold then g.goldNext == |goldMoves| else g.silverNext == |silverMoves|
    decreases Progress(goldMoves, gk, silverMoves, sk, current)
  {
    FlagshipInLayout(s.pieces);
    var role := Other(current);
    var moves, k := ForRole(role, goldMoves, silverMoves), ForRole(role, gk, sk);
    var t := TurnOf(s, role, moves, k);
    if t.complete {
      var gk', sk' := ForRole(role, t.next, gk), ForRole(role, sk, t.next);
      FlagshipKeepsGoldMovable(s.pieces);
      var g' := Turns(t.state, role, goldMoves, gk', silverMoves, sk');
      TurnsGoOnAfter(s, current, goldMoves, gk, silverMoves, sk, t, g', g);
      TurnsUnfinished(t.state, role, goldMoves, gk', silverMoves, sk', g');
      LastRoleAfter(role, g'.turns, current);
    } else {
      TurnsStop(s, current, goldMoves, gk, silverMoves, sk, t, g);
      IncompleteTurnKeepsWinner(s, role, moves, k, t);
    }
  }

  /**
   * `PlayGame` on values, `g`: no turn is played unless placement completed, and then
   * the first turn is the starting role's; the turns alternate, and a recorded result
   * names the winner the board shows and the role of the last turn.
   */
  lemma PlayGameTurns(s: BoardState, goldMoves: seq<Move>, gk: nat, silverMoves: seq<Move>, sk: nat,
                      start: PlayerRole, g: GameRun)
    requires Layout(s.pieces) && Members(goldMoves) && Members(silverMoves) && gk <= |goldMoves| && sk <= |silverMoves|
    requires g == PlayGameRun(s, goldMoves, gk, silverMoves, sk, start)
    ensures !PlaceAll(s.pieces, goldMoves, gk, silverMoves, sk).complete ==> g.turns == [] && g.winner == None
    ensures PlaceAll(s.pieces, goldMoves, gk, silverMoves, sk).complete ==> g.turns != [] && g.turns[0] == start
    ensures Alternates(g.turns)
    ensures g.winner.Some? ==>
              WinnerOf(g.state.pieces) == Some(g.winner.value.player) && g.winner.value.role == g.turns[|g.turns| - 1]
  {
    var p := PlaceAll(s.pieces, goldMoves, gk, silverMoves, sk);
    if p.complete {
      var placed := s.(pieces := p.pieces);
      var current := if start == Gold then Silver else Gold;
      PlaceAllComplete(s.pieces, goldMoves, gk, silverMoves, sk, p);
      var t := Turns(placed, current, goldMoves, p.goldNext, silverMoves, p.silverNext);
      TurnsAlternate(placed, current, goldMoves, p.goldNext, silverMoves, p.silverNext, t);
      if t.winner.Some? {
        TurnsWinner(placed, current, goldMoves, p.goldNext, silverMoves, p.silverNext, t);
      }
    }
  }
}
