/**
 * The game state machine of BreakthruGameplay.cs: the placement phase, the turn
 * phase and the game loop. Each loop of the source is a method of class `Gameplay`,
 * proved against a function that plays the same rules on values. A move source is
 * a script `moves` read from position `k` on; the functions return the position
 * where reading stopped.
 */
module BreakthruGameplay {
  import opened Wrappers
  import opened Pieces
  import opened GameBoard
  import opened BreakthruGameBoard
  import opened BreakthruRules
  import opened ScriptedPlayers

  /** Every scripted move names a piece of the board's list (the source dereferences it unchecked). */
  predicate Members(moves: seq<Move>)
  {
    forall k :: 0 <= k < |moves| ==> moves[k].piece < 33
  }

  /** The request the engine makes next: the plain one after a legal attempt, the retry after an illegal one. */
  function NextRequest(legal: bool, last: Move): Request
  {
    if legal then RequestMove else IllegalMoveAttempt(last)
  }

  /** The source's `legal ? RequestMove(...) : IllegalMoveAttempt(move, ...)`: ask `player` for the next move in `role`. */
  method Ask(player: ScriptedPlayer, role: PlayerRole, legal: bool, last: Move) returns (answer: Option<Move>)
    requires player.Valid()
    modifies player
    ensures player.Valid()
    ensures answer == Next(player.Moves(role), old(player.Count(role)))
    ensures player.Count(role) == old(player.Count(role)) + (if answer.Some? then 1 else 0)
    ensures player.Log(role) == old(player.Log(role)) + [NextRequest(legal, last)]
    ensures player.Count(Other(role)) == old(player.Count(Other(role))) && player.Log(Other(role)) == old(player.Log(Other(role)))
  {
    if legal {
      answer := player.RequestMove(role);
    } else {
      answer := player.IllegalMoveAttempt(last, role);
    }
  }

  // ----- Placement phase -----

  /** A placement rule: given the pieces, accept or refuse putting `piece` on `position`. */
  type Validation = (seq<Piece>, Piece, Point) -> bool

  /** Whether the rule passed to the placement loop accepts the attempt. */
  function Accepts(validation: Validation, pieces: seq<Piece>, piece: Piece, position: Point): bool
  {
    validation(pieces, piece, position)
  }

  /** What one round of asking did: the requests made, where reading stopped, and the move accepted, if any. */
  datatype Asked = Asked(requests: seq<Request>, next: nat, accepted: Option<Move>)

  /**
   * The inner loop of `PlacementHelpFunction` on values: ask, with `pending` first and
   * the retry request after each refusal, until `validation` accepts a move.
   */
  function PlaceAttempts(validation: Validation, pieces: seq<Piece>, pending: Request, moves: seq<Move>, k: nat): (r: Asked)
    requires Layout(pieces) && Members(moves) && k <= |moves|
    ensures k <= r.next <= |moves|
    ensures r.accepted.None? ==> r.next == |moves|
    ensures r.accepted.Some? ==>
              k < r.next && r.accepted.value == moves[r.next - 1] &&
              Accepts(validation, pieces, pieces[r.accepted.value.piece], r.accepted.value.destination)
    ensures |r.requests| == r.next - k + (if r.accepted.Some? then 0 else 1)
    ensures r.requests[0] == pending
    decreases |moves| - k
  {
    if k == |moves| then Asked([pending], k, None)
    else if Accepts(validation, pieces, pieces[moves[k].piece], moves[k].destination) then Asked([pending], k + 1, Some(moves[k]))
    else
      var r := PlaceAttempts(validation, pieces, IllegalMoveAttempt(moves[k]), moves, k + 1);
      Asked([pending] + r.requests, r.next, r.accepted)
  }

  /**
   * What a placement run did: the pieces, the requests made, where reading stopped,
   * whether all were placed, and the accepted moves in the order they were carried out.
   */
  datatype PlaceRun = PlaceRun(pieces: seq<Piece>, requests: seq<Request>, next: nat, complete: bool, placed: seq<Move>)

  /**
   * `PlacementHelpFunction` on values: place `todo` pieces, one accepted move each. It
   * stops, incomplete, when the script runs out (where the source would wait forever).
   */
  function Placement(validation: Validation, pieces: seq<Piece>, todo: nat, moves: seq<Move>, k: nat): (r: PlaceRun)
    requires Layout(pieces) && Members(moves) && k <= |moves|
    ensures Layout(r.pieces)
    ensures k <= r.next <= |moves| && (!r.complete ==> r.next == |moves|)
    ensures todo > 0 ==> r.requests != [] && r.requests[0] == RequestMove
    ensures todo == 0 ==> r == PlaceRun(pieces, [], k, true, [])
    decreases todo
  {
    if todo == 0 then PlaceRun(pieces, [], k, true, [])
    else
      var a := PlaceAttempts(validation, pieces, RequestMove, moves, k);
      match a.accepted
      case None => PlaceRun(pieces, a.requests, a.next, false, [])
      case Some(m) =>
        var r := Placement(validation, Relocate(pieces, m.piece, m.destination), todo - 1, moves, a.next);
        PlaceRun(r.pieces, a.requests + r.requests, r.next, r.complete, [m] + r.placed)
  }

  /** What `PlacePieces` did with both scripts. */
  datatype Placed = Placed(pieces: seq<Piece>, goldRequests: seq<Request>, silverRequests: seq<Request>,
                           goldNext: nat, silverNext: nat, complete: bool)

  /** Gold places all its pieces, then Silver places all of its. */
  function PlaceAll(pieces: seq<Piece>, goldMoves: seq<Move>, gk: nat, silverMoves: seq<Move>, sk: nat): (r: Placed)
    requires Layout(pieces) && Members(goldMoves) && Members(silverMoves) && gk <= |goldMoves| && sk <= |silverMoves|
    ensures Layout(r.pieces) && gk <= r.goldNext <= |goldMoves| && sk <= r.silverNext <= |silverMoves|
  {
    var gold := Placement(IsValidGoldPlacement, pieces, CountOwned(pieces, Gold), goldMoves, gk);
    if !gold.complete then Placed(gold.pieces, gold.requests, [], gold.next, sk, false)
    else
      var silver := Placement(IsValidSilverPlacement, gold.pieces, CountOwned(gold.pieces, Silver), silverMoves, sk);
      Placed(silver.pieces, gold.requests, silver.requests, gold.next, silver.next, silver.complete)
  }

  // ----- Turn phase -----

  /** The per-turn variables: whether no action has been taken yet, and the piece already moved. */
  datatype TurnState = TurnState(firstMove: bool, movedPiece: Option<nat>)

  /** An attempt is refused (re-ask), accepted with the turn going on, or accepted and ends the turn. */
  datatype Verdict = Illegal | Continue | TurnOver

  datatype Step = Step(verdict: Verdict, turn: TurnState, state: BoardState)

  /** A capture: the victim found at `position` is removed, then the capturer moves onto its square. */
  function Captured(s: BoardState, piece: nat, position: Point): (r: BoardState)
    requires Layout(s.pieces) && piece < 33
    ensures Layout(r.pieces)
  {
    var removed := Removed(s, PieceAt(s.pieces, position));
    removed.(pieces := Relocate(removed.pieces, piece, position))
  }

  /** True iff the attempted piece may act at all: on the board, not moved yet this turn, and the role's own. */
  predicate MayAct(s: BoardState, role: PlayerRole, t: TurnState, m: Move)
    requires m.piece < |s.pieces|
  {
    OnThisBoard(s.pieces[m.piece].position) && t.movedPiece != Some(m.piece) &&
    PieceTypeMatchesPlayerRole(s.pieces[m.piece].kind, role)
  }

  /**
   * One attempt of `PerformTurn`, with `movable` the count of movable pieces the turn
   * started with (for Gold, the flagship not counted).
   */
  function TurnAction(s: BoardState, role: PlayerRole, movable: int, t: TurnState, m: Move): (r: Step)
    requires Layout(s.pieces) && m.piece < 33
    ensures Layout(r.state.pieces)
  {
    var piece := s.pieces[m.piece];
    var position := m.destination;
    if MayAct(s, role, t, m) then
      if ValidMove(s.pieces, piece, position) then
        if t.firstMove || piece.kind != GoldFlagship then
          var moved := s.(pieces := Relocate(s.pieces, m.piece, position));
          if piece.kind == GoldFlagship || !t.firstMove || movable == 1 then Step(TurnOver, t, moved)
          else Step(Continue, TurnState(false, Some(m.piece)), moved)
        else Step(Illegal, t, s)
      else if t.firstMove && IsValidCapture(s.pieces, piece, position, role) then
        Step(TurnOver, t, Captured(s, m.piece, position))
      else Step(Illegal, t, s)
    else Step(Illegal, t, s)
  }

  /** The rules one attempt `r` of a turn follows. */
  lemma TurnActionRules(s: BoardState, role: PlayerRole, movable: int, t: TurnState, m: Move, r: Step)
    requires Layout(s.pieces) && m.piece < 33
    requires r == TurnAction(s, role, movable, t, m)
    // Only an on-board piece of the role, not the one moved already, may act.
    ensures r.verdict != Illegal ==> MayAct(s, role, t, m)
    // A refused attempt changes nothing.
    ensures r.verdict == Illegal ==> r.state == s && r.turn == t
    // An accepted straight move puts the piece on the destination and changes nothing else.
    ensures r.verdict != Illegal && ValidMove(s.pieces, s.pieces[m.piece], m.destination) ==>
              r.state == s.(pieces := Relocate(s.pieces, m.piece, m.destination))
    // Anything else accepted is a capture, taken as the first action, and it ends the turn.
    ensures r.verdict != Illegal && !ValidMove(s.pieces, s.pieces[m.piece], m.destination) ==>
              t.firstMove && IsValidCapture(s.pieces, s.pieces[m.piece], m.destination, role) &&
              r.verdict == TurnOver && r.state == Captured(s, m.piece, m.destination)
    // The flagship acts only as the first action, and its move ends the turn.
    ensures r.verdict != Illegal && s.pieces[m.piece].kind == GoldFlagship ==> t.firstMove && r.verdict == TurnOver
    // A second action always ends the turn; so does any action when only one piece is movable.
    ensures r.verdict != Illegal && (!t.firstMove || movable == 1) ==> r.verdict == TurnOver
    // The turn goes on exactly after an accepted first straight move by a piece other than
    // the flagship when more than one piece is movable; that piece may not act again.
    ensures r.verdict == Continue ==>
              t.firstMove && ValidMove(s.pieces, s.pieces[m.piece], m.destination) &&
              r.turn == TurnState(false, Some(m.piece))
    ensures (r.verdict != Illegal && ValidMove(s.pieces, s.pieces[m.piece], m.destination) && t.firstMove &&
             s.pieces[m.piece].kind != GoldFlagship && movable != 1) ==> r.verdict == Continue
    // Exactly the legal attempts are accepted.
    ensures r.verdict != Illegal <==>
              MayAct(s, role, t, m) &&
              ((ValidMove(s.pieces, s.pieces[m.piece], m.destination) &&
                (t.firstMove || s.pieces[m.piece].kind != GoldFlagship)) ||
               (!ValidMove(s.pieces, s.pieces[m.piece], m.destination) && t.firstMove &&
                IsValidCapture(s.pieces, s.pieces[m.piece], m.destination, role)))
  {
  }

  /**
   * What a turn did: the board, the requests, where reading stopped, whether it ended,
   * the accepted actions, and the verdict on each move read.
   */
  datatype TurnRun = TurnRun(state: BoardState, requests: seq<Request>, next: nat, complete: bool, actions: seq<Move>,
                             verdicts: seq<Verdict>)

  /** The attempt loop of `PerformTurn`, until an action ends the turn or the script runs out. */
  function Turn(s: BoardState, role: PlayerRole, movable: int, t: TurnState, pending: Request,
                moves: seq<Move>, k: nat): (r: TurnRun)
    requires Layout(s.pieces) && Members(moves) && k <= |moves|
    ensures Layout(r.state.pieces)
    ensures k <= r.next <= |moves| && (!r.complete ==> r.next == |moves|) && (r.complete ==> r.next > k)
    ensures |r.requests| == r.next - k + (if r.complete then 0 else 1) && |r.verdicts| == r.next - k
    ensures r.requests != [] && r.requests[0] == pending
    decreases |moves| - k
  {
    if k == |moves| then TurnRun(s, [pending], k, false, [], [])
    else
      var a := TurnAction(s, role, movable, t, moves[k]);
      if a.verdict == TurnOver then TurnRun(a.state, [pending], k + 1, true, [moves[k]], [TurnOver])
      else
        var r := Turn(a.state, role, movable, a.turn, NextRequest(a.verdict == Continue, moves[k]), moves, k + 1);
        TurnRun(r.state, [pending] + r.requests, r.next, r.complete,
                (if a.verdict == Continue then [moves[k]] else []) + r.actions, [a.verdict] + r.verdicts)
  }

  /**
   * `PerformTurn` on values: with no piece of the role on the board, no move is asked
   * for; otherwise the attempt loop runs with the movable count, minus the flagship for Gold.
   */
  function TurnOf(s: BoardState, role: PlayerRole, moves: seq<Move>, k: nat): (r: TurnRun)
    requires Layout(s.pieces) && Members(moves) && k <= |moves|
    ensures Layout(r.state.pieces) && k <= r.next <= |moves|
    ensures CountMovable(s.pieces, role) == 0 ==> r == TurnRun(s, [], k, true, [], [])
    ensures CountMovable(s.pieces, role) > 0 ==>
              r.requests != [] && r.requests[0] == RequestMove && (r.complete ==> r.next > k)
  {
    var n := CountMovable(s.pieces, role);
    if n == 0 then TurnRun(s, [], k, true, [], [])
    else Turn(s, role, if role == Gold then n - 1 else n, TurnState(true, None), RequestMove, moves, k)
  }

  // ----- The game loop -----

  /** The recorded result: which of the two players won, and the role recorded with it. */
  datatype Victory = Victory(player: PlayerRole, role: PlayerRole)

  /** What the turn phase did: the board, each role's requests and reading position, the turns' roles, the result. */
  datatype GameRun = GameRun(state: BoardState, goldRequests: seq<Request>, silverRequests: seq<Request>,
                             goldNext: nat, silverNext: nat, turns: seq<PlayerRole>, winner: Option<Victory>)

  /** The gold value for Gold, the silver one for Silver. */
  function ForRole<T>(role: PlayerRole, gold: T, silver: T): T
  {
    if role == Gold then gold else silver
  }

  /** What is left to play: twice the unread moves, plus one while Gold has just played. */
  function Progress(goldMoves: seq<Move>, gk: nat, silverMoves: seq<Move>, sk: nat, current: PlayerRole): int
  {
    2 * (|goldMoves| - gk + |silverMoves| - sk) + (if current == Gold then 1 else 0)
  }

  /**
   * The loop of `PlayGame`: while nobody has won, switch role and play a turn. `current`
   * is the role of the turn just played.
   */
  function Turns(s: BoardState, current: PlayerRole, goldMoves: seq<Move>, gk: nat, silverMoves: seq<Move>, sk: nat): (g: GameRun)
    requires Layout(s.pieces) && Members(goldMoves) && Members(silverMoves) && gk <= |goldMoves| && sk <= |silverMoves|
    ensures Layout(g.state.pieces) && gk <= g.goldNext <= |goldMoves| && sk <= g.silverNext <= |silverMoves|
    decreases Progress(goldMoves, gk, silverMoves, sk, current)
  {
    FlagshipInLayout(s.pieces);
    match GetWinner(s.pieces)
    case Some(w) => GameRun(s, [], [], gk, sk, [], Some(Victory(w, current)))
    case None =>
      var role := Other(current);
      var t := TurnOf(s, role, ForRole(role, goldMoves, silverMoves), ForRole(role, gk, sk));
      var gk', sk' := ForRole(role, t.next, gk), ForRole(role, sk, t.next);
      var gr, sr := ForRole(role, t.requests, []), ForRole(role, [], t.requests);
      if !t.complete then GameRun(t.state, gr, sr, gk', sk', [role], None)
      else
        FlagshipKeepsGoldMovable(s.pieces);
        var g := Turns(t.state, role, goldMoves, gk', silverMoves, sk');
        GameRun(g.state, gr + g.goldRequests, sr + g.silverRequests, g.goldNext, g.silverNext, [role] + g.turns, g.winner)
  }

  /**
   * `PlayGame` on values: placement, then the turns, starting with the role the gold
   * player names (the loop starts from its opposite and switches before each turn).
   */
  function PlayGameRun(s: BoardState, goldMoves: seq<Move>, gk: nat, silverMoves: seq<Move>, sk: nat, start: PlayerRole): (g: GameRun)
    requires Layout(s.pieces) && Members(goldMoves) && Members(silverMoves) && gk <= |goldMoves| && sk <= |silverMoves|
    ensures Layout(g.state.pieces) && gk <= g.goldNext <= |goldMoves| && sk <= g.silverNext <= |silverMoves|
  {
    var p := PlaceAll(s.pieces, goldMoves, gk, silverMoves, sk);
    var placed := s.(pieces := p.pieces);
    if !p.complete then GameRun(placed, p.goldRequests, p.silverRequests, p.goldNext, p.silverNext, [], None)
    else
      var g := Turns(placed, if start == Gold then Silver else Gold, goldMoves, p.goldNext, silverMoves, p.silverNext);
      GameRun(g.state, p.goldRequests + g.goldRequests, p.silverRequests + g.silverRequests,
              g.goldNext, g.silverNext, g.turns, g.winner)
  }

  // ----- Bookkeeping for the loops of the engine object -----

  /** Having logged `log`, the rest of the round `r` completes the whole round `whole`. */
  ghost predicate AskTracks(whole: Asked, log0: seq<Request>, r: Asked, log: seq<Request>)
  {
    r.accepted == whole.accepted && r.next == whole.next && log0 + whole.requests == log + r.requests
  }

  /** A refused placement attempt, as `PlaceAttempts` unfolds it. */
  lemma {:induction false} PlaceAttemptRefused(v: Validation, pieces: seq<Piece>, pending: Request, moves: seq<Move>, k: nat,
                            whole: Asked, log0: seq<Request>, log: seq<Request>)
    requires Layout(pieces) && Members(moves) && k < |moves|
    requires AskTracks(whole, log0, PlaceAttempts(v, pieces, pending, moves, k), log)
    requires !Accepts(v, pieces, pieces[moves[k].piece], moves[k].destination)
    ensures AskTracks(whole, log0, PlaceAttempts(v, pieces, IllegalMoveAttempt(moves[k]), moves, k + 1), log + [pending])
  {
    var r := PlaceAttempts(v, pieces, IllegalMoveAttempt(moves[k]), moves, k + 1);
    assert log0 + whole.requests == log + ([pending] + r.requests);
  }

  /** Having logged `log`, the rest of the run `r` completes the whole run `whole`. */
  ghost predicate PlaceTracks(whole: PlaceRun, log0: seq<Request>, r: PlaceRun, log: seq<Request>)
  {
    r.pieces == whole.pieces && r.complete == whole.complete && r.next == whole.next &&
    log0 + whole.requests == log + r.requests
  }

  /** One piece placed, as `Placement` unfolds it, with `a` the round of asking that found it. */
  lemma {:induction false} PlacementRound(v: Validation, pieces: seq<Piece>, todo: nat, moves: seq<Move>, k: nat,
                       whole: PlaceRun, log0: seq<Request>, log: seq<Request>, a: Asked)
    requires Layout(pieces) && Members(moves) && k <= |moves| && todo > 0
    requires PlaceTracks(whole, log0, Placement(v, pieces, todo, moves, k), log)
    requires a == PlaceAttempts(v, pieces, RequestMove, moves, k) && a.accepted.Some?
    ensures PlaceTracks(whole, log0, Placement(v, Relocate(pieces, a.accepted.value.piece, a.accepted.value.destination),
                                               todo - 1, moves, a.next), log + a.requests)
  {
    var r := Placement(v, Relocate(pieces, a.accepted.value.piece, a.accepted.value.destination), todo - 1, moves, a.next);
    assert log0 + whole.requests == log + (a.requests + r.requests);
  }

  ghost predicate TurnTracks(whole: TurnRun, log0: seq<Request>, r: TurnRun, log: seq<Request>)
  {
    r.state == whole.state && r.complete == whole.complete && r.next == whole.next &&
    log0 + whole.requests == log + r.requests
  }

  /** An attempt that ends the turn, as `Turn` unfolds it. */
  lemma {:induction false} TurnEnds(s: BoardState, role: PlayerRole, movable: int, t: TurnState, pending: Request, moves: seq<Move>, k: nat,
                 whole: TurnRun, log0: seq<Request>, log: seq<Request>)
    requires Layout(s.pieces) && Members(moves) && k < |moves|
    requires TurnTracks(whole, log0, Turn(s, role, movable, t, pending, moves, k), log)
    requires TurnAction(s, role, movable, t, moves[k]).verdict == TurnOver
    ensures whole.state == TurnAction(s, role, movable, t, moves[k]).state
    ensures whole.complete && whole.next == k + 1 && log0 + whole.requests == log + [pending]
  {
  }

  /**
   * An attempt after which the turn goes on, as `Turn` unfolds it: `verdict`, `t'`
   * and `s'` are its outcome, `legal`, `move`, `next` and `log'` the loop's new values.
   */
  lemma {:induction false} TurnGoesOn(s: BoardState, role: PlayerRole, movable: int, t: TurnState, pending: Request, moves: seq<Move>, k: nat,
                   whole: TurnRun, log0: seq<Request>, log: seq<Request>,
                   verdict: Verdict, t': TurnState, s': BoardState, legal: bool, move: Move, next: nat, log': seq<Request>)
    requires Layout(s.pieces) && Members(moves) && k < |moves|
    requires TurnTracks(whole, log0, Turn(s, role, movable, t, pending, moves, k), log)
    requires Step(verdict, t', s') == TurnAction(s, role, movable, t, moves[k]) && verdict != TurnOver
    requires legal == (verdict == Continue) && move == moves[k] && next == k + 1 && log' == log + [pending]
    ensures Layout(s'.pieces)
    ensures TurnTracks(whole, log0, Turn(s', role, movable, t', NextRequest(legal, move), moves, next), log')
  {
    var r := Turn(s', role, movable, t', NextRequest(legal, move), moves, next);
    assert log0 + whole.requests == log + ([pending] + r.requests);
  }

  /** Having logged `goldLog` and `silverLog`, the rest of the run `g` completes the whole run `whole`. */
  ghost predicate GameTracks(whole: GameRun, goldLog0: seq<Request>, silverLog0: seq<Request>, g: GameRun,
                             goldLog: seq<Request>, silverLog: seq<Request>)
  {
    g.state == whole.state && g.winner == whole.winner && g.goldNext == whole.goldNext && g.silverNext == whole.silverNext &&
    goldLog0 + whole.goldRequests == goldLog + g.goldRequests &&
    silverLog0 + whole.silverRequests == silverLog + g.silverRequests
  }

  /**
   * A turn `t` of `role` in the game loop, as `Turns` unfolds it once nobody has won;
   * `s'`, `gk'`, `sk'`, `goldLog'` and `silverLog'` are the loop's new values.
   */
  lemma {:induction false} TurnsGoOn(s: BoardState, current: PlayerRole, goldMoves: seq<Move>, gk: nat, silverMoves: seq<Move>, sk: nat,
                  whole: GameRun, goldLog0: seq<Request>, silverLog0: seq<Request>, goldLog: seq<Request>, silverLog: seq<Request>,
                  role: PlayerRole, t: TurnRun, s': BoardState, gk': nat, sk': nat, goldLog': seq<Request>, silverLog': seq<Request>)
    requires Layout(s.pieces) && Members(goldMoves) && Members(silverMoves) && gk <= |goldMoves| && sk <= |silverMoves|
    requires Layout(s'.pieces) && gk' <= |goldMoves| && sk' <= |silverMoves|
    requires GoldFlagshipOf(s.pieces).Some? && GetWinner(s.pieces).None?
    requires GameTracks(whole, goldLog0, silverLog0, Turns(s, current, goldMoves, gk, silverMoves, sk), goldLog, silverLog)
    requires role == Other(current) && t == TurnOf(s, role, ForRole(role, goldMoves, silverMoves), ForRole(role, gk, sk))
    requires s' == t.state && gk' == ForRole(role, t.next, gk) && sk' == ForRole(role, sk, t.next)
    requires goldLog' == goldLog + ForRole(role, t.requests, []) && silverLog' == silverLog + ForRole(role, [], t.requests)
    ensures !t.complete ==>
              whole.state == s' && whole.winner == None && whole.goldNext == gk' && whole.silverNext == sk' &&
              goldLog0 + whole.goldRequests == goldLog' && silverLog0 + whole.silverRequests == silverLog'
    ensures t.complete ==> GameTracks(whole, goldLog0, silverLog0, Turns(s', role, goldMoves, gk', silverMoves, sk'), goldLog', silverLog')
    ensures t.complete ==> 0 <= Progress(goldMoves, gk', silverMoves, sk', role) < Progress(goldMoves, gk, silverMoves, sk, current)
  {
    FlagshipInLayout(s.pieces);
    var gr: seq<Request>, sr: seq<Request> := ForRole(role, t.requests, []), ForRole(role, [], t.requests);
    if t.complete {
      FlagshipKeepsGoldMovable(s.pieces);
      var g := Turns(s', role, goldMoves, gk', silverMoves, sk');
      assert Turns(s, current, goldMoves, gk, silverMoves, sk) ==
             GameRun(g.state, gr + g.goldRequests, sr + g.silverRequests, g.goldNext, g.silverNext, [role] + g.turns, g.winner);
      assert goldLog0 + whole.goldRequests == goldLog + (gr + g.goldRequests);
      assert silverLog0 + whole.silverRequests == silverLog + (sr + g.silverRequests);
      Regroup(goldLog, gr, g.goldRequests);
      Regroup(silverLog, sr, g.silverRequests);
    } else {
      assert Turns(s, current, goldMoves, gk, silverMoves, sk) == GameRun(s', gr, sr, gk', sk', [role], None);
    }
  }

  /** The game loop once `GetWinner` names a winner: the recorded role is `current`, the role of the last turn. */
  lemma {:induction false} TurnsWon(s: BoardState, current: PlayerRole, goldMoves: seq<Move>, gk: nat, silverMoves: seq<Move>, sk: nat,
                 whole: GameRun, goldLog0: seq<Request>, silverLog0: seq<Request>, goldLog: seq<Request>, silverLog: seq<Request>)
    requires Layout(s.pieces) && Members(goldMoves) && Members(silverMoves) && gk <= |goldMoves| && sk <= |silverMoves|
    requires GoldFlagshipOf(s.pieces).Some? && GetWinner(s.pieces).Some?
    requires GameTracks(whole, goldLog0, silverLog0, Turns(s, current, goldMoves, gk, silverMoves, sk), goldLog, silverLog)
    ensures whole.state == s && whole.winner == Some(Victory(GetWinner(s.pieces).value, current))
    ensures whole.goldNext == gk && whole.silverNext == sk
    ensures goldLog0 + whole.goldRequests == goldLog && silverLog0 + whole.silverRequests == silverLog
  {
  }

  /** Appending logs regroups freely. */
  lemma Regroup(a: seq<Request>, b: seq<Request>, c: seq<Request>)
    ensures a + (b + c) == (a + b) + c
  {
  }

  // ----- The engine object -----

  /** The recorded winner: the player object and the role of the last turn. */
  datatype Winner = Winner(player: ScriptedPlayer, role: PlayerRole)

  class Gameplay {
    const board: Board
    const goldPlayer: ScriptedPlayer
    const silverPlayer: ScriptedPlayer
    var winner: Option<Winner>

    /** The board keeps its layout, and every scripted move names one of its pieces. */
    ghost predicate Valid()
      reads board, goldPlayer, silverPlayer
    {
      board.Valid() && goldPlayer.Valid() && silverPlayer.Valid() &&
      Members(goldPlayer.Moves(Gold)) && Members(silverPlayer.Moves(Silver))
    }

    constructor (board: Board, goldPlayer: ScriptedPlayer, silverPlayer: ScriptedPlayer)
      ensures this.board == board && this.goldPlayer == goldPlayer && this.silverPlayer == silverPlayer
      ensures winner == None
    {
      this.board := board;
      this.goldPlayer := goldPlayer;
      this.silverPlayer := silverPlayer;
      winner := None;
    }

    /** The player that plays `role`. */
    function PlayerFor(role: PlayerRole): ScriptedPlayer
    {
      if role == Gold then goldPlayer else silverPlayer
    }

    /**
     * Ask `player` for placements in `role` until `pieces` of them pass `validation`,
     * re-asking with the rejected move after each refusal.
     */
    method PlacementHelpFunction(validation: Validation, player: ScriptedPlayer, role: PlayerRole, pieces: nat)
      returns (complete: bool)
      requires board.Valid() && player.Valid() && Members(player.Moves(role))
      modifies board, player
      ensures board.Valid() && player.Valid()
      ensures var r := Placement(validation, old(board.pieces), pieces, player.Moves(role), old(player.Count(role)));
              board.State() == old(board.State()).(pieces := r.pieces) && complete == r.complete &&
              player.Log(role) == old(player.Log(role)) + r.requests && player.Count(role) == r.next
      ensures player.Count(Other(role)) == old(player.Count(Other(role))) && player.Log(Other(role)) == old(player.Log(Other(role)))
    {
      ghost var log0, silver0, gold0 := player.Log(role), board.silverRemoved, board.goldRemoved;
      ghost var whole := Placement(validation, board.pieces, pieces, player.Moves(role), player.Count(role));
      ghost var other0, otherLog0 := player.Count(Other(role)), player.Log(Other(role));
      ghost var moves, todo, gp, gk, glog := player.Moves(role), pieces, board.pieces, player.Count(role), player.Log(role);
      var i := 0;
      while i < pieces
        invariant board.Valid() && player.Valid() && i <= pieces && todo == pieces - i
        invariant board.silverRemoved == silver0 && board.goldRemoved == gold0
        invariant gp == board.pieces && gk == player.Count(role) && glog == player.Log(role)
        invariant PlaceTracks(whole, log0, Placement(validation, gp, todo, moves, gk), glog)
        invariant player.Count(Other(role)) == other0 && player.Log(Other(role)) == otherLog0
        decreases pieces - i
      {
        var placed := PlaceOne(validation, player, role, whole, log0, todo);
        if !placed {
          return false;
        }
        i, todo := i + 1, todo - 1;
        gp, gk, glog := board.pieces, player.Count(role), player.Log(role);
      }
      assert log0 + whole.requests == player.Log(role);
      return true;
    }

    /**
     * One pass of the outer loop of `PlacementHelpFunction`: ask until a placement passes
     * `validation`, then carry it out; `whole` is the run of the loop the pass belongs to.
     */
    method PlaceOne(validation: Validation, player: ScriptedPlayer, role: PlayerRole,
                    ghost whole: PlaceRun, ghost log0: seq<Request>, ghost todo: nat) returns (placed: bool)
      requires board.Valid() && player.Valid() && Members(player.Moves(role)) && todo > 0
      requires PlaceTracks(whole, log0, Placement(validation, board.pieces, todo, player.Moves(role), player.Count(role)),
                           player.Log(role))
      modifies board, player
      ensures board.Valid() && player.Valid()
      ensures board.silverRemoved == old(board.silverRemoved) && board.goldRemoved == old(board.goldRemoved)
      ensures !placed ==>
                whole.pieces == board.pieces && !whole.complete && whole.next == player.Count(role) &&
                log0 + whole.requests == player.Log(role)
      ensures placed ==>
                PlaceTracks(whole, log0, Placement(validation, board.pieces, todo - 1, player.Moves(role), player.Count(role)),
                            player.Log(role))
      ensures player.Count(Other(role)) == old(player.Count(Other(role))) && player.Log(Other(role)) == old(player.Log(Other(role)))
    {
      ghost var pieces, k, log := board.pieces, player.Count(role), player.Log(role);
      ghost var a := PlaceAttempts(validation, pieces, RequestMove, player.Moves(role), k);
      var move := AskPlacement(validation, player, role);
      if move.None? {
        assert log0 + whole.requests == player.Log(role);
        return false;
      }
      PlacementRound(validation, pieces, todo, player.Moves(role), k, whole, log0, log, a);
      board.SetPiecePosition(move.value.piece, move.value.destination);
      return true;
    }

    /**
     * The inner loop of `PlacementHelpFunction`: ask until a move passes `validation`,
     * which the caller then carries out.
     */
    method AskPlacement(validation: Validation, player: ScriptedPlayer, role: PlayerRole) returns (accepted: Option<Move>)
      requires board.Valid() && player.Valid() && Members(player.Moves(role))
      modifies player
      ensures player.Valid()
      ensures var a := PlaceAttempts(validation, board.pieces, RequestMove, player.Moves(role), old(player.Count(role)));
              accepted == a.accepted && player.Log(role) == old(player.Log(role)) + a.requests && player.Count(role) == a.next
      ensures player.Count(Other(role)) == old(player.Count(Other(role))) && player.Log(Other(role)) == old(player.Log(Other(role)))
    {
      ghost var moves, log0 := player.Moves(role), player.Log(role);
      ghost var whole := PlaceAttempts(validation, board.pieces, RequestMove, moves, player.Count(role));
      ghost var other0, otherLog0 := player.Count(Other(role)), player.Log(Other(role));
      var move := Move(0, DefaultPosition);
      var legal := true;
      while true
        invariant player.Valid()
        invariant AskTracks(whole, log0, PlaceAttempts(validation, board.pieces, NextRequest(legal, move), moves, player.Count(role)),
                            player.Log(role))
        invariant player.Count(Other(role)) == other0 && player.Log(Other(role)) == otherLog0
        decreases |moves| - player.Count(role)
      {
        ghost var k, log := player.Count(role), player.Log(role);
        ghost var pending := NextRequest(legal, move);
        var answer := Ask(player, role, legal, move);
        if answer.None? {
          assert log0 + whole.requests == player.Log(role);
          return None;
        }
        move := answer.value;
        legal := Accepts(validation, board.pieces, board.pieces[move.piece], move.destination);
        if legal {
          assert log0 + whole.requests == player.Log(role);
          return Some(move);
        }
        PlaceAttemptRefused(validation, board.pieces, pending, moves, k, whole, log0, log);
      }
    }

    /** Gold places all of its pieces, then Silver all of its. */
    method PlacePieces() returns (complete: bool)
      requires Valid()
      modifies board, goldPlayer, silverPlayer
      ensures Valid()
      ensures var p := PlaceAll(old(board.pieces), goldPlayer.Moves(Gold), old(goldPlayer.Count(Gold)),
                                silverPlayer.Moves(Silver), old(silverPlayer.Count(Silver)));
              board.State() == old(board.State()).(pieces := p.pieces) && complete == p.complete &&
              goldPlayer.Log(Gold) == old(goldPlayer.Log(Gold)) + p.goldRequests && goldPlayer.Count(Gold) == p.goldNext &&
              silverPlayer.Log(Silver) == old(silverPlayer.Log(Silver)) + p.silverRequests && silverPlayer.Count(Silver) == p.silverNext
      ensures goldPlayer != silverPlayer ==>
                goldPlayer.Count(Silver) == old(goldPlayer.Count(Silver)) && goldPlayer.Log(Silver) == old(goldPlayer.Log(Silver)) &&
                silverPlayer.Count(Gold) == old(silverPlayer.Count(Gold)) && silverPlayer.Log(Gold) == old(silverPlayer.Log(Gold))
    {
      var numberOfGoldPieces := CountOwned(board.pieces, Gold);
      complete := PlacementHelpFunction(IsValidGoldPlacement, goldPlayer, Gold, numberOfGoldPieces);
      if !complete {
        return;
      }
      var numberOfSilverPieces := CountOwned(board.pieces, Silver);
      complete := PlacementHelpFunction(IsValidSilverPlacement, silverPlayer, Silver, numberOfSilverPieces);
    }

    /**
     * Play one turn of `role`: ask until an action ends the turn. The source's two
     * exits become `true`; a used-up script ends the turn early with `false`.
     */
    method PerformTurn(role: PlayerRole) returns (complete: bool)
      requires Valid()
      modifies board, PlayerFor(role)
      ensures Valid()
      ensures var r := TurnOf(old(board.State()), role, ForRole(role, goldPlayer.Moves(Gold), silverPlayer.Moves(Silver)),
                              ForRole(role, old(goldPlayer.Count(Gold)), old(silverPlayer.Count(Silver))));
              board.State() == r.state && complete == r.complete &&
              goldPlayer.Count(Gold) == ForRole(role, r.next, old(goldPlayer.Count(Gold))) &&
              silverPlayer.Count(Silver) == ForRole(role, old(silverPlayer.Count(Silver)), r.next) &&
              goldPlayer.Log(Gold) == old(goldPlayer.Log(Gold)) + ForRole(role, r.requests, []) &&
              silverPlayer.Log(Silver) == old(silverPlayer.Log(Silver)) + ForRole(role, [], r.requests)
      ensures goldPlayer != silverPlayer ==>
                goldPlayer.Count(Silver) == old(goldPlayer.Count(Silver)) && goldPlayer.Log(Silver) == old(goldPlayer.Log(Silver)) &&
                silverPlayer.Count(Gold) == old(silverPlayer.Count(Gold)) && silverPlayer.Log(Gold) == old(silverPlayer.Log(Gold))
    {
      var current := PlayerFor(role);
      complete := TurnBy(current, role);
    }

    /** `PerformTurn` once the player of `role` is chosen: count the movable pieces, then loop. */
    method TurnBy(current: ScriptedPlayer, role: PlayerRole) returns (complete: bool)
      requires board.Valid() && current.Valid() && Members(current.Moves(role))
      modifies board, current
      ensures board.Valid() && current.Valid()
      ensures var r := TurnOf(old(board.State()), role, current.Moves(role), old(current.Count(role)));
              board.State() == r.state && complete == r.complete &&
              current.Log(role) == old(current.Log(role)) + r.requests && current.Count(role) == r.next
      ensures current.Count(Other(role)) == old(current.Count(Other(role))) && current.Log(Other(role)) == old(current.Log(Other(role)))
    {
      var numberOfMovablePieces := CountMovable(board.pieces, role);
      if numberOfMovablePieces == 0 {
        return true;
      }
      if role == Gold {
        numberOfMovablePieces := numberOfMovablePieces - 1;
      }
      complete := TurnLoop(current, role, numberOfMovablePieces);
    }

    /** The attempt loop of `PerformTurn`, with `movable` the movable count it computed. */
    method TurnLoop(current: ScriptedPlayer, role: PlayerRole, movable: int) returns (complete: bool)
      requires board.Valid() && current.Valid() && Members(current.Moves(role))
      modifies board, current
      ensures board.Valid() && current.Valid()
      ensures var r := Turn(old(board.State()), role, movable, TurnState(true, None), RequestMove,
                            current.Moves(role), old(current.Count(role)));
              board.State() == r.state && complete == r.complete &&
              current.Log(role) == old(current.Log(role)) + r.requests && current.Count(role) == r.next
      ensures current.Count(Other(role)) == old(current.Count(Other(role))) && current.Log(Other(role)) == old(current.Log(Other(role)))
    {
      ghost var moves, log0 := current.Moves(role), current.Log(role);
      ghost var whole := Turn(board.State(), role, movable, TurnState(true, None), RequestMove, moves, current.Count(role));
      ghost var other0, otherLog0 := current.Count(Other(role)), current.Log(Other(role));
      var move := Move(0, DefaultPosition);
      var turn := TurnState(true, None);
      var legal := true;
      while true
        invariant board.Valid() && current.Valid()
        invariant TurnTracks(whole, log0, Turn(board.State(), role, movable, turn, NextRequest(legal, move),
                                              moves, current.Count(role)), current.Log(role))
        invariant current.Count(Other(role)) == other0 && current.Log(Other(role)) == otherLog0
        decreases |moves| - current.Count(role)
      {
        ghost var s, k, log := board.State(), current.Count(role), current.Log(role);
        ghost var pending, t := NextRequest(legal, move), turn;
        var answer := Ask(current, role, legal, move);
        if answer.None? {
          assert log0 + whole.requests == current.Log(role);
          return false;
        }
        move := answer.value;
        var verdict;
        verdict, turn := Attempt(role, movable, turn, move);
        if verdict == TurnOver {
          TurnEnds(s, role, movable, t, pending, moves, k, whole, log0, log);
          return true;
        }
        legal := verdict == Continue;
        TurnGoesOn(s, role, movable, t, pending, moves, k, whole, log0, log,
                   verdict, turn, board.State(), legal, move, current.Count(role), current.Log(role));
      }
    }

    /**
     * One attempt inside `PerformTurn`'s loop: check `move` against the turn so far and
     * carry it out when legal. The source's `return true` is the verdict `TurnOver`.
     */
    method Attempt(role: PlayerRole, movable: int, t: TurnState, move: Move) returns (verdict: Verdict, turn: TurnState)
      requires board.Valid() && move.piece < 33
      modifies board
      ensures board.Valid()
      ensures Step(verdict, turn, board.State()) == TurnAction(old(board.State()), role, movable, t, move)
    {
      var piece := board.pieces[move.piece];
      var position := move.destination;
      verdict, turn := Illegal, t;
      if OnThisBoard(piece.position) && t.movedPiece != Some(move.piece) && PieceTypeMatchesPlayerRole(piece.kind, role) {
        var isMove := IsValidMove(board.pieces, piece, position);
        if isMove {
          var legal := t.firstMove || piece.kind != GoldFlagship;
          if legal {
            board.SetPiecePosition(move.piece, position);
            if piece.kind == GoldFlagship || !t.firstMove || movable == 1 {
              verdict := TurnOver;
            } else {
              verdict, turn := Continue, TurnState(false, Some(move.piece));
            }
          }
        } else if t.firstMove && IsValidCapture(board.pieces, piece, position, role) {
          board.RemoveFromBoard(PieceAt(board.pieces, position));
          board.SetPiecePosition(move.piece, position);
          verdict := TurnOver;
        }
      }
    }

    /**
     * Place the pieces, let the gold player name the starting role, then play turns
     * until `GetWinner` names a winner, and record it with the role of the last turn.
     */
    method PlayGame()
      requires Valid()
      modifies this, board, goldPlayer, silverPlayer
      ensures Valid()
      ensures var g := PlayGameRun(old(board.State()), goldPlayer.Moves(Gold), old(goldPlayer.Count(Gold)),
                                   silverPlayer.Moves(Silver), old(silverPlayer.Count(Silver)), goldPlayer.startingRole);
              board.State() == g.state &&
              goldPlayer.Log(Gold) == old(goldPlayer.Log(Gold)) + g.goldRequests && goldPlayer.Count(Gold) == g.goldNext &&
              silverPlayer.Log(Silver) == old(silverPlayer.Log(Silver)) + g.silverRequests && silverPlayer.Count(Silver) == g.silverNext &&
              winner == match g.winner
                        case None => old(winner)
                        case Some(v) => Some(Winner(PlayerFor(v.player), v.role))
      ensures goldPlayer != silverPlayer ==>
                goldPlayer.Count(Silver) == old(goldPlayer.Count(Silver)) && goldPlayer.Log(Silver) == old(goldPlayer.Log(Silver)) &&
                silverPlayer.Count(Gold) == old(silverPlayer.Count(Gold)) && silverPlayer.Log(Gold) == old(silverPlayer.Log(Gold))
    {
      ghost var goldLog0, silverLog0 := goldPlayer.Log(Gold), silverPlayer.Log(Silver);
      ghost var p := PlaceAll(board.pieces, goldPlayer.Moves(Gold), goldPlayer.Count(Gold),
                              silverPlayer.Moves(Silver), silverPlayer.Count(Silver));
      var placed := PlacePieces();
      if !placed {
        return;
      }
      var currentRole := if goldPlayer.RequestStartingPlayer() == Gold then Silver else Gold;
      ghost var g := Turns(board.State(), currentRole, goldPlayer.Moves(Gold), goldPlayer.Count(Gold),
                           silverPlayer.Moves(Silver), silverPlayer.Count(Silver));
      var result := PlayTurns(currentRole);
      if result.Some? {
        winner := Some(Winner(PlayerFor(result.value.player), result.value.role));
      }
      Regroup(goldLog0, p.goldRequests, g.goldRequests);
      Regroup(silverLog0, p.silverRequests, g.silverRequests);
    }

    /**
     * The loop of `PlayGame`: from `currentRole`, the role before the first turn, switch
     * role and play a turn until `GetWinner` names a winner; the result pairs it with the
     * role of the last turn.
     */
    method PlayTurns(currentRole: PlayerRole) returns (result: Option<Victory>)
      requires Valid()
      modifies board, goldPlayer, silverPlayer
      ensures Valid()
      ensures var g := Turns(old(board.State()), currentRole, goldPlayer.Moves(Gold), old(goldPlayer.Count(Gold)),
                             silverPlayer.Moves(Silver), old(silverPlayer.Count(Silver)));
              board.State() == g.state && result == g.winner &&
              goldPlayer.Log(Gold) == old(goldPlayer.Log(Gold)) + g.goldRequests && goldPlayer.Count(Gold) == g.goldNext &&
              silverPlayer.Log(Silver) == old(silverPlayer.Log(Silver)) + g.silverRequests && silverPlayer.Count(Silver) == g.silverNext
      ensures goldPlayer != silverPlayer ==>
                goldPlayer.Count(Silver) == old(goldPlayer.Count(Silver)) && goldPlayer.Log(Silver) == old(goldPlayer.Log(Silver)) &&
                silverPlayer.Count(Gold) == old(silverPlayer.Count(Gold)) && silverPlayer.Log(Gold) == old(silverPlayer.Log(Gold))
    {
      ghost var goldMoves, silverMoves := goldPlayer.Moves(Gold), silverPlayer.Moves(Silver);
      ghost var goldLog1, silverLog1 := goldPlayer.Log(Gold), silverPlayer.Log(Silver);
      ghost var whole := Turns(board.State(), currentRole, goldMoves, goldPlayer.Count(Gold), silverMoves, silverPlayer.Count(Silver));
      var role := currentRole;
      FlagshipInLayout(board.pieces);
      var w := GetWinner(board.pieces);
      while w.None?
        invariant Valid() && w == GetWinner(board.pieces)
        invariant GameTracks(whole, goldLog1, silverLog1,
                             Turns(board.State(), role, goldMoves, goldPlayer.Count(Gold), silverMoves, silverPlayer.Count(Silver)),
                             goldPlayer.Log(Gold), silverPlayer.Log(Silver))
        invariant goldPlayer != silverPlayer ==>
                    goldPlayer.Count(Silver) == old(goldPlayer.Count(Silver)) && goldPlayer.Log(Silver) == old(goldPlayer.Log(Silver)) &&
                    silverPlayer.Count(Gold) == old(silverPlayer.Count(Gold)) && silverPlayer.Log(Gold) == old(silverPlayer.Log(Gold))
        decreases Progress(goldMoves, goldPlayer.Count(Gold), silverMoves, silverPlayer.Count(Silver), role)
      {
        FlagshipInLayout(board.pieces);
        var complete;
        role, complete := Round(role, whole, goldLog1, silverLog1);
        if !complete {
          return None;
        }
        w := GetWinner(board.pieces);
      }
      TurnsWon(board.State(), role, goldMoves, goldPlayer.Count(Gold), silverMoves, silverPlayer.Count(Silver),
               whole, goldLog1, silverLog1, goldPlayer.Log(Gold), silverPlayer.Log(Silver));
      result := Some(Victory(w.value, role));
    }

    /**
     * One pass of the loop of `PlayGame`: switch from `previous` to the other role and
     * play its turn; `whole` is the run of the loop the pass belongs to.
     */
    method Round(previous: PlayerRole, ghost whole: GameRun, ghost goldLog1: seq<Request>, ghost silverLog1: seq<Request>)
      returns (role: PlayerRole, complete: bool)
      requires Valid() && GoldFlagshipOf(board.pieces).Some? && GetWinner(board.pieces).None?
      requires GameTracks(whole, goldLog1, silverLog1,
                          Turns(board.State(), previous, goldPlayer.Moves(Gold), goldPlayer.Count(Gold),
                                silverPlayer.Moves(Silver), silverPlayer.Count(Silver)),
                          goldPlayer.Log(Gold), silverPlayer.Log(Silver))
      modifies board, goldPlayer, silverPlayer
      ensures Valid() && role == Other(previous)
      ensures !complete ==>
                whole.state == board.State() && whole.winner == None &&
                whole.goldNext == goldPlayer.Count(Gold) && whole.silverNext == silverPlayer.Count(Silver) &&
                goldLog1 + whole.goldRequests == goldPlayer.Log(Gold) && silverLog1 + whole.silverRequests == silverPlayer.Log(Silver)
      ensures complete ==>
                GameTracks(whole, goldLog1, silverLog1,
                           Turns(board.State(), role, goldPlayer.Moves(Gold), goldPlayer.Count(Gold),
                                 silverPlayer.Moves(Silver), silverPlayer.Count(Silver)),
                           goldPlayer.Log(Gold), silverPlayer.Log(Silver))
      ensures complete ==>
                0 <= Progress(goldPlayer.Moves(Gold), goldPlayer.Count(Gold), silverPlayer.Moves(Silver), silverPlayer.Count(Silver), role) <
                Progress(goldPlayer.Moves(Gold), old(goldPlayer.Count(Gold)), silverPlayer.Moves(Silver), old(silverPlayer.Count(Silver)), previous)
      ensures goldPlayer != silverPlayer ==>
                goldPlayer.Count(Silver) == old(goldPlayer.Count(Silver)) && goldPlayer.Log(Silver) == old(goldPlayer.Log(Silver)) &&
                silverPlayer.Count(Gold) == old(silverPlayer.Count(Gold)) && silverPlayer.Log(Gold) == old(silverPlayer.Log(Gold))
    {
      ghost var goldMoves, silverMoves := goldPlayer.Moves(Gold), silverPlayer.Moves(Silver);
      ghost var s, gk, sk, goldLog, silverLog := board.State(), goldPlayer.Count(Gold), silverPlayer.Count(Silver),
                                                 goldPlayer.Log(Gold), silverPlayer.Log(Silver);
      role := if previous == Gold then Silver else Gold;
      ghost var t := TurnOf(s, role, ForRole(role, goldMoves, silverMoves), ForRole(role, gk, sk));
      complete := PerformTurn(role);
      TurnsGoOn(s, previous, goldMoves, gk, silverMoves, sk, whole, goldLog1, silverLog1, goldLog, silverLog,
                role, t, board.State(), goldPlayer.Count(Gold), silverPlayer.Count(Silver),
                goldPlayer.Log(Gold), silverPlayer.Log(Silver));
    }
  }
}
