/**
 * The move source. Player.cs is an abstract interface; the model gives it the one
 * concrete shape the repository tests with (TestBreakthruGame/PlayerStub.cs): a fixed
 * list of moves and a counter per role, and the starting role it answers. It also
 * records, per role, which of the two requests the engine made, which is what the
 * stub's own bookkeeping checks.
 */
module ScriptedPlayers {
  import opened Wrappers
  import opened Pieces

  /** How the engine asked: the plain request, or the retry that hands back the rejected move. */
  datatype Request = RequestMove | IllegalMoveAttempt(rejected: Move)

  /** The move at position `k` of a script, or None once the script is used up. */
  function Next(moves: seq<Move>, k: nat): (r: Option<Move>)
    ensures r.Some? <==> k < |moves|
    ensures r.Some? ==> r.value == moves[k]
  {
    if k < |moves| then Some(moves[k]) else None
  }

  class ScriptedPlayer {
    const goldMoves: seq<Move>
    const silverMoves: seq<Move>
    const startingRole: PlayerRole
    var goldCount: nat
    var silverCount: nat
    var goldLog: seq<Request>
    var silverLog: seq<Request>

    /** A counter never runs past the end of its list. */
    ghost predicate Valid()
      reads this
    {
      goldCount <= |goldMoves| && silverCount <= |silverMoves|
    }

    constructor (goldMoves: seq<Move>, silverMoves: seq<Move>, startingRole: PlayerRole)
      ensures Valid()
      ensures this.goldMoves == goldMoves && this.silverMoves == silverMoves
      ensures this.startingRole == startingRole
      ensures Count(Gold) == 0 && Count(Silver) == 0
      ensures Log(Gold) == [] && Log(Silver) == []
    {
      this.goldMoves := goldMoves;
      this.silverMoves := silverMoves;
      this.startingRole := startingRole;
      goldCount, silverCount := 0, 0;
      goldLog, silverLog := [], [];
    }

    function Moves(role: PlayerRole): seq<Move>
    {
      if role == Gold then goldMoves else silverMoves
    }

    function Count(role: PlayerRole): nat
      reads this
    {
      if role == Gold then goldCount else silverCount
    }

    /** The requests received so far in `role`. */
    function Log(role: PlayerRole): seq<Request>
      reads this
    {
      if role == Gold then goldLog else silverLog
    }

    /** Asked of the gold player once, before the first turn. */
    function RequestStartingPlayer(): PlayerRole
    {
      startingRole
    }

    /** Answer one request in `role`: the next scripted move, or None once the script is used up. */
    method Answer(role: PlayerRole, request: Request) returns (move: Option<Move>)
      requires Valid()
      modifies this
      ensures Valid()
      ensures move == Next(Moves(role), old(Count(role)))
      ensures Count(role) == old(Count(role)) + (if move.Some? then 1 else 0)
      ensures Log(role) == old(Log(role)) + [request]
      ensures Count(Other(role)) == old(Count(Other(role))) && Log(Other(role)) == old(Log(Other(role)))
    {
      if role == Gold {
        goldLog := goldLog + [request];
        if goldCount < |goldMoves| {
          move := Some(goldMoves[goldCount]);
          goldCount := goldCount + 1;
        } else {
          move := None;
        }
      } else {
        silverLog := silverLog + [request];
        if silverCount < |silverMoves| {
          move := Some(silverMoves[silverCount]);
          silverCount := silverCount + 1;
        } else {
          move := None;
        }
      }
    }

    /** The first request for an action. */
    method RequestMove(role: PlayerRole) returns (move: Option<Move>)
      requires Valid()
      modifies this
      ensures Valid()
      ensures move == Next(Moves(role), old(Count(role)))
      ensures Count(role) == old(Count(role)) + (if move.Some? then 1 else 0)
      ensures Log(role) == old(Log(role)) + [Request.RequestMove]
      ensures Count(Other(role)) == old(Count(Other(role))) && Log(Other(role)) == old(Log(Other(role)))
    {
      move := Answer(role, Request.RequestMove);
    }

    /** The request made right after `rejected` was refused. */
    method IllegalMoveAttempt(rejected: Move, role: PlayerRole) returns (move: Option<Move>)
      requires Valid()
      modifies this
      ensures Valid()
      ensures move == Next(Moves(role), old(Count(role)))
      ensures Count(role) == old(Count(role)) + (if move.Some? then 1 else 0)
      ensures Log(role) == old(Log(role)) + [Request.IllegalMoveAttempt(rejected)]
      ensures Count(Other(role)) == old(Count(Other(role))) && Log(Other(role)) == old(Log(Other(role)))
    {
      move := Answer(role, Request.IllegalMoveAttempt(rejected));
    }
  }
}
