# Breakthru rules engine in Dafny

This project models the rules engine of a Breakthru board game and the board container it changes.

**The board.** An 11 × 11 board owns a fixed list of 33 pieces: 20 silverships, 12 gold escorts and one gold flagship. Each piece has a fixed type and a position that changes. The board can:
- park every piece on an off-board reserve slot (`ResetPieces`);
- send a captured piece to the next free "removed" slot of its colour, using one counter per colour (`RemoveFromBoard`).

**The engine** plays a game in two phases:
- **Placement.** Gold places its 13 pieces, then Silver its 20. Each placement passes a validation rule, and every refused attempt is asked for again with the rejected move handed back.
- **Turns.** Turns alternate until `GetWinner` names a winner. A turn is one flagship move, one capture, or up to two straight moves of different pieces.

**How it is modelled.**
- Points are pairs of exact reals.
- A piece is identified by its index in the board's list.
- The `Player` interface becomes a scripted player: a fixed list of moves per role, in the shape of the repository's test stub. It also logs which request the engine made.
- Each loop of the engine is a method of class `Gameplay` that changes the board and the players. Its postcondition ties the new state, the requests logged and the moves consumed to a function that plays the same rules on values (`Placement`, `PlaceAll`, `TurnOf`, `Turns`, `PlayGameRun`).
- The lemmas of module `GameplayProperties` prove what the game promises about those functions.

Files:
- `wrappers.dfy`: Option.
- `pieces.dfy`: points, piece types, roles, pieces, moves.
- `game_board.dfy`: the generic board queries.
- `breakthru_game_board.dfy`: the Breakthru board.
- `breakthru_rules.dfy`: the pure rules.
- `scripted_player.dfy`: the move source.
- `breakthru_gameplay.dfy`: the state machine.
- `gameplay_properties.dfy`: its properties.

## Model

| member | source | states |
|---|---|---|
| Pieces.NewPiece | BreakthruGame/BreakthruGamePiece.cs:24-35 | a piece built from a type alone has that type and the default position (0,0) |
| Pieces.SetPosition | BreakthruGame/GamePiece.cs:37-48 | the position setter accepts any point and leaves the type unchanged |
| Pieces.Other | BreakthruGame/BreakthruGameplay.cs:102 | the role switch always yields the other role |
| GameBoard.OnBoard | BreakthruGame/GameBoard.cs:41-44 | a point is on a width × height board iff 0 ≤ x < width and 0 ≤ y < height; its partner on this board is `OnBoardCorners` |
| GameBoard.IsEmpty | BreakthruGame/GameBoard.cs:51-54 | no piece of the list stands at exactly the point; its partners are `IsEmptyIff` and `EmptyIffNoPieceAt` |
| GameBoard.PieceAt | BreakthruGame/GameBoard.cs:61-64 | a returned index names a piece of the list whose position is exactly the point |
| GameBoard.PieceAtIsFirst | BreakthruGame/GameBoard.cs:61-64 | `PieceAt` is the first piece in list order at the point, and None exactly when no piece is there |
| GameBoard.IsEmptyIff | BreakthruGame/GameBoard.cs:51-54 | `IsEmpty(p)` iff no piece of the list, on or off the board, has position exactly p |
| GameBoard.EmptyIffNoPieceAt | BreakthruGame/GameBoard.cs:51-64 | `IsEmpty(p)` iff `PieceAt(p)` is null |
| GameBoard.Relocate | BreakthruGame/GamePiece.cs:37-48 | assigning one piece's position keeps the list length and every type, sets that piece's position, and leaves every other piece unchanged |
| GameBoard.RelocateKeepsOthers | BreakthruGame/GameBoard.cs:51-54 | after one piece moves to d, any point other than d is empty iff no other piece stands on it |
| BreakthruGameBoard.OnBoardCorners | BreakthruGame/GameBoard.cs:41-44 | (0,0), (10,10), (0,10) and (10,0) are on the board; (-1,0), (0,-1), (0,11) and (11,0) are not |
| BreakthruGameBoard.InGoldArea | BreakthruGame/BreakthruGameBoard.cs:104-107 | a point is in the gold area iff both coordinates lie in [3, 7]; its partners are `InGoldAreaExamples` and `GoldAreaInside` |
| BreakthruGameBoard.InGoldAreaExamples | TestBreakthruGame/TestBreakthruGameBoard.cs:45-60 | (0,0), (2,2), (2,3), (3,2), (8,8), (7,8) and (8,7) are outside the gold area; (3,3), (5,5) and (7,7) are inside |
| BreakthruGameBoard.GoldAreaInside | BreakthruGame/BreakthruGameBoard.cs:104-107 | every point of the gold area is on the board and off its outer rim, and the centre (5,5) is in it |
| BreakthruGameBoard.GoldFlagshipOf | BreakthruGame/BreakthruGameBoard.cs:63-71 | a found index is a flagship with no flagship before it; None iff the list holds no flagship |
| BreakthruGameBoard.FlagshipInLayout | BreakthruGame/BreakthruGameBoard.cs:63-71 | in the constructor's layout the flagship query returns index 32, the only flagship |
| BreakthruGameBoard.IndicesOfKind | BreakthruGame/BreakthruGameBoard.cs:116-118 | the query lists only indices of pieces of the type, in strictly increasing list order |
| BreakthruGameBoard.IndicesInLayout | BreakthruGame/BreakthruGameBoard.cs:116-128 | in the constructor's layout the silverships are indices 0..19, the escorts 20..31, the flagship 32 |
| BreakthruGameBoard.InitialPieces | BreakthruGame/BreakthruGameBoard.cs:78-95 | the reset list holds 20 silverships, then 12 escorts, then the flagship |
| BreakthruGameBoard.Board.constructor | BreakthruGame/BreakthruGameBoard.cs:78-95 | a new board holds the 33 pieces in that order, parked as `ResetPieces` parks them, with both counters 0 |
| BreakthruGameBoard.Board.ResetPieces | BreakthruGame/BreakthruGameBoard.cs:114-141 | silvership i goes to (11 + i/10, i%10), escort i to (-(i/6) - 1, i%6 + 1), the flagship to (-1.5, 0); both removal counters become 0 |
| BreakthruGameBoard.CsDivOfNegated | BreakthruGame/BreakthruGameBoard.cs:133 | C#'s truncating `-i / d` equals `-(i / d)` |
| BreakthruGameBoard.ReserveOffBoard | BreakthruGame/BreakthruGameBoard.cs:114-141 | every reserve slot lies off the board |
| BreakthruGameBoard.ReserveDistinct | BreakthruGame/BreakthruGameBoard.cs:114-141 | distinct pieces get distinct reserve slots |
| BreakthruGameBoard.ResetPiecesPlacement | BreakthruGame/BreakthruGameBoard.cs:114-141 | after a reset every piece is off the board and no two pieces share a position |
| BreakthruGameBoard.Removed | BreakthruGame/BreakthruGameBoard.cs:149-167 | null or a non-member piece changes nothing, counters included. A gold piece goes to (11 + g/10, g%10) and g grows by one; a silvership goes to (-(s/10) - 1, s%10) and s grows by one. The new slot is off the board. No other piece moves, no type changes, and the other colour's counter is kept |
| BreakthruGameBoard.Board.RemoveFromBoard | BreakthruGame/BreakthruGameBoard.cs:149-167 | the new board state is exactly `Removed` of the old one |
| BreakthruGameBoard.Board.SetPiecePosition | BreakthruGame/GamePiece.cs:37-48 | only the named piece's position changes, to the given point; the counters are kept |
| BreakthruGameBoard.RemovedSlotsInjective | BreakthruGame/BreakthruGameBoard.cs:158-163 | different counter values give different removed slots, for either colour |
| BreakthruGameBoard.SuccessiveRemovalsDistinct | BreakthruGame/BreakthruGameBoard.cs:149-167 | two successive removals of two pieces of one colour leave them in different slots |
| BreakthruRules.PieceTypeMatchesPlayerRole | BreakthruGame/BreakthruGameplay.cs:120-123 | Silver matches silverships, Gold every other type; its partner is `RoleOwnership` |
| BreakthruRules.RoleOwnership | BreakthruGame/BreakthruGameplay.cs:120-123 | Silver owns exactly the silverships, Gold exactly the escorts and the flagship; every type belongs to exactly one role |
| BreakthruRules.CountOwned | BreakthruGame/BreakthruGameplay.cs:135-143 | the owned count never exceeds the list length |
| BreakthruRules.CountOwnedIsSize | BreakthruGame/BreakthruGameplay.cs:135-143 | the owned count is the number of list positions whose piece belongs to the role |
| BreakthruRules.CountOwnedInLayout | BreakthruGame/BreakthruGameplay.cs:135-143 | in the constructor's layout Gold owns 13 pieces and Silver 20 |
| BreakthruRules.CountMovable | BreakthruGame/BreakthruGameplay.cs:252 | the number of pieces of the list on the board that belong to the role; its partner is `MovableCounts` |
| BreakthruRules.MovableCounts | BreakthruGame/BreakthruGameplay.cs:252 | the movable count is at most the owned count; it equals it iff every owned piece is on the board, and it is 0 iff none is |
| BreakthruRules.FlagshipKeepsGoldMovable | BreakthruGame/BreakthruGameplay.cs:252-259 | while the flagship is on the board, Gold's movable count is at least 1 |
| BreakthruRules.BasicPlacementCheck | BreakthruGame/BreakthruGameplay.cs:195-198 | the piece is off the board and the destination empty; its partners are the two placement rules and `RuleAccepts` |
| BreakthruRules.IsValidGoldPlacement | BreakthruGame/BreakthruGameplay.cs:195-217 | acceptance implies the basic check (piece off the board, destination empty), a gold piece, and an on-board destination; a flagship is accepted iff the basic check holds and the destination is (5,5); an escort iff the basic check holds and the destination is in the gold area but not (5,5); a silvership never |
| BreakthruRules.IsValidSilverPlacement | BreakthruGame/BreakthruGameplay.cs:195-230 | accepted iff the basic check holds, the piece is a silvership, and the destination is on the board outside the gold area; an accepted piece is Silver's and not on the flagship's square. Its partners are `RuleAccepts` and `RolePlacementComplete` |
| BreakthruRules.IsValidMove | BreakthruGame/BreakthruGameplay.cs:329-356 | the early-exit scan returns exactly the predicate "one coordinate differs and every scanned cell is free" |
| BreakthruRules.ScanRange | BreakthruGame/BreakthruGameplay.cs:335-336 | on integer cells the truncated min/max bounds cover exactly the cells from one past the origin up to and including the destination |
| BreakthruRules.IsValidMovePath | BreakthruGame/BreakthruGameplay.cs:329-356 | for integer cells a move is valid iff exactly one coordinate differs and every cell from one past the origin up to and including the destination is empty, so the destination must be empty |
| BreakthruRules.DiagonalIsNoMove | BreakthruGame/BreakthruGameplay.cs:329-356 | a diagonal step is never a valid straight move |
| BreakthruRules.MoveOffBoardExample | BreakthruGame/BreakthruGameplay.cs:329-356 | the destination need not be on the board: a silvership at (0,0) may move to (0,-2) |
| BreakthruRules.IsValidCapture | BreakthruGame/BreakthruGameplay.cs:309-319 | a capture is valid iff \|dx\| = \|dy\| = 1, a piece stands on the destination, and it is of the other colour; the destination is then not empty |
| BreakthruRules.GetWinner | BreakthruGame/BreakthruGameplay.cs:362-374 | Silver iff the flagship is off the board; Gold iff the flagship is on the board on x=0, y=0, x=10 or y=10; otherwise no winner |
| BreakthruRules.GoldWinsOnRim | BreakthruGame/BreakthruGameplay.cs:369 | for a flagship on an integer cell, Gold has won iff it is on the board and some orthogonal step would leave the board |
| BreakthruRules.NoWinnerInGoldArea | BreakthruGame/BreakthruGameplay.cs:362-374 | while the flagship stands in the gold area nobody has won |
| ScriptedPlayers.Next | TestBreakthruGame/PlayerStub.cs:98-112 | a script yields a move iff it is not used up, and then the move at the cursor |
| ScriptedPlayers.ScriptedPlayer.constructor | TestBreakthruGame/PlayerStub.cs:22-85 | a new player holds its two scripts and starting role, with both cursors at 0 and empty logs |
| ScriptedPlayers.ScriptedPlayer.RequestStartingPlayer | TestBreakthruGame/PlayerStub.cs:134-141 | the starting role the player was built with, which the constructor's contract fixes |
| ScriptedPlayers.ScriptedPlayer.Answer | TestBreakthruGame/PlayerStub.cs:154-168 | a request in a role yields that role's next move and advances only that role's cursor, only if a move was there; it logs the request |
| ScriptedPlayers.ScriptedPlayer.RequestMove | TestBreakthruGame/PlayerStub.cs:98-112 | the plain request yields the next move and is logged as a plain request |
| ScriptedPlayers.ScriptedPlayer.IllegalMoveAttempt | TestBreakthruGame/PlayerStub.cs:117-132 | the retry yields the next move and is logged with the rejected move |
| BreakthruGameplay.Ask | BreakthruGame/BreakthruGameplay.cs:169 | the engine asks with the plain request after a legal attempt and with the retry naming the last move after an illegal one |
| BreakthruGameplay.PlaceAttempts | BreakthruGame/BreakthruGameplay.cs:166-181 | the inner placement loop reads moves until one is accepted; an accepted move is the last one read and passes validation; a used-up script ends with no move |
| BreakthruGameplay.Placement | BreakthruGame/BreakthruGameplay.cs:161-182 | the placement loop keeps the layout, starts with a plain request, and stops incomplete only when the script is used up; placing nothing changes nothing. The moves it carried out, in order, are described by `PlacementUnfolds`, `PlacementCount`, `PlacementLastRead`, `PlacementFrame` and `PlacedMoves` |
| BreakthruGameplay.PlaceAll | BreakthruGame/BreakthruGameplay.cs:133-145 | placing both roles keeps the layout, and each cursor only advances within its script |
| BreakthruGameplay.Captured | BreakthruGame/BreakthruGameplay.cs:286-293 | removing the victim and moving the capturer keeps the layout; what else it does is in `CaptureEffect` |
| BreakthruGameplay.TurnAction | BreakthruGame/BreakthruGameplay.cs:270-299 | one attempt keeps the layout (its rules are in `TurnActionRules`) |
| BreakthruGameplay.TurnActionRules | BreakthruGame/BreakthruGameplay.cs:270-299 | an attempt is accepted exactly when it is legal. Only an on-board piece of the role, other than the one moved already, may act, and a refused attempt changes nothing. A straight move relocates only its piece. Any other accepted action is a capture: taken as the first action, it removes the victim, moves the capturer and ends the turn. The flagship acts only first, and its move ends the turn. A second action, or any action when one piece is movable, ends the turn. The turn goes on exactly after an accepted first straight move by a piece other than the flagship when more than one piece is movable, and that piece may not act again |
| BreakthruGameplay.Turn | BreakthruGame/BreakthruGameplay.cs:264-300 | the attempt loop keeps the layout and logs one request and one verdict per move read, the first request being the pending one; it consumes at least one move when it ends and the whole script when it does not |
| BreakthruGameplay.TurnOf | BreakthruGame/BreakthruGameplay.cs:252-259 | with no piece of the role on the board, the turn asks for nothing and changes nothing; otherwise it starts with a plain request |
| BreakthruGameplay.Turns | BreakthruGame/BreakthruGameplay.cs:99-104 | the game loop keeps the layout and keeps each cursor within its script |
| BreakthruGameplay.PlayGameRun | BreakthruGame/BreakthruGameplay.cs:88-108 | placement followed by the turns keeps the layout and each cursor within its script |
| BreakthruGameplay.TurnsWon | BreakthruGame/BreakthruGameplay.cs:100-107 | once `GetWinner` names a winner the loop stops, and the recorded role is the role of the turn just played |
| BreakthruGameplay.Gameplay.constructor | BreakthruGame/BreakthruGameplay.cs:77-82 | the engine holds the given board and players, and no winner |
| BreakthruGameplay.Gameplay.PlacementHelpFunction | BreakthruGame/BreakthruGameplay.cs:154-183 | the new pieces, requests logged, moves consumed and completion are exactly those of `Placement`; the counters and the other role's script are untouched |
| BreakthruGameplay.Gameplay.PlaceOne | BreakthruGame/BreakthruGameplay.cs:163-181 | one pass of the outer placement loop advances along `Placement`, or ends it with the script used up |
| BreakthruGameplay.Gameplay.AskPlacement | BreakthruGame/BreakthruGameplay.cs:166-181 | the inner placement loop's answer, requests and cursor are exactly those of `PlaceAttempts` |
| BreakthruGameplay.Gameplay.PlacePieces | BreakthruGame/BreakthruGameplay.cs:133-145 | the new board, both logs and both cursors are exactly those of `PlaceAll`; each player's other role is untouched |
| BreakthruGameplay.Gameplay.PerformTurn | BreakthruGame/BreakthruGameplay.cs:243-301 | the new board, the role's log and cursor, and completion are exactly those of `TurnOf`; the other role's script is untouched |
| BreakthruGameplay.Gameplay.TurnBy | BreakthruGame/BreakthruGameplay.cs:249-300 | `PerformTurn` once the player is chosen, matching `TurnOf` |
| BreakthruGameplay.Gameplay.TurnLoop | BreakthruGame/BreakthruGameplay.cs:261-300 | the attempt loop matches `Turn` from a fresh turn state and a plain request |
| BreakthruGameplay.Gameplay.Attempt | BreakthruGame/BreakthruGameplay.cs:267-299 | one attempt's verdict, turn state and new board are exactly `TurnAction`'s |
| BreakthruGameplay.Gameplay.PlayGame | BreakthruGame/BreakthruGameplay.cs:88-108 | the new board, logs and cursors are those of `PlayGameRun` from the gold player's starting role; a result recorded there becomes `Winner(player, role)` |
| BreakthruGameplay.Gameplay.PlayTurns | BreakthruGame/BreakthruGameplay.cs:97-104 | the game loop's board, logs, cursors and result are exactly those of `Turns` |
| BreakthruGameplay.Gameplay.Round | BreakthruGame/BreakthruGameplay.cs:100-104 | one pass switches role, plays that role's turn and advances along `Turns` with strictly less script left |
| GameplayProperties.PlaceAttemptsRequests | BreakthruGame/BreakthruGameplay.cs:166-181 | each request after the first is the retry naming the attempt just refused, and every attempt before an accepted one was refused |
| GameplayProperties.RuleAccepts | BreakthruGame/BreakthruGameplay.cs:195-230 | a move either role's rule accepts takes an off-board piece of that role to an empty square where it stands legally |
| GameplayProperties.MovableAfterRelocate | BreakthruGame/BreakthruGameplay.cs:252 | moving one piece changes the movable count by that piece's own contribution only |
| GameplayProperties.PlacementUnfolds | BreakthruGame/BreakthruGameplay.cs:163-181 | the first move a placement run carries out is the one its first round of asking accepted (with `PlaceAttemptsRequests`, the last move read that round, after refusals only); the rest of the run is the run from the next move on, with that piece moved |
| GameplayProperties.PlacementCount | BreakthruGame/BreakthruGameplay.cs:161-182 | a placement run carries out at most `todo` moves, and it is complete exactly when it carried out `todo` |
| GameplayProperties.PlacementLastRead | BreakthruGame/BreakthruGameplay.cs:166-181 | a complete placement run stops reading right after the last move it carried out |
| GameplayProperties.PlacementFrame | BreakthruGame/BreakthruGameplay.cs:161-182 | a piece that no carried-out move names is unchanged, under any rule |
| GameplayProperties.PlacedMoves | BreakthruGame/BreakthruGameplay.cs:175-180 | each carried-out move took a piece that was off the board, which now stands on that move's destination; no piece was placed twice |
| GameplayProperties.PlacementEffect | BreakthruGame/BreakthruGameplay.cs:161-182 | every piece is either unchanged or placed legally for the role; a complete run puts exactly `todo` more pieces of the role on the board |
| GameplayProperties.RolePlacementComplete | BreakthruGame/BreakthruGameplay.cs:133-183 | a complete placement of as many pieces as the role owns means every piece of the role started off the board and now stands legally; no piece of the other role moved |
| GameplayProperties.GoldBeforeSilver | BreakthruGame/BreakthruGameplay.cs:133-145 | Silver is asked for a move only after all 13 gold pieces have been placed legally; otherwise placement is incomplete and Silver's script is untouched |
| GameplayProperties.PlaceAllComplete | BreakthruGame/BreakthruGameplay.cs:133-145 | complete placement means every piece started off the board and now stands legally, with the flagship at (5,5), so nobody has won |
| GameplayProperties.CaptureEffect | BreakthruGame/BreakthruGameplay.cs:286-293 | the victim of a valid capture is another piece standing on the square; it goes off the board to its colour's next removed slot and that colour's counter grows by one while the other is kept; the capturer now stands on the square; no other piece moves and no type changes |
| GameplayProperties.ActionKinds | BreakthruGame/BreakthruGameplay.cs:270-299 | what each verdict says about the piece and the new turn state |
| GameplayProperties.TurnActionCount | BreakthruGame/BreakthruGameplay.cs:264-300 | a turn takes at most two actions, and at most one with a single movable piece or once past its first action; a finished turn took at least one, the last move read |
| GameplayProperties.TurnFirstAction | BreakthruGame/BreakthruGameplay.cs:264-299 | in a finished turn begun with no action taken, the first action is on the board as the turn found it, and the turn took exactly two actions iff that first action was a straight move by a piece other than the flagship with more than one piece movable |
| GameplayProperties.TurnOfActionCount | BreakthruGame/BreakthruGameplay.cs:252-283 | a turn takes at most two actions; none when the role has no piece on the board; at most one when Gold has the flagship and one escort on the board, or Silver has one silvership there. A finished turn of a role with pieces on the board took exactly two actions iff its first action was a straight move by a piece other than the flagship and Gold has at least three pieces on the board, or Silver at least two |
| GameplayProperties.TurnActionPieces | BreakthruGame/BreakthruGameplay.cs:264-300 | every action moves a piece of the role other than the one already moved; the two actions of a turn move different pieces; the flagship moves only alone, as the first action |
| GameplayProperties.IncompleteTurnKeepsFlagship | BreakthruGame/BreakthruGameplay.cs:283 | a turn that did not end never moved the flagship |
| GameplayProperties.TurnVerdicts | BreakthruGame/BreakthruGameplay.cs:264-300 | only the last move read can end the turn, and it does exactly when the turn ended |
| GameplayProperties.TurnRequests | BreakthruGame/BreakthruGameplay.cs:266-297 | each request after the first is the retry naming the move just read exactly when that move was refused, and the plain request exactly when it was accepted and the turn went on |
| GameplayProperties.TurnContinuesOnce | BreakthruGame/BreakthruGameplay.cs:264-297 | a turn goes on after an accepted action at most once, and never once its first action is taken |
| GameplayProperties.WinnerFollowsFlagship | BreakthruGame/BreakthruGameplay.cs:362-374 | who has won depends on the flagship alone |
| GameplayProperties.IncompleteTurnKeepsWinner | BreakthruGame/BreakthruGameplay.cs:264-300 | a turn cut short by the script leaves who has won as it was |
| GameplayProperties.TurnsStop | BreakthruGame/BreakthruGameplay.cs:100-104 | a turn cut short ends the game loop with no result |
| GameplayProperties.TurnsGoOnAfter | BreakthruGame/BreakthruGameplay.cs:100-104 | a finished turn with no winner is followed by the role after it |
| GameplayProperties.TurnsAlternate | BreakthruGame/BreakthruGameplay.cs:97-104 | the first turn is played by the role after `current`, each later turn by the role after the one before; no turn is played iff somebody has already won |
| GameplayProperties.TurnsWinner | BreakthruGame/BreakthruGameplay.cs:100-107 | a recorded result names the winner the board shows and the role of the last turn played |
| GameplayProperties.TurnsUnfinished | BreakthruGame/BreakthruGameplay.cs:99-104 | a game without a result has no winner on the board, and the script of the role on turn last is used up |
| GameplayProperties.PlayGameTurns | BreakthruGame/BreakthruGameplay.cs:88-108 | no turn is played unless placement completed; then the first turn is the gold player's chosen starting role, the turns alternate, and a result names the board's winner with the role of the last turn |

## Left out

- User interface, threads and property-change notification: the window, its animations and the semaphore handshake with the game thread carry no rules, and `INotifyPropertyChanged` is only data binding.
- ExternalPlayer.cs, Player.cs and PosToTranslationConverter.cs are not part of this model. The move source is the scripted player.
- Floating point: `Point` coordinates are exact reals, so `==` on them is exact equality. Every coordinate the game produces is an integer or the flagship's reserve x of -1.5, and all of these are exact in binary too.
- 32-bit integer overflow of the removal counters is not modelled; a game removes at most 33 pieces.
- `Members` (every scripted move names one of this board's 33 pieces) excludes two kinds of move. A null move, or one whose piece is not a `BreakthruGamePiece`, is dereferenced unchecked and throws (BreakthruGame/BreakthruGameplay.cs:171-175 and :267-270). A piece object of another board does not throw: it is checked against this board's squares and, if that passes, moved, and in placement it counts toward the role's total (BreakthruGame/BreakthruGameplay.cs:175-178 and :270-279). Neither case is modelled. `RemoveFromBoard` still handles null and non-member pieces, as the source does.
- Termination and blocking: the source waits forever for a legal move. Here a used-up script makes the request return nothing, and the loops stop with `complete == false`.
- `Gameplay.PlayGame`: when its scripts run out before anybody wins, it leaves `winner` as it was. The source never returns in that case.
- The source passes `IsValidGoldPlacement` / `IsValidSilverPlacement` as delegates that read the board. Here a validation is a function value that receives the piece list.
- Some loop bodies are their own methods, with ghost parameters for the run they belong to:
  - `Ask`, `Attempt`, `TurnLoop` and `TurnBy` for the source's `PerformTurn`;
  - `AskPlacement` and `PlaceOne` for `PlacementHelpFunction`;
  - `PlayTurns` and `Round` for `PlayGame`.
- The recorded winner is the datatype `Winner(player, role)` and not a `Tuple<Player, PlayerRole>`.
- `RequestStartingPlayer` returns the role a scripted player was built with. The repository's stub always answers Silver.
- ScriptedPlayers.ScriptedPlayer.RequestStartingPlayer: a function of the player, not a logged request, so no contract of `PlayGame` or `PlayGameTurns` states that the gold player is asked once, after placement (BreakthruGame/BreakthruGameplay.cs:93-97); `PlayGame`'s body asks it there and nowhere else.
- The end-to-end scenario of the repository's `PlayerStub` script, in which Gold wins, is not evaluated. The lemmas above hold for every script instead.
- Winner role: the role recorded is that of the last turn (BreakthruGameplay.cs:106-107). When Gold's own move takes the flagship off the board, the winner is Silver's player but the recorded role is Gold. The model does the same.
