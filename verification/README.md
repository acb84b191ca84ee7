# Hexapawn engine — Dafny model

This project models the game engine of a small Hexapawn-style game on a 3x3
grid (`code/dlgo/ttt/tttboard.py`) and proves properties of it. The engine has
three parts:

- a **board** that maps points to optional occupants, with `place`, `get`
  and `move_pawn`;
- an immutable **game state**: the board, the player to move and the last move;
- the operations on a game state: the opening position `new_game`, the pure
  transition `apply_move`, the validity rule `is_valid_move`, the move
  enumerator `legal_moves`, and end-of-game detection through `is_over` and
  `winner`.

Files:

- `ttttypes.dfy` (module `TttTypes`) holds `Player` with `Other`, `Point`
  and an `Option` type for cell contents. The Python `dlgo.ttt.ttttypes` is
  not part of this model. Here `Point` is an unbounded `(row, col)` integer
  pair and `Player` has two constructors.
- `tttboard.dfy` (module `TttBoard`) holds the board, `Move`, `GameState`
  and every engine operation. `LegalMoves` is a method with the same four
  nested loops as the source.
- `tttproperties.dfy` (module `TttProperties`) holds lemmas that relate
  several operations.

Modelling decisions:

- The board is a `map<Point, Option<Player>>`. A point that is not a key is
  empty, just as Python's `dict.get` returns `None`. `move_pawn` stores an
  explicit `None` at the origin, and the model does the same.
- A failed `assert` in `place` or `move_pawn` raises `AssertionError`.
  No caller in the repository catches it. The console driver
  (`code/play_ttt.py:44-52`) passes typed coordinates to `apply_move`
  without an on-grid check, so input such as "A4" (`Point(4, 1)`) stops the
  program. The asserted conditions therefore become `requires` clauses. `ApplyMove` inherits the on-grid requirement from
  `move_pawn`.
- `apply_move` deep-copies the board. In the model, a state is an immutable
  value and `ApplyMove` returns a new value, so the state it was called on
  can never change.
- `is_valid_move` is modelled as written: its only live test is "the game is
  not over". The movement and capture rules in its comments are never run,
  so they are not modelled.

## Model

| member | source | states |
|---|---|---|
| TttTypes.Other | code/dlgo/ttt/tttboard.py:71 | The side to move after a move is always the opposite side, never the same one |
| TttTypes.OtherInvolution | code/dlgo/ttt/tttboard.py:71 | Flipping the side twice gives back the original side |
| TttBoard.OnGrid | code/dlgo/ttt/tttboard.py:35-37 | Row and column both lie in 1..3. A point on the grid has a row-major index among the nine cells |
| TttProperties.OnGridIffRowsCols | code/dlgo/ttt/tttboard.py:16-37 | A point is on the grid iff its row is one of `ROWS` and its column one of `COLS`, the ranges `legal_moves` walks |
| TttProperties.OnGridIffGridPoint | code/dlgo/ttt/tttboard.py:35-37 | A point is on the grid (row and column both in 1..3) exactly when it is one of the nine points of the row-major enumeration |
| TttBoard.Get | code/dlgo/ttt/tttboard.py:39-45 | A point never written reads as empty. On a board whose keys are all on the grid, an off-grid point reads as empty, though the point is not validated |
| TttBoard.Place | code/dlgo/ttt/tttboard.py:29-32 | Needs an on-grid point that is empty. Afterwards that point holds the player, every other point is unchanged, and all keys stay on the grid |
| TttBoard.MovePawn | code/dlgo/ttt/tttboard.py:47-51 | Needs both points on the grid; the origin's occupant is not checked. Afterwards the destination holds the player, even when it equals the origin. A distinct origin is empty and every other point is unchanged |
| TttBoard.ApplyMove | code/dlgo/ttt/tttboard.py:67-71 | The new board has the mover's piece on the destination, an empty origin (if distinct) and every other point unchanged. The side to move flips and the last move is the applied one |
| TttBoard.NewGame | code/dlgo/ttt/tttboard.py:74-85 | Opening position: O on (1,1), (1,2) and (1,3); X on (3,1), (3,2) and (3,3); row 2 empty; no piece off the grid; X to move; no last move |
| TttProperties.NewGamePieces | code/dlgo/ttt/tttboard.py:74-85 | Each side starts with exactly three pieces, all on its own home row |
| TttProperties.NewGameNotOver | code/dlgo/ttt/tttboard.py:124-154 | The opening position is not over and has no winner |
| TttBoard.IsValidMove | code/dlgo/ttt/tttboard.py:87-110 | A move is valid exactly while there is no winner |
| TttProperties.IsValidMoveIgnoresMove | code/dlgo/ttt/tttboard.py:87-110 | Validity does not depend on the move: every move is valid exactly when the game is not over |
| TttBoard.LegalMoves | code/dlgo/ttt/tttboard.py:112-122 | If the game is over, the result is empty. Otherwise it is all 81 (origin, destination) pairs in nested row-major order. A move is in the result iff both its points are on the grid and it is valid |
| TttBoard.AllMovesAt | code/dlgo/ttt/tttboard.py:114-121 | The move (r1,c1)->(r2,c2) is the candidate visited at position 27(r1-1)+9(c1-1)+3(r2-1)+(c2-1) by the four nested loops |
| TttBoard.AllMovesIndex | code/dlgo/ttt/tttboard.py:114-121 | Every candidate is a pair of on-grid points whose row-major index is its own position |
| TttBoard.AllMovesComplete | code/dlgo/ttt/tttboard.py:114-121 | The candidates are exactly the pairs of on-grid points |
| TttProperties.AllMovesDistinct | code/dlgo/ttt/tttboard.py:114-121 | No candidate move is visited twice |
| TttBoard.ReachedEndWhite | code/dlgo/ttt/tttboard.py:131-138 | The three cells read are the whole of row 1: true iff the player has a piece on some grid point of row 1 |
| TttBoard.ReachedEndBlack | code/dlgo/ttt/tttboard.py:140-147 | The three cells read are the whole of row 3: true iff the player has a piece on some grid point of row 3 |
| TttBoard.IsOver | code/dlgo/ttt/tttboard.py:124-129 | True iff some piece stands on its own far row |
| TttProperties.IsOverIffFarRow | code/dlgo/ttt/tttboard.py:124-129 | The game is over iff an X stands on row 1 or an O stands on row 3 |
| TttBoard.Winner | code/dlgo/ttt/tttboard.py:149-154 | Has a value exactly when the game is over |
| TttProperties.WinnerIff | code/dlgo/ttt/tttboard.py:149-154 | X wins iff an X stands on row 1. O wins iff an O stands on row 3 and no X stands on row 1. Otherwise there is no winner |
| TttProperties.MoveEndsGameIffFarRow | code/dlgo/ttt/tttboard.py:124-154 | From a position that is not over, a move ends the game iff it lands on the mover's far row, and then the mover wins |
| TttProperties.OpeningJumpWins | code/dlgo/ttt/tttboard.py:67-85 | From the opening position, moving (3,1)->(1,1) ends the game with X, the side that moved, as winner |
| TttProperties.WinnerPrefersX | code/dlgo/ttt/tttboard.py:149-154 | When an X stands on row 1 and an O on row 3 at the same time, X is the winner |

## Left out

- `code/play_ttt.py` (console driver): `print_board` and `main` do console output and input. `point_from_coords` parses coordinate text with no on-grid check. None of them contains engine logic.
- The minimax agent (`dlgo.minimax`) is not part of this model.
- `dlgo.ttt.ttttypes` is not part of this model. `Point` and `Player` are modelled from how the engine uses them.
- `IllegalMoveError` and the `DIAG_1`/`DIAG_2` constants (code/dlgo/ttt/tttboard.py:12-22) are declared but never used.
- The movement and capture rules in the comments of `is_valid_move` (code/dlgo/ttt/tttboard.py:93-108) are never executed, so they are not modelled.
- `copy.deepcopy`: object copying and aliasing are not modelled, because states are immutable values.
- Failed assertions in `place` and `move_pawn` are not modelled as an error path. They are preconditions of `Place`, `MovePawn` and `ApplyMove`. Under `python -O` the asserts are removed: `place` then overwrites an occupied cell and `move_pawn` writes keys off the grid. The model does not cover that mode.
- Moves and game states are modelled as values compared by their fields. The Python `Move` and `GameState` define no `__eq__`, so the program compares them by identity. For example, a freshly built `Move` is never `in` the list `legal_moves` returns. The membership clauses of `LegalMoves` are about (origin, destination) pairs.
