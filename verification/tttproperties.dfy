/** Properties of the hexapawn engine that relate several operations: the
    grid enumeration, the opening position, how a single move can end the
    game, and two concrete move sequences. */
module TttProperties {
  import opened TttTypes
  import opened TttBoard

  /** The pieces `player` has on the grid. */
  function Pieces(b: Board, player: Player): (ps: set<Point>)
  {
    set r, c | 1 <= r <= BoardSize && 1 <= c <= BoardSize && Get(b, Point(r, c)) == Some(player)
      :: Point(r, c)
  }

  /** The grid points are exactly the nine points of the row-major
      enumeration. */
  lemma OnGridIffGridPoint(p: Point)
    ensures OnGrid(p) <==> exists k :: 0 <= k < 9 && GridPoint(k) == p
  {
    if OnGrid(p) {
      assert GridPoint(3 * (p.row - 1) + (p.col - 1)) == p;
    }
  }

  /** The grid points are exactly those whose row is one of `Rows` and whose
      column is one of `Cols`, the ranges the move enumeration walks. */
  lemma OnGridIffRowsCols(p: Point)
    ensures OnGrid(p) <==> p.row in Rows && p.col in Cols
  {
  }

  /** No candidate move is enumerated twice. */
  lemma AllMovesDistinct(i: int, j: int)
    requires 0 <= i < j < 81
    ensures AllMoves()[i] != AllMoves()[j]
  {
    AllMovesIndex(i);
    AllMovesIndex(j);
  }

  /** `X` has a piece on row 1. */
  ghost predicate XOnFarRow(b: Board)
  {
    exists p :: OnGrid(p) && p.row == FarRow(X) && Get(b, p) == Some(X)
  }

  /** `O` has a piece on row 3. */
  ghost predicate OOnFarRow(b: Board)
  {
    exists p :: OnGrid(p) && p.row == FarRow(O) && Get(b, p) == Some(O)
  }

  /** The game is over exactly when some piece stands on its own far row. */
  lemma IsOverIffFarRow(s: GameState)
    ensures IsOver(s) <==> XOnFarRow(s.board) || OOnFarRow(s.board)
  {
  }

  /** `X` wins whenever it stands on row 1; `O` wins when it stands on
      row 3 and no `X` stands on row 1; otherwise there is no winner. */
  lemma WinnerIff(s: GameState)
    ensures Winner(s) == Some(X) <==> XOnFarRow(s.board)
    ensures Winner(s) == Some(O) <==> OOnFarRow(s.board) && !XOnFarRow(s.board)
    ensures Winner(s) == None <==> !XOnFarRow(s.board) && !OOnFarRow(s.board)
  {
  }

  /** The opening position is not over and has no winner. */
  lemma NewGameNotOver()
    ensures !IsOver(NewGame())
    ensures Winner(NewGame()) == None
  {
  }

  /** A board laid out as the opening position. */
  ghost predicate StartingLayout(b: Board)
  {
    forall p :: OnGrid(p) ==> Get(b, p) == StartingOccupant(p)
  }

  /** On the starting layout, `X` holds row 3 and `O` holds row 1. */
  lemma StartingLayoutPieces(b: Board)
    requires StartingLayout(b)
    ensures Pieces(b, X) == {Point(3, 1), Point(3, 2), Point(3, 3)}
    ensures Pieces(b, O) == {Point(1, 1), Point(1, 2), Point(1, 3)}
  {
    assert Get(b, Point(1, 1)) == Some(O) && Get(b, Point(1, 2)) == Some(O) && Get(b, Point(1, 3)) == Some(O);
    assert Get(b, Point(3, 1)) == Some(X) && Get(b, Point(3, 2)) == Some(X) && Get(b, Point(3, 3)) == Some(X);
  }

  /** Each side starts with three pieces, all on its own home row. */
  lemma NewGamePieces()
    ensures Pieces(NewGame().board, X) == {Point(3, 1), Point(3, 2), Point(3, 3)}
    ensures Pieces(NewGame().board, O) == {Point(1, 1), Point(1, 2), Point(1, 3)}
    ensures |Pieces(NewGame().board, X)| == 3
    ensures |Pieces(NewGame().board, O)| == 3
  {
    StartingLayoutPieces(NewGame().board);
  }

  /** The validity rule ignores the move: two moves are valid in the same
      positions. */
  lemma IsValidMoveIgnoresMove(s: GameState, m1: Move, m2: Move)
    ensures IsValidMove(s, m1) <==> IsValidMove(s, m2)
    ensures IsValidMove(s, m1) <==> !IsOver(s)
  {
  }

  /** From a position that is not over, a move ends the game exactly when
      it lands on the mover's far row, and then the mover is the winner. */
  lemma MoveEndsGameIffFarRow(s: GameState, m: Move)
    requires OnGrid(m.fromPoint) && OnGrid(m.toPoint)
    requires !IsOver(s)
    ensures IsOver(ApplyMove(s, m)) <==> m.toPoint.row == FarRow(s.nextPlayer)
    ensures IsOver(ApplyMove(s, m)) ==> Winner(ApplyMove(s, m)) == Some(s.nextPlayer)
  {
    var s' := ApplyMove(s, m);
    IsOverIffFarRow(s);
    IsOverIffFarRow(s');
    WinnerIff(s');
    // Every piece of the new position other than the mover's was already
    // there, and none of those stands on its far row.
    forall p | OnGrid(p) && p != m.toPoint && Get(s'.board, p).Some?
      ensures p.row != FarRow(Get(s'.board, p).value)
    {
      assert Get(s'.board, p) == Get(s.board, p);
    }
    if m.toPoint.row == FarRow(s.nextPlayer) {
      assert Get(s'.board, m.toPoint) == Some(s.nextPlayer);
    }
  }

  /** Moving an `X` piece from (3,1) straight to (1,1) in the opening
      position ends the game with `X`, the side that moved, as winner. */
  lemma OpeningJumpWins()
    ensures IsOver(ApplyMove(NewGame(), Move(Point(3, 1), Point(1, 1))))
    ensures Winner(ApplyMove(NewGame(), Move(Point(3, 1), Point(1, 1)))) == Some(NewGame().nextPlayer)
  {
  }

  /** When an `X` stands on row 1 and an `O` on row 3 at once, `X` is
      reported as winner. The second move is played after the game is over:
      `ApplyMove` does not consult `IsValidMove`, just as `apply_move` does
      not. */
  lemma WinnerPrefersX()
    ensures var s := ApplyMove(ApplyMove(NewGame(), Move(Point(3, 1), Point(1, 1))),
                               Move(Point(1, 2), Point(3, 1)));
            ReachedEndWhite(s, X) && ReachedEndBlack(s, O) && Winner(s) == Some(X)
  {
  }
}
