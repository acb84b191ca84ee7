/** The hexapawn board and game state: a 3x3 grid of optional occupants,
    the pure move transition, the fixed opening position, the (degenerate)
    validity rule, move enumeration and end-of-game detection. */
module TttBoard {
  import opened TttTypes

  const BoardSize: int := 3

  /** The row numbers and the column numbers of the grid. */
  const Rows: seq<int> := [1, 2, 3]
  const Cols: seq<int> := [1, 2, 3]

  /** The points that belong to the grid. Each has a row-major index among
      the nine cells. */
  function OnGrid(p: Point): (r: bool)
    ensures r ==> 0 <= 3 * (p.row - 1) + (p.col - 1) < 9
  {
    1 <= p.row <= BoardSize && 1 <= p.col <= BoardSize
  }

  /** Division by 3 recovers quotient and remainder. */
  lemma DivMod3(q: int, m: int)
    requires 0 <= m < 3
    ensures (3 * q + m) / 3 == q && (3 * q + m) % 3 == m
  {
  }

  /** Division by 9 recovers quotient and remainder. */
  lemma DivMod9(q: int, m: int)
    requires 0 <= m < 9
    ensures (9 * q + m) / 9 == q && (9 * q + m) % 9 == m
  {
  }

  /** The `k`-th of the nine grid points in row-major order. */
  function GridPoint(k: int): (p: Point)
    requires 0 <= k < 9
    ensures OnGrid(p)
    ensures 3 * (p.row - 1) + (p.col - 1) == k
  {
    Point(k / 3 + 1, k % 3 + 1)
  }

  // ---------------------------------------------------------------------
  // Board
  // ---------------------------------------------------------------------

  /** A board maps points to occupants; a point that is not a key is empty,
      and so is a key mapped to `None`. */
  datatype Board = Board(grid: map<Point, Option<Player>>)

  const EmptyBoard: Board := Board(map[])

  /** Every key of the grid is a point on the grid. */
  predicate Valid(b: Board)
  {
    forall p :: p in b.grid ==> OnGrid(p)
  }

  /** The occupant of a point, `None` when it is empty or was never set. */
  function Get(b: Board, p: Point): (r: Option<Player>)
    ensures p !in b.grid ==> r == None
    ensures Valid(b) && !OnGrid(p) ==> r == None
  {
    if p in b.grid then b.grid[p] else None
  }

  /** Puts a piece of `player` on an empty grid point. */
  function Place(b: Board, player: Player, p: Point): (r: Board)
    requires OnGrid(p)
    requires Get(b, p) == None
    ensures Get(r, p) == Some(player)
    ensures forall q :: q != p ==> Get(r, q) == Get(b, q)
    ensures Valid(b) ==> Valid(r)
  {
    Board(b.grid[p := Some(player)])
  }

  /** Empties `fromPoint`, then puts a piece of `player` on `toPoint`.
      Neither the occupant of the origin nor that of the destination is
      looked at; when the two points coincide the later write wins. */
  function MovePawn(b: Board, player: Player, fromPoint: Point, toPoint: Point): (r: Board)
    requires OnGrid(fromPoint)
    requires OnGrid(toPoint)
    ensures Get(r, toPoint) == Some(player)
    ensures fromPoint != toPoint ==> Get(r, fromPoint) == None
    ensures forall q :: q != fromPoint && q != toPoint ==> Get(r, q) == Get(b, q)
    ensures Valid(b) ==> Valid(r)
  {
    Board(b.grid[fromPoint := None][toPoint := Some(player)])
  }

  // ---------------------------------------------------------------------
  // Moves and game state
  // ---------------------------------------------------------------------

  /** A piece relocation; it carries no validity of its own. */
  datatype Move = Move(fromPoint: Point, toPoint: Point)

  /** An immutable snapshot: the board, the side to move and the move that
      produced this position (`None` in the opening position). */
  datatype GameState = GameState(board: Board, nextPlayer: Player, lastMove: Option<Move>)

  /** The row a player's piece must reach to end the game: `X` heads for
      row 1, `O` for row 3. */
  function FarRow(p: Player): (row: int)
    ensures 1 <= row <= BoardSize
  {
    match p
    case X => 1
    case O => BoardSize
  }

  /** Who starts on a grid point: `O` fills row 1, `X` fills row 3. */
  function StartingOccupant(p: Point): Option<Player>
  {
    if p.row == 1 then Some(O)
    else if p.row == BoardSize then Some(X)
    else None
  }

  /** The state after the side to move relocates the piece of `m`. The
      state it is applied to is a value and stays as it was. */
  function ApplyMove(s: GameState, m: Move): (r: GameState)
    requires OnGrid(m.fromPoint)
    requires OnGrid(m.toPoint)
    ensures Get(r.board, m.toPoint) == Some(s.nextPlayer)
    ensures m.fromPoint != m.toPoint ==> Get(r.board, m.fromPoint) == None
    ensures forall q :: q != m.fromPoint && q != m.toPoint ==> Get(r.board, q) == Get(s.board, q)
    ensures r.nextPlayer == Other(s.nextPlayer)
    ensures r.lastMove == Some(m)
    ensures Valid(s.board) ==> Valid(r.board)
  {
    var nextBoard := MovePawn(s.board, s.nextPlayer, m.fromPoint, m.toPoint);
    GameState(nextBoard, Other(s.nextPlayer), Some(m))
  }

  /** The opening position: three `O` pieces on row 1, three `X` pieces on
      row 3, `X` to move, no previous move. */
  function NewGame(): (s: GameState)
    ensures Valid(s.board)
    ensures forall p :: OnGrid(p) ==> Get(s.board, p) == StartingOccupant(p)
    ensures s.nextPlayer == X
    ensures s.lastMove == None
  {
    var b0 := Place(EmptyBoard, O, Point(1, 1));
    var b1 := Place(b0, O, Point(1, 2));
    var b2 := Place(b1, O, Point(1, 3));
    var b3 := Place(b2, X, Point(3, 2));
    var b4 := Place(b3, X, Point(3, 3));
    var b5 := Place(b4, X, Point(3, 1));
    GameState(b5, X, None)
  }

  /** Whether `player` has a piece on row 1. */
  function ReachedEndWhite(s: GameState, player: Player): (r: bool)
    ensures r <==> exists p :: OnGrid(p) && p.row == 1 && Get(s.board, p) == Some(player)
  {
    Get(s.board, Point(1, 1)) == Some(player)
    || Get(s.board, Point(1, 2)) == Some(player)
    || Get(s.board, Point(1, 3)) == Some(player)
  }

  /** Whether `player` has a piece on row 3. */
  function ReachedEndBlack(s: GameState, player: Player): (r: bool)
    ensures r <==> exists p :: OnGrid(p) && p.row == BoardSize && Get(s.board, p) == Some(player)
  {
    Get(s.board, Point(3, 1)) == Some(player)
    || Get(s.board, Point(3, 2)) == Some(player)
    || Get(s.board, Point(3, 3)) == Some(player)
  }

  /** The game is over once some piece stands on its own far row. */
  function IsOver(s: GameState): (r: bool)
    ensures r <==> exists p :: OnGrid(p) && Get(s.board, p).Some?
                          && p.row == FarRow(Get(s.board, p).value)
  {
    ReachedEndWhite(s, X) || ReachedEndBlack(s, O)
  }

  /** The winning side, or `None` while the game goes on. `X` on row 1 is
      checked first, so it wins even when an `O` also stands on row 3. */
  function Winner(s: GameState): (r: Option<Player>)
    ensures r.Some? <==> IsOver(s)
  {
    if ReachedEndWhite(s, X) then Some(X)
    else if ReachedEndBlack(s, O) then Some(O)
    else None
  }

  /** Whether a move may be played. Only the end-of-game test is live: the
      origin, destination and mover are not examined. */
  function IsValidMove(s: GameState, m: Move): (r: bool)
    ensures r <==> Winner(s) == None
  {
    !IsOver(s)
  }

  /** The `i`-th candidate move: origin `GridPoint(i / 9)`, destination
      `GridPoint(i % 9)`. */
  function Candidate(i: int): (m: Move)
    requires 0 <= i < 81
  {
    Move(GridPoint(i / 9), GridPoint(i % 9))
  }

  /** Every (origin, destination) pair of grid points, nested row-major:
      origin row, origin column, destination row, destination column. */
  function AllMoves(): (ms: seq<Move>)
    ensures |ms| == 81
  {
    seq(81, i requires 0 <= i < 81 => Candidate(i))
  }

  /** Position of the move (r1, c1) -> (r2, c2) in the enumeration order. */
  function MoveIndex(r1: int, c1: int, r2: int, c2: int): (i: int)
  {
    27 * (r1 - 1) + 9 * (c1 - 1) + 3 * (r2 - 1) + (c2 - 1)
  }

  /** The moves `LegalMoves` produces once it has looked at the first `k`
      candidates. */
  function LegalPrefix(s: GameState, k: int): (ms: seq<Move>)
    requires 0 <= k <= 81
  {
    if IsOver(s) then [] else AllMoves()[..k]
  }

  /** The enumeration puts (r1, c1) -> (r2, c2) at `MoveIndex(r1, c1, r2, c2)`. */
  lemma AllMovesAt(r1: int, c1: int, r2: int, c2: int)
    requires OnGrid(Point(r1, c1)) && OnGrid(Point(r2, c2))
    ensures 0 <= MoveIndex(r1, c1, r2, c2) < 81
    ensures AllMoves()[MoveIndex(r1, c1, r2, c2)] == Move(Point(r1, c1), Point(r2, c2))
  {
    var a, b := 3 * (r1 - 1) + (c1 - 1), 3 * (r2 - 1) + (c2 - 1);
    DivMod9(a, b);
    DivMod3(r1 - 1, c1 - 1);
    DivMod3(r2 - 1, c2 - 1);
    assert MoveIndex(r1, c1, r2, c2) == 9 * a + b;
  }

  /** Every candidate is a pair of grid points sitting at its own index. */
  lemma AllMovesIndex(i: int)
    requires 0 <= i < 81
    ensures OnGrid(AllMoves()[i].fromPoint) && OnGrid(AllMoves()[i].toPoint)
    ensures var m := AllMoves()[i];
            MoveIndex(m.fromPoint.row, m.fromPoint.col, m.toPoint.row, m.toPoint.col) == i
  {
  }

  /** The enumeration holds exactly the pairs of grid points. */
  lemma AllMovesComplete(m: Move)
    ensures m in AllMoves() <==> OnGrid(m.fromPoint) && OnGrid(m.toPoint)
  {
    if OnGrid(m.fromPoint) && OnGrid(m.toPoint) {
      AllMovesAt(m.fromPoint.row, m.fromPoint.col, m.toPoint.row, m.toPoint.col);
    }
    if m in AllMoves() {
      var i :| 0 <= i < 81 && AllMoves()[i] == m;
      AllMovesIndex(i);
    }
  }

  /** Looking at one more candidate keeps it exactly when it is valid. */
  lemma LegalPrefixStep(s: GameState, k: int)
    requires 0 <= k < 81
    ensures LegalPrefix(s, k + 1)
            == LegalPrefix(s, k) + (if IsValidMove(s, AllMoves()[k]) then [AllMoves()[k]] else [])
  {
  }

  /** Once all candidates are looked at, the kept moves are the valid pairs
      of grid points. */
  lemma LegalPrefixComplete(s: GameState)
    ensures LegalPrefix(s, 81) == if IsOver(s) then [] else AllMoves()
    ensures forall m :: m in LegalPrefix(s, 81) <==> OnGrid(m.fromPoint) && OnGrid(m.toPoint) && IsValidMove(s, m)
  {
    assert AllMoves()[..81] == AllMoves();
    forall m
      ensures m in AllMoves() <==> OnGrid(m.fromPoint) && OnGrid(m.toPoint)
    {
      AllMovesComplete(m);
    }
  }

  /** Enumerates the 81 candidate moves in nested row-major order and keeps
      those that pass `IsValidMove`. */
  method LegalMoves(s: GameState) returns (moves: seq<Move>)
    ensures IsOver(s) ==> moves == []
    ensures !IsOver(s) ==> moves == AllMoves()
    ensures !IsOver(s) ==> |moves| == 81
    ensures forall m :: m in moves <==> OnGrid(m.fromPoint) && OnGrid(m.toPoint) && IsValidMove(s, m)
  {
    moves := [];
    for r1 := 1 to BoardSize + 1
      invariant moves == LegalPrefix(s, MoveIndex(r1, 1, 1, 1))
    {
      for c1 := 1 to BoardSize + 1
        invariant moves == LegalPrefix(s, MoveIndex(r1, c1, 1, 1))
      {
        for r2 := 1 to BoardSize + 1
          invariant moves == LegalPrefix(s, MoveIndex(r1, c1, r2, 1))
        {
          for c2 := 1 to BoardSize + 1
            invariant moves == LegalPrefix(s, MoveIndex(r1, c1, r2, c2))
          {
            var move := Move(Point(r1, c1), Point(r2, c2));
            AllMovesAt(r1, c1, r2, c2);
            LegalPrefixStep(s, MoveIndex(r1, c1, r2, c2));
            if IsValidMove(s, move) {
              moves := moves + [move];
            }
          }
        }
      }
    }
    LegalPrefixComplete(s);
  }
}
