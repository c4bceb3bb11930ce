/**
 * The mini-map: the board drawn from the player's side, with a dark/light shading per cell and a
 * dot per occupied cell. Black sees the board with both rows and columns reversed.
 */
module MiniMap {
  import opened Wrappers
  import opened Chess
  import ChessBoard

  /** `[...s].reverse()`. */
  function Reversed<T>(s: seq<T>): (r: seq<T>)
    ensures |r| == |s|
    ensures forall i :: 0 <= i < |s| ==> r[i] == s[|s| - 1 - i]
    decreases |s|
  {
    if s == [] then [] else Reversed(s[1..]) + [s[0]]
  }

  /** Reversing twice gives the sequence back. */
  lemma ReversedTwice<T>(s: seq<T>)
    ensures Reversed(Reversed(s)) == s
  {
  }

  /** The side the mini-map is drawn for: black for the black seat, white for everyone else. */
  function Perspective(playerColor: Option<Role>): (c: Color)
    ensures c == Black <==> playerColor == Some(Seat(Black))
  {
    if playerColor == Some(Seat(Black)) then Black else White
  }

  /** The cells in drawing order: for black the rows are reversed and so is each row. */
  function View(board: Board, side: Color): (v: Board)
    ensures |v| == |board|
  {
    if side == White then board
    else seq(|board|, r requires 0 <= r < |board| => Reversed(board[|board| - 1 - r]))
  }

  /** White sees the board as `chess.board()` gives it. */
  lemma ViewWhite(board: Board)
    ensures View(board, White) == board
  {
  }

  /** Black sees the board turned by 180 degrees: the cell drawn at (r, c) is the board's (7 - r, 7 - c). */
  lemma ViewBlack(board: Board)
    requires IsBoard(board)
    ensures IsBoard(View(board, Black))
    ensures forall r, c :: 0 <= r < 8 && 0 <= c < 8 ==> View(board, Black)[r][c] == board[7 - r][7 - c]
  {
    var v := View(board, Black);
    forall r | 0 <= r < 8
      ensures |v[r]| == 8 && forall c :: 0 <= c < 8 ==> v[r][c] == board[7 - r][7 - c]
    {
      assert v[r] == Reversed(board[7 - r]);
    }
  }

  /** Turning twice gives back the board. */
  lemma ViewBlackTwice(board: Board)
    requires IsBoard(board)
    ensures View(View(board, Black), Black) == board
  {
    ViewBlack(board);
    ViewBlack(View(board, Black));
    var twice := View(View(board, Black), Black);
    forall r | 0 <= r < 8
      ensures twice[r] == board[r]
    {
      assert forall c :: 0 <= c < 8 ==> twice[r][c] == board[r][c];
    }
  }

  /** The shading of the cell drawn at row `r`, column `c` (`isBlackSquare`). */
  function IsDarkCell(r: nat, c: nat): bool {
    (r + c) % 2 == 1
  }

  /** The mini-map shades each cell like the board square it shows, from either side. */
  lemma ShadingFollowsSquare(r: nat, c: nat, side: Color)
    requires r < 8 && c < 8
    ensures var (br, bc) := if side == White then (r, c) else (7 - r, 7 - c);
              IsDarkCell(r, c) == ChessBoard.IsDarkSquare(br, bc)
  {
  }

  datatype Dot = NoDot | WhiteDot | BlackDot

  /** The dot drawn in a cell. */
  function DotOf(cell: Option<Piece>): (d: Dot)
    ensures d == NoDot <==> cell.None?
    ensures d == WhiteDot <==> cell.Some? && cell.value.color == White
  {
    match cell
    case None => NoDot
    case Some(p) => if p.color == White then WhiteDot else BlackDot
  }
}
