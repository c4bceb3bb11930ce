/**
 * The vocabulary shared by the server and the client: colours, piece kinds, moves, squares and
 * the rules engine (the chess.js library), which this model never reimplements. The engine is a
 * record of total functions over FEN strings; every component receives it as a parameter.
 */
module Chess {
  import opened Wrappers

  datatype Color = White | Black {

    /** chess.js's one-letter colour code. */
    function Code(): string {
      if White? then "w" else "b"
    }

    function Other(): Color {
      if White? then Black else White
    }
  }

  datatype Kind = Pawn | Knight | Bishop | Rook | Queen | King {

    /** chess.js's one-letter piece code. */
    function Code(): string {
      match this
      case Pawn => "p"
      case Knight => "n"
      case Bishop => "b"
      case Rook => "r"
      case Queen => "q"
      case King => "k"
    }
  }

  datatype Piece = Piece(kind: Kind, color: Color)

  /** `playerColor`, on the server and on the client: one of the two seats, or "s" for a spectator. */
  datatype Role = Seat(color: Color) | Spectator

  /** A player's cosmetic choices (`CharacterData`): trainer sprite id, trainer title, companion number. */
  datatype CharacterData = CharacterData(trainerSprite: string, trainerTitle: string, companionPokemon: int)

  /** A verbose chess.js move: who moved what from where to where, what it took, what it became. */
  datatype Move = Move(color: Color, from: string, to: string, piece: Kind,
                       captured: Option<Kind>, promotion: Option<Kind>)

  /** A move as a client submits it: `{ from, to, promotion? }`. */
  datatype MoveRequest = MoveRequest(from: string, to: string, promotion: Option<Kind>)

  /** `chess.board()`: rows from rank 8 down to rank 1, each from file a to file h. */
  type Board = seq<seq<Option<Piece>>>

  predicate IsBoard(b: Board) {
    |b| == 8 && forall r :: 0 <= r < 8 ==> |b[r]| == 8
  }

  /** The FEN of a fresh game (`new Chess()` and `chess.reset()`). */
  const InitialFen: string := "rnbqkbnr/pppppppp/8/8/8/8/PPPPPPPP/RNBQKBNR w KQkq - 0 1"

  /** A square name such as "e4". */
  predicate IsSquare(s: string) {
    |s| == 2 && 'a' <= s[0] <= 'h' && '1' <= s[1] <= '8'
  }

  /** The name of the square at row `r` (0 is rank 8) and file `f` (0 is file a) of `chess.board()`. */
  function SquareName(r: nat, f: nat): (s: string)
    requires r < 8 && f < 8
    ensures IsSquare(s)
  {
    [('a' as int + f) as char, ('0' as int + (8 - r)) as char]
  }

  /** Distinct board cells have distinct names. */
  lemma SquareNameInjective(r: nat, f: nat, r': nat, f': nat)
    requires r < 8 && f < 8 && r' < 8 && f' < 8
    requires SquareName(r, f) == SquareName(r', f')
    ensures r == r' && f == f'
  {
    assert SquareName(r, f)[0] == SquareName(r', f')[0];
    assert SquareName(r, f)[1] == SquareName(r', f')[1];
  }

  /**
   * The chess.js operations used by the program, each a function of the position's FEN.
   * `tryMove` is `chess.move(request)`: None where chess.js throws on an illegal request;
   * `play` is the FEN after a legal move.
   */
  datatype Rules = Rules(
    turn: string -> Color,
    pieceAt: (string, string) -> Option<Piece>,
    moves: string -> seq<Move>,
    movesFrom: (string, string) -> seq<Move>,
    tryMove: (string, MoveRequest) -> Option<Move>,
    play: (string, Move) -> string,
    isCheckmate: string -> bool,
    isGameOver: string -> bool,
    isDraw: string -> bool,
    isStalemate: string -> bool)
}
