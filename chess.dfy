/**
 * The part of the chess rules library that the move-resolution core consults.
 * The rules themselves (legality, FEN generation, UCI and SAN parsing) are not part
 * of this model: a board is a snapshot that carries the answers of that library as
 * plain data and functions.
 */
module Chess {
  import opened Options

  datatype Color = White | Black

  /** Squares are numbered 0 (a1) to 63 (h8), as in the rules library. */
  type Square = n: int | 0 <= n < 64

  datatype PieceType = Pawn | Knight | Bishop | Rook | Queen | King

  /** A move: origin, destination and an optional promotion piece. */
  datatype Move = Move(fromSquare: Square, toSquare: Square, promotion: Option<PieceType>)

  /**
   * What the core can ask of a position: whose turn it is, its FEN string, its set of
   * legal moves, and the two parsers. A parser returns None where the library raises
   * ValueError.
   */
  datatype Board = Board(
    turn: Color,
    fen: string,
    legalMoves: set<Move>,
    parseUci: string -> Option<Move>,
    parseSan: string -> Option<Move>)

  /** The shape of an engine function: (board, model name, excluded moves) to answer text. */
  type Provider = (Board, string, seq<string>) -> string

  /** The side that wins when `side` forfeits (main.py awards the game to the opponent). */
  function Opponent(side: Color): (r: Color)
    ensures r != side
  {
    match side
    case White => Black
    case Black => White
  }
}
