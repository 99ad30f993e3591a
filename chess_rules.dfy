/**
 The chess rules engine the server delegates to. The engine itself (legal-move
 generation, move application, FEN and SAN encoding, board rendering) is not part
 of this model: a position is an opaque `Game`, and every engine query the server
 makes is a field of `Rules`, a function value supplied from outside.
 */
module ChessRules {
  import opened Wrappers

  /** A game position as the engine owns it. */
  type Game(!new)

  datatype Color = White | Black

  /** The engine's outcome of a game; `NoOutcome` while play goes on. */
  datatype Outcome = NoOutcome | WhiteWon | BlackWon | Draw

  /**
   A legal move of the current position as the engine lists it: its short
   algebraic notation in that position and its long form (the engine's
   `Move.String()`, e.g. "e2e4").
   */
  datatype Move = Move(san: string, uci: string)

  datatype Rules = Rules(
    start: Game,                          // a freshly set-up game
    validMoves: Game -> seq<Move>,        // legal moves, in the engine's order
    turn: Game -> Color,                  // side to move
    outcome: Game -> Outcome,
    fen: Game -> string,
    render: Game -> string,               // the SVG image of the board
    apply: (Game, Move) -> Option<Game>)  // None when the engine refuses the move

  /** The engine accepts every move it itself lists as legal. */
  ghost predicate AppliesLegalMoves(rules: Rules)
  {
    forall g, m :: m in rules.validMoves(g) ==> rules.apply(g, m).Some?
  }
}
