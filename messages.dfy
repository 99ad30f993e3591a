/** The JSON message the server pushes to every viewer. */
module Messages {
  import opened ChessRules
  import opened Players

  /** One message; `Move` is empty (omitted from the JSON) in a "game_state" snapshot. */
  datatype Message = Message(
    Type: string,
    FEN: string,
    Move: string,
    Turn: string,
    SVG: string,
    ViewerCount: int,
    WhitePlayer: string,
    BlackPlayer: string,
    CurrentPlayer: string)

  /**
   The message built from a position and a side assignment: "white" and the
   white provider unless Black is to move, in which case "black" and the
   black provider.
   */
  function Compose(kind: string, rules: Rules, game: Game, white: AIPlayer, black: AIPlayer,
                   viewers: nat, move: string): Message
  {
    var toMove := rules.turn(game);
    Message(kind, rules.fen(game), move,
            if toMove == Black then "black" else "white",
            rules.render(game), viewers, Name(white), Name(black),
            Name(if toMove == Black then black else white))
  }

  /**
   In every composed message the turn names the colour whose provider is the
   current player, the current player is the mover, and the message reflects
   the position and side assignment it was built from.
   */
  lemma TurnAgreesWithCurrentPlayer(kind: string, rules: Rules, game: Game, white: AIPlayer,
                                    black: AIPlayer, viewers: nat, move: string)
    requires white != black
    ensures var m := Compose(kind, rules, game, white, black, viewers, move);
      && (m.Turn == "black" <==> m.CurrentPlayer == m.BlackPlayer)
      && (m.Turn == "white" <==> m.CurrentPlayer == m.WhitePlayer)
      && (m.Turn == "black" <==> rules.turn(game) == Black)
      && (m.Turn == "white" || m.Turn == "black")
      && m.CurrentPlayer == Name(Mover(rules.turn(game), white, black))
      && m.WhitePlayer == Name(white) && m.BlackPlayer == Name(black)
      && m.FEN == rules.fen(game) && m.ViewerCount == viewers
  {
    NameInjective(white, black);
  }
}
