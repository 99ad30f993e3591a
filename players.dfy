/** The two move providers and how they are assigned to the two colours. */
module Players {
  import opened ChessRules

  datatype AIPlayer = ChatGPT | Claude

  /** The name the server puts in its messages. */
  function Name(p: AIPlayer): string
  {
    match p
    case ChatGPT => "ChatGPT"
    case Claude => "Claude"
  }

  lemma NameInjective(p: AIPlayer, q: AIPlayer)
    ensures Name(p) == Name(q) <==> p == q
  {
  }

  /**
   Side assignment from one fair coin (`rand.Intn(2)`): 0 gives ChatGPT white,
   1 gives Claude white. Returns (white, black).
   */
  function AssignSides(coin: nat): (sides: (AIPlayer, AIPlayer))
    requires coin < 2
    ensures sides.0 != sides.1
    ensures coin == 0 <==> sides.0 == ChatGPT
  {
    if coin == 0 then (ChatGPT, Claude) else (Claude, ChatGPT)
  }

  /** Every pairing of two distinct providers is drawn by exactly one coin value. */
  lemma AssignSidesCoversPairings(white: AIPlayer, black: AIPlayer)
    requires white != black
    ensures exists coin :: coin < 2 && AssignSides(coin) == (white, black)
    ensures forall coin :: coin < 2 && AssignSides(coin) == (white, black) ==>
              coin == (if white == ChatGPT then 0 else 1)
  {
    var coin := if white == ChatGPT then 0 else 1;
    assert AssignSides(coin) == (white, black);
  }

  /** The provider whose turn it is. */
  function Mover(toMove: Color, white: AIPlayer, black: AIPlayer): (p: AIPlayer)
  {
    if toMove == White then white else black
  }

  lemma MoverPlaysItsColour(toMove: Color, white: AIPlayer, black: AIPlayer)
    requires white != black
    ensures Mover(toMove, white, black) == white <==> toMove == White
    ensures Mover(toMove, white, black) == black <==> toMove == Black
  {
  }
}
