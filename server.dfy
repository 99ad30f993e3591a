/**
 The hub: the registry of connected viewers with their bounded send queues,
 the three events of its run loop (register, unregister, broadcast), and the
 game it owns, advanced one ply per tick by `PlayMove`.
 */
module Server {
  import opened Wrappers
  import opened ChessRules
  import opened Players
  import opened Messages
  import opened MoveText
  import opened Acquisition

  /** Buffer size of every client's send channel. */
  const Capacity := 256

  /** A viewer's send channel: the messages buffered in it and whether it is closed. */
  class Client {
    var queue: seq<Message>
    var closed: bool

    ghost predicate Valid()
      reads this
    {
      |queue| <= Capacity
    }

    constructor ()
      ensures Valid() && queue == [] && !closed
    {
      queue := [];
      closed := false;
    }

    /** Blocking send; only called when it cannot block (room left) or panic (open). */
    method Send(m: Message)
      requires !closed && |queue| < Capacity
      modifies this
      ensures Valid() && !closed && queue == old(queue) + [m]
    {
      queue := queue + [m];
    }

    /** `select { case send <- m: default: }`: send only if the buffer has room. */
    method TrySend(m: Message) returns (sent: bool)
      requires !closed && Valid()
      modifies this
      ensures Valid() && !closed
      ensures sent <==> |old(queue)| < Capacity
      ensures queue == if sent then old(queue) + [m] else old(queue)
    {
      sent := |queue| < Capacity;
      if sent {
        queue := queue + [m];
      }
    }

    /** Closing a closed channel panics in Go, hence the precondition. */
    method Close()
      requires !closed
      modifies this
      ensures closed && queue == old(queue)
    {
      closed := true;
    }
  }

  class Hub {
    const rules: Rules
    var clients: set<Client>
    var game: Game
    var white: AIPlayer
    var black: AIPlayer

    /** Registered clients are open and within capacity; the two colours have different providers. */
    ghost predicate Valid()
      reads this, clients
    {
      && white != black
      && forall c :: c in clients ==> !c.closed && c.Valid()
    }

    /** The message for the current position, as the run loop and `playMove` build it. */
    function Snapshot(kind: string, viewers: nat, move: string): Message
      reads this
    {
      Compose(kind, rules, game, white, black, viewers, move)
    }

    /** `newHub`: no viewers, a new game, sides from one coin. */
    constructor (rules: Rules, coin: nat)
      requires coin < 2
      ensures Valid()
      ensures this.rules == rules && clients == {} && game == rules.start
      ensures (white, black) == AssignSides(coin)
    {
      this.rules := rules;
      clients := {};
      game := rules.start;
      white, black := AssignSides(coin).0, AssignSides(coin).1;
    }

    /**
     Register event: add the client, then send it, and only it, one
     "game_state" snapshot whose viewer count includes it.
     */
    method Register(c: Client)
      requires Valid()
      requires !c.closed && |c.queue| < Capacity
      modifies this`clients, c
      ensures Valid()
      ensures clients == old(clients) + {c}
      ensures c.queue == old(c.queue) + [Snapshot("game_state", |clients|, "")]
      ensures Snapshot("game_state", |clients|, "").ViewerCount == |old(clients) + {c}|
    {
      clients := clients + {c};
      var snapshot := Snapshot("game_state", |clients|, "");
      c.Send(snapshot);
    }

    /** Unregister event: remove and close a registered client; ignore any other. */
    method Unregister(c: Client)
      requires Valid()
      modifies this`clients, c
      ensures Valid()
      ensures old(c in clients) ==> clients == old(clients) - {c} && c.closed && c.queue == old(c.queue)
      ensures old(c !in clients) ==> clients == old(clients) && unchanged(c)
    {
      if c in clients {
        clients := clients - {c};
        c.Close();
      }
    }

    /**
     Broadcast event: every registered client with room gets `m` appended; every
     registered client whose queue is full is closed and removed.
     */
    method Broadcast(m: Message)
      requires Valid()
      modifies this`clients, clients
      ensures Valid()
      ensures clients <= old(clients)
      ensures forall c :: c in old(clients) ==>
                if |old(c.queue)| < Capacity
                then c in clients && !c.closed && c.queue == old(c.queue) + [m]
                else c !in clients && c.closed && c.queue == old(c.queue)
    {
      var pending := clients;
      while pending != {}
        invariant Valid()
        invariant pending <= clients <= old(clients)
        invariant forall c :: c in pending ==> c.queue == old(c.queue)
        invariant forall c :: c in old(clients) && c !in pending ==>
                    if |old(c.queue)| < Capacity
                    then c in clients && !c.closed && c.queue == old(c.queue) + [m]
                    else c !in clients && c.closed && c.queue == old(c.queue)
        decreases pending
      {
        var c :| c in pending;
        var sent := c.TrySend(m);
        if !sent {
          c.Close();
          clients := clients - {c};
        }
        pending := pending - {c};
      }
    }

    /**
     One tick of the game loop. On a finished game: a new game and new sides,
     nothing else. With no legal move: nothing. Otherwise the provider of the
     colour to move is asked (`provider(p)` lists provider p's replies to the
     attempts on this position), the acquired move is applied and, if the
     engine accepts it, the "move" message handed to the broadcast channel is
     returned in `sent`.
     */
    method PlayMove(provider: AIPlayer -> seq<Answer>, coin: nat)
      returns (sent: Option<Message>, chosen: Option<Move>, calls: nat)
      requires Valid()
      requires forall p :: |provider(p)| >= MaxAttempts
      requires coin < 2
      modifies this`game, this`white, this`black
      ensures Valid()
      ensures old(rules.outcome(game)) != NoOutcome ==>
                && game == rules.start && (white, black) == AssignSides(coin)
                && calls == 0 && chosen.None? && sent.None?
      ensures old(rules.outcome(game)) == NoOutcome ==> white == old(white) && black == old(black)
      ensures old(rules.outcome(game)) == NoOutcome && rules.validMoves(old(game)) == [] ==>
                game == old(game) && calls == 0 && chosen.None? && sent.None?
      ensures old(rules.outcome(game)) == NoOutcome && rules.validMoves(old(game)) != [] ==>
                var legal := rules.validMoves(old(game));
                var answers := provider(Mover(rules.turn(old(game)), white, black));
                && chosen.Some? && chosen.value in legal
                && 1 <= calls <= MaxAttempts
                && match FirstAccepted(legal, answers, 0)
                   case Some(k) => calls == k + 1 && Ok(chosen.value) == ParseMove(legal, answers[k].text)
                   case None => calls == MaxAttempts
      ensures chosen.Some? && rules.apply(old(game), chosen.value).Some? ==>
                && game == rules.apply(old(game), chosen.value).value
                && sent == Some(Snapshot("move", |clients|, chosen.value.uci))
      ensures chosen.Some? && rules.apply(old(game), chosen.value).None? ==>
                game == old(game) && sent.None?
      ensures sent.Some? ==> chosen.Some?
      ensures (AppliesLegalMoves(rules) && old(rules.outcome(game)) == NoOutcome
               && rules.validMoves(old(game)) != []) ==> sent.Some?
    {
      sent, chosen, calls := None, None, 0;
      if rules.outcome(game) != NoOutcome {
        game := rules.start;
        white, black := AssignSides(coin).0, AssignSides(coin).1;
        return;
      }
      var legal := rules.validMoves(game);
      if |legal| == 0 {
        return;
      }
      var mover := Mover(rules.turn(game), white, black);
      var move, fallback;
      move, calls, fallback := AcquireMove(legal, provider(mover));
      chosen := Some(move);
      var next := rules.apply(game, move);
      if next.None? {
        return;
      }
      game := next.value;
      sent := Some(Snapshot("move", |clients|, move.uci));
    }
  }
}
