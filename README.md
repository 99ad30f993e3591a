# Live chess coordinator of plai, modelled in Dafny

The server of plai runs an endless chess game in which ChatGPT and Claude take
turns. Every tick of the game loop, `playMove` asks the provider whose colour is
to move for a move. It tries three times, validating each reply against the
legal moves, and falls back to a random legal move if none of the replies is
valid. It applies the move and broadcasts it. A finished game is replaced by a
new one with freshly drawn sides. The `Hub`'s run loop keeps the registry of
WebSocket viewers. Each viewer has a send channel buffered to 256 messages. The
loop handles one event at a time: register (send the newcomer a snapshot),
unregister (close the channel once), and broadcast (a non-blocking send; a
viewer whose buffer is full is dropped).

The model covers `server/main.go`:

- `wrappers.dfy` holds the `Option` and `Result` types used in place of Go's nil pointers and error returns.
- `chess_rules.dfy` is the chess engine (`notnil/chess`) as an opaque `Game` type. `Rules` is a record of the engine functions the server calls: new game, valid moves, turn, outcome, FEN, SVG rendering and apply. A `Move` is the pair of its short notation in the current position and its long form.
- `players.dfy` covers the two providers, the coin-based side assignment of `newHub` and of rollover, and the choice of mover.
- `messages.dfy` has the `Message` record and how its turn and current-player fields are composed.
- `move_text.dfy` models `validateAndParseMove`: `TrimSpace` with Go's `unicode.IsSpace` set, then `Trim` of `"` and `'`, then a first-match search over short notation or long form.
- `acquisition.dfy` is the retry loop of `playMove`: at most three provider attempts, stopping at the first one that validates, otherwise a fallback to any legal index.
- `server.dfy` has the `Client` send channel and the `Hub` class with its events and `PlayMove`.
- `handoff.dfy` models the lock and channel hand-off between the run loop and `playMove` (see Findings).

Randomness is explicit. `rand.Intn(2)` is a parameter `coin < 2`. The fallback `rand.Intn(len(validMoves))` is a nondeterministic choice of any index in range. A provider is a parameter too: `provider(p)` lists the replies provider p gives to the successive attempts on the current position. Each reply is an error or a text.

## Model

| member | source | states |
|---|---|---|
| Players.AssignSides | server/main.go:73-80 | the drawn white and black providers are always different; coin 0 gives ChatGPT white and coin 1 gives Claude white |
| Players.AssignSidesCoversPairings | server/main.go:346-352 | each of the two distinct pairings is drawn by exactly one coin value, so rollover can produce either assignment |
| Players.NameInjective | server/main.go:31-34 | the two providers have different names in messages |
| Players.MoverPlaysItsColour | server/main.go:364-369 | with distinct sides, the mover is the white provider exactly when White is to move and the black provider exactly when Black is |
| Messages.TurnAgreesWithCurrentPlayer | server/main.go:106-111 | in every composed message, Turn is "black" exactly when CurrentPlayer is BlackPlayer, "white" exactly when it is WhitePlayer, the turn is the engine's side to move, and CurrentPlayer is the mover |
| MoveText.LeadingCountIsMaximal | server/main.go:314-315 | LeadingCount is the length of the longest prefix the cut set removes: every counted character is droppable and the next one is not |
| MoveText.TrailingCountIsMaximal | server/main.go:314-315 | TrailingCount is the length of the longest suffix the cut set removes |
| MoveText.TrimIsMaximal | server/main.go:314-315 | the result of Trim is a slice of the input; everything cut off before and after is in the cut set, and the first and last characters kept are not |
| MoveText.TrimBoundsUnique | server/main.go:314-315 | only one slice meets that description, so the trim is uniquely determined |
| MoveText.TrimAt | server/main.go:314-315 | Trim cuts at exactly the bounds that meet that description |
| MoveText.SpacesInsideQuotesKept | server/main.go:314-315 | white space is trimmed only before the quotes: `' e4 '` cleans to ` e4 ` |
| MoveText.FirstMatchFromIsFirst | server/main.go:323-332 | FirstMatchFrom returns the first index, in legal-move order, whose short notation or long form equals the key; returns none exactly when no move matches |
| MoveText.ParseMove | server/main.go:312-335 | the result is a legal move named by the cleaned text, with no earlier legal move named by it; the result is an error exactly when no legal move matches, and the error text is "invalid move: " plus the cleaned text |
| MoveText.ValidateAndParseMove | server/main.go:312-335 | the linear search returns exactly ParseMove's result |
| MoveText.QuotedSpacedSuggestionRejected | server/main.go:312-335 | `' e4 '` is rejected when the legal move is e4/e2e4 |
| MoveText.QuotedSuggestionAccepted | server/main.go:312-335 | `"e4"` with surrounding white space selects the e4 move, even when it is not first in the list |
| Acquisition.FirstAcceptedIsFirst | server/main.go:377-394 | FirstAccepted returns the first of the three attempts whose reply is a suggestion that validates, with all earlier attempts failed; returns none exactly when all three fail |
| Acquisition.AcquireMove | server/main.go:374-400 | the move is always legal and at most 3 provider calls are made; if some attempt validates, the loop stops there (calls = that attempt) and the move is that suggestion's parsed move; otherwise all 3 calls are made and the random fallback is taken |
| Acquisition.IllegalSuggestionsExhaustAttempts | server/main.go:377-400 | a suggestion naming no legal move, repeated three times, leaves no accepted attempt, so the fallback is used |
| Acquisition.SuccessAfterErrors | server/main.go:378-391 | two provider errors followed by a valid suggestion are accepted on the third attempt |
| Acquisition.FirstAttemptAccepted | server/main.go:378-391 | "e4" on the first attempt over e4, d4 and Nf3 is accepted at once and selects e4 |
| Server.Client.constructor | server/main.go:479-483 | a new client's send channel is open and empty |
| Server.Client.Send | server/main.go:114-123 | a blocking send on an open channel with room appends the message at the end |
| Server.Client.TrySend | server/main.go:132-134 | the non-blocking send succeeds exactly when fewer than 256 messages are buffered, and then appends; otherwise nothing changes |
| Server.Client.Close | server/main.go:128 | closing requires an open channel (a second close would panic) and keeps the buffered messages |
| Server.Hub.constructor | server/main.go:71-97 | no viewers, a new game, and sides from AssignSides; the hub invariant (distinct sides, registered channels open and within capacity) holds |
| Server.Hub.Register | server/main.go:102-123 | adds the client; appends exactly one "game_state" snapshot of the current game and sides to that client's queue only, with a viewer count equal to the registry size after insertion |
| Server.Hub.Unregister | server/main.go:125-129 | a registered client is removed and closed with its queue kept; for any other client nothing changes, so no channel is closed twice |
| Server.Hub.Broadcast | server/main.go:130-138 | each registered client with fewer than 256 queued messages gets the message appended and stays; each full one is closed and removed; earlier contents are unchanged, and clients outside the registry and the game state are untouched |
| Server.Hub.PlayMove | server/main.go:337-432 | on an outcome other than NoOutcome it replaces the game with a new one and redraws the sides, with no provider call, move or message; with no legal move nothing changes; otherwise the sides stay, the mover's provider is asked at most 3 times, the chosen move is legal (the first validated suggestion if any), and a "move" message for the new position is returned exactly when the engine applied it; the move is always applied when the engine accepts its own legal moves |
| Handoff.AsWrittenDeadlocks | server/main.go:99-124 | as written, a registration during a tick reaches a state where the run loop waits for the read lock and playMove, holding the write lock, waits on the broadcast channel |
| Handoff.InvPreserved | server/main.go:337-339 | when the lock is released before the hand-off, the write lock is held exactly while playMove is in its locked phase, after any events |
| Handoff.CorrectedNeverDeadlocks | server/main.go:418-429 | when the lock is released before the hand-off, some event can always happen |

## Left out

- The provider clients `getChatGPTMove`, `getClaudeMove` and `getAIMove` (HTTP, JSON, prompts; server/main.go:157-310) are not modelled. A provider is an arbitrary list of replies, one per attempt. server/ai-move.go is not part of this model.
- WebSocket transport (`readPump`, `writePump`, `serveWs`, `upgrader`) is not modelled. Queues are never drained here, because `writePump` is the only consumer. A client is registered as a fresh open channel.
- Goroutines, the ticker and `sync.RWMutex` are not modelled. Each hub event and each `playMove` call is one sequential step. The only exception is the hand-off model of the finding below.
- The map iteration order in the broadcast case is random in Go. The model picks clients in an arbitrary order. The outcome does not depend on the order, because each client is handled independently.
- `generateSVG` and the chess engine are opaque functions of `Rules`. SVG rendering errors (which yield "") are inside `render`.
- Logging, `.env` loading, `main` and server/database.go are not modelled. The design saves each finished game before rollover, but `SaveGame` is never called from server/main.go, so the model's rollover persists nothing.
- Go strings are UTF-8 bytes, and `unicode.IsSpace` is applied to decoded runes. The model's strings are sequences of Unicode scalar values, so invalid UTF-8 is not modelled.
- Server.Hub.PlayMove: `validateAndParseMove` reads `ValidMoves()` again for each attempt. Under the lock, the position cannot change, so the model validates against the list computed once.
- Server.Hub.PlayMove: the returned "move" message reads `len(h.clients)` as the viewer count. In the source that read races with the run loop, and the model does not capture the race.
- Server.Hub.Register: requires the client's channel to be open and to have room. Otherwise the source's blocking send would panic or block the hub forever. This never happens for a freshly connected client.
- The system's design calls for releasing the session lock while the providers are asked. The code holds `mu` for the whole of `playMove`, provider calls included. The model follows the code (see Findings for a consequence).

## Findings

| source | as written | input that shows it | evidently intended | confidence | as-written member | corrected member |
|---|---|---|---|---|---|---|
| server/main.go:338-339 | `playMove` keeps `mu` write-locked through its `h.broadcast <-` send (deferred unlock), while the run loop's register case takes `mu.RLock` before it can return to receiving broadcasts | a viewer connects while `playMove` is running (e.g. during a provider call): TickStart, Register, TickSend leaves both goroutines waiting for each other | release the lock before handing the message to the run loop, so a pending registration can finish and the broadcast can then be received | high; not executed | Handoff.AsWrittenDeadlocks | Handoff.CorrectedNeverDeadlocks |
