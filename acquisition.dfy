/**
 Move acquisition in `playMove`: up to three provider attempts, stopping at the
 first suggestion that validates, and a random legal move when none does.
 */
module Acquisition {
  import opened Wrappers
  import opened ChessRules
  import opened MoveText

  /** Number of provider attempts per ply. */
  const MaxAttempts := 3

  /** What one provider call returns: a transport/API error or the suggested text. */
  datatype Answer = ProviderError(reason: string) | Suggestion(text: string)

  /** The attempt produced a suggestion that validates, i.e. `ParseMove` returns `Ok` on its text. */
  predicate Accepts(legal: seq<Move>, a: Answer)
  {
    a.Suggestion? && FirstMatchFrom(legal, Clean(a.text), 0).Some?
  }

  /** Index of the first accepted answer among attempts `k` .. `MaxAttempts - 1` (0-based). */
  function FirstAccepted(legal: seq<Move>, answers: seq<Answer>, k: nat): Option<nat>
    requires k <= MaxAttempts <= |answers|
    decreases MaxAttempts - k
  {
    if k == MaxAttempts then None
    else if Accepts(legal, answers[k]) then Some(k)
    else FirstAccepted(legal, answers, k + 1)
  }

  /**
   `FirstAccepted` finds the first attempt whose reply validates, all earlier
   attempts having failed, and finds none exactly when every attempt fails.
   */
  lemma {:induction false} FirstAcceptedIsFirst(legal: seq<Move>, answers: seq<Answer>, k: nat)
    requires k <= MaxAttempts <= |answers|
    ensures var r := FirstAccepted(legal, answers, k);
      && (r.Some? ==> && k <= r.value < MaxAttempts
                      && Accepts(legal, answers[r.value])
                      && forall j :: k <= j < r.value ==> !Accepts(legal, answers[j]))
      && (r.None? <==> forall j :: k <= j < MaxAttempts ==> !Accepts(legal, answers[j]))
    decreases MaxAttempts - k
  {
    if k < MaxAttempts {
      if Accepts(legal, answers[k]) {
        assert FirstAccepted(legal, answers, k) == Some(k);
      } else {
        FirstAcceptedIsFirst(legal, answers, k + 1);
        assert FirstAccepted(legal, answers, k) == FirstAccepted(legal, answers, k + 1);
      }
    }
  }

  /**
   The retry loop of `playMove`. `answers[k]` is the provider's reply to attempt
   k + 1. Returns the move, how many provider calls were made and whether the
   random fallback was taken. The fallback index is any index in range, as
   `rand.Intn(len(validMoves))` may return.
   */
  method AcquireMove(legal: seq<Move>, answers: seq<Answer>) returns (move: Move, calls: nat, fallback: bool)
    requires |legal| > 0
    requires |answers| >= MaxAttempts
    ensures move in legal
    ensures 1 <= calls <= MaxAttempts
    ensures match FirstAccepted(legal, answers, 0)
            case Some(k) => && calls == k + 1 && !fallback
                            && Ok(move) == ParseMove(legal, answers[k].text)
            case None => calls == MaxAttempts && fallback
  {
    var chosen: Option<Move> := None;
    calls := 0;
    var attempt := 1;
    while attempt <= MaxAttempts
      invariant 1 <= attempt <= MaxAttempts + 1
      invariant calls == attempt - 1
      invariant FirstAccepted(legal, answers, 0) == FirstAccepted(legal, answers, attempt - 1)
    {
      calls := calls + 1;
      var answer := answers[attempt - 1];
      if answer.Suggestion? {
        var parsed := ValidateAndParseMove(legal, answer.text);
        if parsed.Ok? {
          chosen := Some(parsed.value);
          break;
        }
      }
      attempt := attempt + 1;
    }
    FirstAcceptedIsFirst(legal, answers, 0);
    if chosen.None? {
      var i :| 0 <= i < |legal|;
      move, fallback := legal[i], true;
    } else {
      move, fallback := chosen.value, false;
    }
  }

  /** A provider that keeps suggesting an illegal move never decides the ply. */
  lemma IllegalSuggestionsExhaustAttempts(legal: seq<Move>, text: string)
    requires forall m :: m in legal ==> !Matches(m, Clean(text))
    ensures FirstAccepted(legal, [Suggestion(text), Suggestion(text), Suggestion(text)], 0).None?
  {
    FirstMatchFromIsFirst(legal, Clean(text), 0);
  }

  /** Provider errors do not use up more than their own attempt. */
  lemma SuccessAfterErrors(legal: seq<Move>, text: string, e1: string, e2: string)
    requires exists m :: m in legal && Matches(m, Clean(text))
    ensures FirstAccepted(legal, [ProviderError(e1), ProviderError(e2), Suggestion(text)], 0) == Some(2)
  {
    var m :| m in legal && Matches(m, Clean(text));
    FirstMatchFromIsFirst(legal, Clean(text), 0);
  }

  /** "e4" on the first attempt over {e4, d4, Nf3} is accepted at once. */
  lemma FirstAttemptAccepted(rest: seq<Answer>)
    requires |rest| >= MaxAttempts - 1
    ensures var legal := [Move("e4", "e2e4"), Move("d4", "d2d4"), Move("Nf3", "g1f3")];
      && FirstAccepted(legal, [Suggestion("e4")] + rest, 0) == Some(0)
      && ParseMove(legal, "e4") == Ok(Move("e4", "e2e4"))
  {
    var legal := [Move("e4", "e2e4"), Move("d4", "d2d4"), Move("Nf3", "g1f3")];
    TrimAt("e4", IsSpace, 0, 2);
    TrimAt("e4", IsQuote, 0, 2);
    assert Matches(legal[0], Clean("e4"));
  }
}
