/**
 Validation of a provider's free-text move (`validateAndParseMove`): trim white
 space, then trim quote characters, then take the first legal move whose short
 notation or long form equals what is left.
 */
module MoveText {
  import opened Wrappers
  import opened ChessRules

  /** Go's `unicode.IsSpace`, the set `strings.TrimSpace` removes. */
  predicate IsSpace(c: char)
  {
    || c == '\t' || c == '\n' || c == '\U{000B}' || c == '\U{000C}' || c == '\r' || c == ' '
    || c == '\U{0085}' || c == '\U{00A0}' || c == '\U{1680}'
    || ('\U{2000}' <= c <= '\U{200A}')
    || c == '\U{2028}' || c == '\U{2029}' || c == '\U{202F}' || c == '\U{205F}' || c == '\U{3000}'
  }

  /** The cut set "\"'" of the second trim. */
  predicate IsQuote(c: char)
  {
    c == '"' || c == '\''
  }

  /** Number of leading characters of `s` that `drop` removes (see `LeadingCountIsMaximal`). */
  function LeadingCount(s: string, drop: char -> bool): (n: nat)
    ensures n <= |s|
  {
    if s == [] || !drop(s[0]) then 0 else 1 + LeadingCount(s[1..], drop)
  }

  /** Number of trailing characters of `s` that `drop` removes (see `TrailingCountIsMaximal`). */
  function TrailingCount(s: string, drop: char -> bool): (n: nat)
    ensures n <= |s|
  {
    if s == [] || !drop(s[|s| - 1]) then 0 else 1 + TrailingCount(s[..|s| - 1], drop)
  }

  /** `LeadingCount` is the length of the longest prefix made only of droppable characters. */
  lemma {:induction false} LeadingCountIsMaximal(s: string, drop: char -> bool)
    ensures var n := LeadingCount(s, drop);
      && (forall k :: 0 <= k < n ==> drop(s[k]))
      && (n < |s| ==> !drop(s[n]))
  {
    if s != [] && drop(s[0]) {
      LeadingCountIsMaximal(s[1..], drop);
    }
  }

  /** `TrailingCount` is the length of the longest suffix made only of droppable characters. */
  lemma {:induction false} TrailingCountIsMaximal(s: string, drop: char -> bool)
    ensures var n := TrailingCount(s, drop);
      && (forall k :: |s| - n <= k < |s| ==> drop(s[k]))
      && (n < |s| ==> !drop(s[|s| - 1 - n]))
  {
    if s != [] && drop(s[|s| - 1]) {
      TrailingCountIsMaximal(s[..|s| - 1], drop);
    }
  }

  /**
   `s[i..j]` is what is left of `s` once every leading and trailing character
   that `drop` removes is gone: everything cut is droppable and, unless nothing
   is left, the first and last characters kept are not.
   */
  predicate TrimBounds(s: string, drop: char -> bool, i: int, j: int)
  {
    && 0 <= i <= j <= |s|
    && (forall k :: 0 <= k < i ==> drop(s[k]))
    && (forall k :: j <= k < |s| ==> drop(s[k]))
    && (i < j ==> !drop(s[i]) && !drop(s[j - 1]))
  }

  /** Go's `strings.Trim` with a predicate for the cut set; `TrimIsMaximal` says what it returns. */
  function Trim(s: string, drop: char -> bool): string
  {
    var rest := s[LeadingCount(s, drop)..];
    rest[..|rest| - TrailingCount(rest, drop)]
  }

  /** Only one slice satisfies `TrimBounds`. */
  lemma TrimBoundsUnique(s: string, drop: char -> bool, i: int, j: int, i': int, j': int)
    requires TrimBounds(s, drop, i, j) && TrimBounds(s, drop, i', j')
    ensures s[i..j] == s[i'..j']
  {
    if i < j && i' < j' {
      assert i == i' && j == j';
    } else {
      assert i == j && i' == j';
    }
  }

  /** `Trim` keeps exactly the slice between the maximal droppable prefix and suffix. */
  lemma TrimIsMaximal(s: string, drop: char -> bool)
    ensures exists i, j :: TrimBounds(s, drop, i, j) && Trim(s, drop) == s[i..j]
  {
    var i := LeadingCount(s, drop);
    var rest := s[i..];
    var n := TrailingCount(rest, drop);
    LeadingCountIsMaximal(s, drop);
    TrailingCountIsMaximal(rest, drop);
    assert TrimBounds(s, drop, i, i + |rest| - n);
    assert Trim(s, drop) == s[i..i + |rest| - n];
  }

  /** So `Trim` cuts at exactly the bounds that satisfy `TrimBounds`. */
  lemma TrimAt(s: string, drop: char -> bool, i: int, j: int)
    requires TrimBounds(s, drop, i, j)
    ensures Trim(s, drop) == s[i..j]
  {
    TrimIsMaximal(s, drop);
    var i', j' :| TrimBounds(s, drop, i', j') && Trim(s, drop) == s[i'..j'];
    TrimBoundsUnique(s, drop, i, j, i', j');
  }

  /** The text after `strings.TrimSpace` and then `strings.Trim(_, "\"'")`. */
  function Clean(text: string): string
  {
    Trim(Trim(text, IsSpace), IsQuote)
  }

  /** The move is named by `key`, in short notation or in long form. */
  predicate Matches(m: Move, key: string)
  {
    m.san == key || m.uci == key
  }

  /** Index of the first move at or after `from` that `key` names (see `FirstMatchFromIsFirst`). */
  function FirstMatchFrom(legal: seq<Move>, key: string, from: nat): Option<nat>
    requires from <= |legal|
    decreases |legal| - from
  {
    if from == |legal| then None
    else if Matches(legal[from], key) then Some(from)
    else FirstMatchFrom(legal, key, from + 1)
  }

  /**
   `FirstMatchFrom` finds the first move from `from` on that `key` names, and
   finds none exactly when no move from `from` on is named by it.
   */
  lemma {:induction false} FirstMatchFromIsFirst(legal: seq<Move>, key: string, from: nat)
    requires from <= |legal|
    ensures var r := FirstMatchFrom(legal, key, from);
      && (r.Some? ==> && from <= r.value < |legal|
                      && Matches(legal[r.value], key)
                      && forall j :: from <= j < r.value ==> !Matches(legal[j], key))
      && (r.None? <==> forall j :: from <= j < |legal| ==> !Matches(legal[j], key))
    decreases |legal| - from
  {
    if from < |legal| && !Matches(legal[from], key) {
      FirstMatchFromIsFirst(legal, key, from + 1);
    }
  }

  /**
   What `validateAndParseMove` returns for `text`: the first legal move the
   cleaned text names, or the error "invalid move: <cleaned text>" when it
   names none.
   */
  function ParseMove(legal: seq<Move>, text: string): (r: Result<Move, string>)
    ensures r.Ok? ==> r.value in legal && Matches(r.value, Clean(text))
    ensures r.Ok? ==> exists i :: 0 <= i < |legal| && legal[i] == r.value
                        && forall j :: 0 <= j < i ==> !Matches(legal[j], Clean(text))
    ensures r.Err? <==> forall m :: m in legal ==> !Matches(m, Clean(text))
    ensures r.Err? ==> r.error == "invalid move: " + Clean(text)
  {
    var key := Clean(text);
    FirstMatchFromIsFirst(legal, key, 0);
    match FirstMatchFrom(legal, key, 0)
    case Some(i) => Ok(legal[i])
    case None => Err("invalid move: " + key)
  }

  /** The linear search of `validateAndParseMove`, proved to compute `ParseMove`. */
  method ValidateAndParseMove(legal: seq<Move>, text: string) returns (r: Result<Move, string>)
    ensures r == ParseMove(legal, text)
  {
    var key := Clean(text);
    var i := 0;
    while i < |legal|
      invariant 0 <= i <= |legal|
      invariant FirstMatchFrom(legal, key, i) == FirstMatchFrom(legal, key, 0)
    {
      if legal[i].san == key || legal[i].uci == key {
        return Ok(legal[i]);
      }
      i := i + 1;
    }
    return Err("invalid move: " + key);
  }

  /** Quotes are trimmed after white space, so spaces inside the quotes stay. */
  lemma SpacesInsideQuotesKept()
    ensures Clean("' e4 '") == " e4 "
  {
    var s := "' e4 '";
    TrimAt(s, IsSpace, 0, |s|);
    TrimAt(s, IsQuote, 1, |s| - 1);
    assert s[0..|s|] == s && s[1..|s| - 1] == " e4 ";
  }

  /** ... and such a suggestion names no move written without spaces. */
  lemma QuotedSpacedSuggestionRejected()
    ensures ParseMove([Move("e4", "e2e4")], "' e4 '").Err?
  {
    SpacesInsideQuotesKept();
  }

  /** White space and then quotes around a notation are cleaned away. */
  lemma QuotedSuggestionAccepted()
    ensures ParseMove([Move("d4", "d2d4"), Move("e4", "e2e4")], " \"e4\"\n") == Ok(Move("e4", "e2e4"))
  {
    var s := " \"e4\"\n";
    var quoted := s[1..|s| - 1];
    assert quoted == "\"e4\"";
    TrimAt(s, IsSpace, 1, |s| - 1);
    TrimAt(quoted, IsQuote, 1, 3);
    assert Clean(s) == "e4";
    var legal := [Move("d4", "d2d4"), Move("e4", "e2e4")];
    assert !Matches(legal[0], "e4") && Matches(legal[1], "e4");
    assert FirstMatchFrom(legal, "e4", 0) == Some(1);
  }
}
