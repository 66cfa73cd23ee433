// LiteralValueParameter: a fixed series of words that must be typed in
// order, each matched ignoring case.
module LiteralParameter {
  import opened Common
  import opened JavaLang
  import opened TokenizedArgs

  /** The next |literals| tokens equal the literals, in order, ignoring case. */
  ghost predicate TypedInOrder(literals: seq<string>, c: Cursor) {
    c.index + |literals| <= |c.args|
    && forall k :: 0 <= k < |literals| ==> EqualsIgnoreCase(c.args[c.index + k].arg, literals[k])
  }

  /**
   * The loop of `getValue`: one token per literal; the first mismatch fails
   * after its token has been consumed.
   */
  function MatchLiterals(literals: seq<string>, c: Cursor): (r: (Cursor, Outcome))
    requires c.Valid()
    ensures r.0.Valid() && r.0.args == c.args && r.0.raw == c.raw && c.index <= r.0.index
    ensures r.1.Pass? ==> r.0.index == c.index + |literals|
    ensures r.1.Fail? ==> r.1.failure == NullThrown
    decreases |literals|
  {
    if |literals| == 0 then (c, Pass)
    else
      var (c', t) := CursorNext(c);
      if t.Err? then (c', Fail(t.failure))
      else if !EqualsIgnoreCase(t.value, literals[0]) then (c', Fail(NullThrown))
      else MatchLiterals(literals[1..], c')
  }

  /** `getValue`: the configured value, which may be absent, once every literal has been matched. */
  function LiteralValue(literals: seq<string>, returned: Option<Value>, c: Cursor): (r: (Cursor, Result<Option<Value>>))
    requires c.Valid()
    ensures r.0 == MatchLiterals(literals, c).0
    ensures r.1.Ok? <==> MatchLiterals(literals, c).1.Pass?
    ensures r.1.Ok? ==> r.1.value == returned
  {
    var (c', o) := MatchLiterals(literals, c);
    match o
    case Pass => (c', Ok(returned))
    case Fail(f) => (c', Err(f))
  }

  method LiteralGetValue(literals: seq<string>, returned: Option<Value>, args: SpongeTokenizedArgs)
    returns (r: Result<Option<Value>>)
    requires args.Valid()
    modifies args
    ensures args.Valid()
    ensures (args.Model(), r) == LiteralValue(literals, returned, old(args.Model()))
  {
    for i := 0 to |literals|
      invariant args.Valid()
      invariant MatchLiterals(literals, old(args.Model())) == MatchLiterals(literals[i..], args.Model())
    {
      assert literals[i..][1..] == literals[i + 1..];
      var current := args.Next();
      if current.Err? {
        return Err(current.failure);
      }
      if !EqualsIgnoreCase(current.value, literals[i]) {
        return Err(NullThrown);
      }
    }
    r := Ok(returned);
  }

  /**
   * The loop of `complete`. A whole token must equal its literal for the
   * walk to go on; on the last token, the literal it prefixes ignoring case is
   * the completion. `nextIfPresent` fails at the end of the input, so
   * running out of tokens before the literals is an error.
   */
  function LiteralCompletion(literals: seq<string>, c: Cursor): (r: (Cursor, Result<seq<string>>))
    requires c.Valid()
    ensures r.0.Valid() && r.0.args == c.args && r.0.raw == c.raw
    ensures r.1.Ok? ==> |r.1.value| <= 1
    decreases |literals|
  {
    if |literals| == 0 then (c, Ok([]))
    else
      var (c', n) := CursorNextIfPresent(c);
      match n
      case Err(f) => (c', Err(f))
      case Ok(None) => (c', Ok([]))
      case Ok(Some(typed)) =>
        if HasNextToken(c') then
          if !EqualsIgnoreCase(typed, literals[0]) then (c', Ok([])) else LiteralCompletion(literals[1..], c')
        else if StartsWith(ToLower(literals[0]), ToLower(typed)) then (c', Ok([literals[0]]))
        else LiteralCompletion(literals[1..], c')
  }

  method LiteralComplete(literals: seq<string>, args: SpongeTokenizedArgs) returns (r: Result<seq<string>>)
    requires args.Valid()
    modifies args
    ensures args.Valid()
    ensures (args.Model(), r) == LiteralCompletion(literals, old(args.Model()))
  {
    for i := 0 to |literals|
      invariant args.Valid()
      invariant LiteralCompletion(literals, old(args.Model())) == LiteralCompletion(literals[i..], args.Model())
    {
      assert literals[i..][1..] == literals[i + 1..];
      var next := args.NextIfPresent();
      if next.Err? {
        return Err(next.failure);
      }
      if next.value.None? {
        return Ok([]);
      }
      if args.HasNext() {
        if !EqualsIgnoreCase(next.value.value, literals[i]) {
          return Ok([]);
        }
      } else if StartsWith(ToLower(literals[i]), ToLower(next.value.value)) {
        return Ok([literals[i]]);
      }
    }
    r := Ok([]);
  }

  /** `getUsage`: the literals separated by single spaces. */
  function LiteralUsage(literals: seq<string>): (r: string)
    ensures |literals| == 1 ==> r == literals[0]
    ensures |literals| > 1 ==> r == literals[0] + " " + LiteralUsage(literals[1..])
  {
    Join(literals, " ")
  }

  // Properties.

  /** `getValue` succeeds exactly when the next tokens spell the literals, and then consumes exactly those. */
  lemma {:induction false} MatchIffTyped(literals: seq<string>, c: Cursor)
    requires c.Valid()
    ensures MatchLiterals(literals, c).1.Pass? <==> TypedInOrder(literals, c)
    decreases |literals|
  {
    if |literals| > 0 && HasNextToken(c) {
      var c' := CursorNext(c).0;
      MatchIffTyped(literals[1..], c');
      if EqualsIgnoreCase(c.args[c.index].arg, literals[0]) {
        if TypedInOrder(literals[1..], c') {
          forall k | 0 <= k < |literals|
            ensures EqualsIgnoreCase(c.args[c.index + k].arg, literals[k])
          {
            if k > 0 {
              assert c.args[c'.index + (k - 1)] == c.args[c.index + k];
            }
          }
        }
        if TypedInOrder(literals, c) {
          forall k | 0 <= k < |literals| - 1
            ensures EqualsIgnoreCase(c'.args[c'.index + k].arg, literals[1..][k])
          {
            assert c.index + (k + 1) == c'.index + k;
          }
        }
      }
    }
  }

  /**
   * A mismatch at position k, after k matching tokens, fails with the
   * mismatching token consumed: the cursor is k + 1 tokens further on.
   */
  lemma {:induction false} MismatchConsumesToken(literals: seq<string>, c: Cursor, k: nat)
    requires c.Valid() && k < |literals| && c.index + k < |c.args|
    requires forall i :: 0 <= i < k ==> EqualsIgnoreCase(c.args[c.index + i].arg, literals[i])
    requires !EqualsIgnoreCase(c.args[c.index + k].arg, literals[k])
    ensures MatchLiterals(literals, c) == (c.(index := c.index + k + 1), Fail(NullThrown))
    decreases k
  {
    var c' := CursorNext(c).0;
    if k > 0 {
      forall i | 0 <= i < k - 1
        ensures EqualsIgnoreCase(c'.args[c'.index + i].arg, literals[1..][i])
      {
        assert c'.index + i == c.index + (i + 1);
      }
      assert c'.args[c'.index + (k - 1)] == c.args[c.index + k];
      MismatchConsumesToken(literals[1..], c', k - 1);
    }
  }

  /**
   * When only the final k + 1 tokens remain, the first k spell the first k
   * literals and the last one prefixes literal k, the completion is exactly
   * that literal.
   */
  lemma {:induction false} CompletesCurrentLiteral(literals: seq<string>, c: Cursor, k: nat)
    requires c.Valid() && k < |literals| && c.index + k + 1 == |c.args|
    requires forall i :: 0 <= i < k ==> EqualsIgnoreCase(c.args[c.index + i].arg, literals[i])
    requires StartsWith(ToLower(literals[k]), ToLower(c.args[c.index + k].arg))
    ensures LiteralCompletion(literals, c).1 == Ok([literals[k]])
    decreases k
  {
    var c' := CursorNext(c).0;
    if k > 0 {
      forall i | 0 <= i < k - 1
        ensures EqualsIgnoreCase(c'.args[c'.index + i].arg, literals[1..][i])
      {
        assert c'.index + i == c.index + (i + 1);
      }
      assert c'.args[c'.index + (k - 1)] == c.args[c.index + k];
      CompletesCurrentLiteral(literals[1..], c', k - 1);
    }
  }

  /** An earlier whole token that is not its literal ends the walk with no completions. */
  lemma {:induction false} EarlierMismatchCompletesNothing(literals: seq<string>, c: Cursor, k: nat)
    requires c.Valid() && k < |literals| && c.index + k + 1 < |c.args|
    requires forall i :: 0 <= i < k ==> EqualsIgnoreCase(c.args[c.index + i].arg, literals[i])
    requires !EqualsIgnoreCase(c.args[c.index + k].arg, literals[k])
    ensures LiteralCompletion(literals, c).1 == Ok([])
    decreases k
  {
    var c' := CursorNext(c).0;
    if k > 0 {
      forall i | 0 <= i < k - 1
        ensures EqualsIgnoreCase(c'.args[c'.index + i].arg, literals[1..][i])
      {
        assert c'.index + i == c.index + (i + 1);
      }
      assert c'.args[c'.index + (k - 1)] == c.args[c.index + k];
      EarlierMismatchCompletesNothing(literals[1..], c', k - 1);
    }
  }

  /** With literals left and no tokens, completing fails: `nextIfPresent` does not return empty at the end. */
  lemma CompletingPastTheEndFails(literals: seq<string>, c: Cursor)
    requires c.Valid() && |literals| > 0 && !HasNextToken(c)
    ensures LiteralCompletion(literals, c) == (c, Err(NullThrown))
  {
  }
}
