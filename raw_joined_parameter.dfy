// RawJoinedStringValueParameter: the rest of the command line, exactly as
// typed, from the token after the one it consumes first.
module RawJoinedParameter {
  import opened Common
  import opened Tokenizer
  import opened TokenizedArgs

  const ID: string := "sponge:raw_joined_strings"
  const NAME: string := "Remaining Raw Joined Strings parameter"

  /** The ellipsis that follows the key in the usage text. */
  const ELLIPSIS: string := "\U{2026}"

  /**
   * `getValue`: one token is consumed, the raw line from the start of the
   * token after it (the whole remainder is empty when none follows) is the
   * value, and every remaining token is consumed.
   */
  function RawJoinedValue(c: Cursor): (r: (Cursor, Result<Option<Value>>))
    requires c.Valid()
    ensures r.0.Valid() && r.0.args == c.args && r.0.raw == c.raw
    ensures !HasNextToken(c) ==> r == (c, Err(NullThrown))
    ensures r.1.Ok? ==> !HasNextToken(r.0)
  {
    var (c1, t) := CursorNext(c);
    if t.Err? then (c1, Err(t.failure))
    else
      var from := RawPosition(c1);
      if !(0 <= from <= |c.raw|) then (c1, Err(Crash("StringIndexOutOfBoundsException")))
      else (c1.(index := |c.args|), Ok(Some(TextValue(c.raw[from..]))))
  }

  method RawJoinedGetValue(args: SpongeTokenizedArgs) returns (r: Result<Option<Value>>)
    requires args.Valid()
    modifies args
    ensures args.Valid()
    ensures (args.Model(), r) == RawJoinedValue(old(args.Model()))
  {
    var t := args.Next();
    if t.Err? {
      return Err(t.failure);
    }
    var from := args.GetCurrentRawPosition();
    if !(0 <= from <= |args.GetRaw()|) {
      return Err(Crash("StringIndexOutOfBoundsException"));
    }
    var ret := args.GetRaw()[from..];
    while args.HasNext()
      invariant args.Valid()
      decreases |args.args| - args.iteratorIndex
    {
      var _ := args.Next();
    }
    r := Ok(Some(TextValue(ret)));
  }

  /** Completions are always empty. */
  function RawJoinedCompletion(): (r: seq<string>)
    ensures r == []
  {
    []
  }

  function RawJoinedUsage(key: string): (r: string)
    ensures |r| == |key| + 1 && r[..|key|] == key && r[|key|] == '\U{2026}'
  {
    key + ELLIPSIS
  }

  // Properties.

  /**
   * On the arguments the tokenizer produces, the value is always there: the
   * raw text from the start of the second remaining token, or empty when
   * only one token remained; the first token is not part of it.
   */
  lemma RemainderOfTokenizedLine(c: Cursor)
    requires c.Valid() && InOrder(c.args, |c.raw|) && HasNextToken(c)
    ensures var (c', r) := RawJoinedValue(c);
      c'.index == |c.args|
      && r == Ok(Some(TextValue(if c.index + 1 < |c.args| then c.raw[c.args[c.index + 1].startIndex..] else "")))
  {
    if c.index + 1 < |c.args| {
      assert 0 <= GapStart(c.args, c.index + 1) <= c.args[c.index + 1].startIndex <= c.args[c.index + 1].endIndex + 1 <= |c.raw|;
    } else {
      assert c.raw[|c.raw|..] == "";
    }
  }

  /** The token consumed first lies wholly before the returned remainder. */
  lemma FirstTokenExcluded(c: Cursor)
    requires c.Valid() && InOrder(c.args, |c.raw|) && c.index + 1 < |c.args|
    ensures c.args[c.index].endIndex < c.args[c.index + 1].startIndex
  {
    assert GapStart(c.args, c.index + 1) <= c.args[c.index + 1].startIndex;
  }
}
