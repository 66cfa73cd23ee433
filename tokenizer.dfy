// QuotedStringTokenizer: splits a command's argument string into arguments,
// each with the positions of its first and last character in the input.
// The specification functions describe the tokenizer by the position of the
// next unread character; the class below runs the same steps imperatively,
// over a TokenizerState cursor and a StringBuilder, and is proved equal to it.
module Tokenizer {
  import opened Common
  import opened JavaLang

  datatype SingleArg = SingleArg(arg: string, startIndex: int, endIndex: int)

  datatype TokenizerConfig = TokenizerConfig(handleQuotedStrings: bool, forceLenient: bool, trimTrailingSpace: bool)

  const BufferOverrun: Failure := ParseError("Buffer overrun while parsing args")
  const Unterminated: Failure := ParseError("Unterminated quoted string found")

  function QuoteMismatch(actual: char, expected: char): Failure {
    ParseError("Actual next character '" + [actual] + "' did not match expected quotation character '" + [expected] + "'")
  }

  predicate IsQuote(c: char) { c == '"' || c == '\'' }

  /** The text one parsing step read and the position of the next unread character after it. */
  datatype Scan = Scan(text: string, next: nat)

  // ---------------------------------------------------------------------------
  // Specification

  /** The first position at or after `p` that does not hold whitespace. */
  function SkipWhiteSpaceFrom(s: string, p: nat): (q: nat)
    requires p <= |s|
    ensures p <= q <= |s|
    ensures forall k :: p <= k < q ==> IsWhitespace(s[k])
    ensures q < |s| ==> !IsWhitespace(s[q])
    decreases |s| - p
  {
    if p < |s| && IsWhitespace(s[p]) then SkipWhiteSpaceFrom(s, p + 1) else p
  }

  /** A backslash at `p` and the character after it, which is taken literally. */
  function EscapeFrom(s: string, p: nat): (r: Result<char>)
    requires p <= |s|
  {
    if p + 1 < |s| then Ok(s[p + 1]) else Err(BufferOverrun)
  }

  /** An unquoted argument from `p`, appended to `acc`: it stops before whitespace. */
  function UnquotedFrom(s: string, p: nat, acc: string): (r: Result<Scan>)
    requires p <= |s|
    ensures r.Ok? ==> p <= r.value.next <= |s|
    ensures r.Ok? && r.value.next < |s| ==> IsWhitespace(s[r.value.next])
    ensures r.Ok? ==> acc <= r.value.text && |r.value.text| <= |acc| + r.value.next - p
    decreases |s| - p
  {
    if p == |s| || IsWhitespace(s[p]) then Ok(Scan(acc, p))
    else if s[p] == '\\' then
      match EscapeFrom(s, p)
      case Err(f) => Err(f)
      case Ok(c) => UnquotedFrom(s, p + 2, acc + [c])
    else UnquotedFrom(s, p + 1, acc + [s[p]])
  }

  /** The body of a string quoted by `q` from `p`, appended to `acc`; `next` is past the closing quote. */
  function QuotedFrom(s: string, p: nat, q: char, acc: string, lenient: bool): (r: Result<Scan>)
    requires p <= |s|
    ensures r.Ok? ==> p <= r.value.next <= |s|
    ensures r.Ok? ==> (p < r.value.next && s[r.value.next - 1] == q) || (lenient && r.value.next == |s|)
    ensures r.Ok? ==> acc <= r.value.text && |r.value.text| <= |acc| + r.value.next - p
    ensures !lenient && (forall k :: p <= k < |s| ==> s[k] != q) ==> r.Err?
    decreases |s| - p
  {
    if p == |s| then (if lenient then Ok(Scan(acc, p)) else Err(Unterminated))
    else if s[p] == q then Ok(Scan(acc, p + 1))
    else if s[p] == '\\' then
      match EscapeFrom(s, p)
      case Err(f) => Err(f)
      case Ok(c) => QuotedFrom(s, p + 2, q, acc + [c], lenient)
    else QuotedFrom(s, p + 1, q, acc + [s[p]], lenient)
  }

  /** A quoted string whose opening quote `q` is expected at `p`. */
  function ParseQuotedFrom(s: string, p: nat, q: char, acc: string, lenient: bool): (r: Result<Scan>)
    requires p <= |s|
    ensures r.Ok? ==> p < r.value.next <= |s| && s[p] == q
  {
    if p == |s| then Err(BufferOverrun)
    else if s[p] != q then Err(QuoteMismatch(s[p], q))
    else QuotedFrom(s, p + 1, q, acc, lenient)
  }

  /** The next argument from `p`; `lenient` is the tokenizer state's own leniency. */
  function NextArgFrom(cfg: TokenizerConfig, s: string, p: nat, lenient: bool): (r: Result<Scan>)
    requires p <= |s|
    ensures r.Ok? ==> p <= r.value.next <= |s|
    ensures r.Ok? && p < |s| && !IsWhitespace(s[p]) ==> p < r.value.next
    ensures p < |s| && IsWhitespace(s[p]) ==> r == Ok(Scan("", p))
  {
    if p == |s| then Ok(Scan("", p))
    else if cfg.handleQuotedStrings && IsQuote(s[p]) then
      ParseQuotedFrom(s, p, s[p], "", lenient || cfg.forceLenient)
    else
      UnquotedFrom(s, p, "")
  }

  /**
   * One turn of the tokenizer's loop from position `p`: the argument read and
   * the position where the next turn starts.
   */
  function NextTokenFrom(cfg: TokenizerConfig, s: string, p: nat, lenient: bool): (r: Result<(SingleArg, nat)>)
    requires p < |s|
    ensures r.Ok? ==> p < r.value.1 <= |s|
    ensures r.Ok? ==> p <= r.value.0.startIndex <= r.value.0.endIndex + 1 <= r.value.1
  {
    var p1 := if cfg.trimTrailingSpace then p else SkipWhiteSpaceFrom(s, p);
    match NextArgFrom(cfg, s, p1, lenient)
    case Err(f) => Err(f)
    case Ok(scan) =>
      var p2 := if cfg.trimTrailingSpace then SkipWhiteSpaceFrom(s, scan.next) else scan.next;
      Ok((SingleArg(scan.text, p1, scan.next - 1), p2))
  }

  /** The turns of the tokenizer's loop from position `p`, after the arguments `acc`. */
  function TokenizeFrom(cfg: TokenizerConfig, s: string, p: nat, lenient: bool, acc: seq<SingleArg>): (r: Result<seq<SingleArg>>)
    requires p <= |s|
    decreases |s| - p
  {
    if p == |s| then Ok(acc)
    else
      match NextTokenFrom(cfg, s, p, lenient)
      case Err(f) => Err(f)
      case Ok((arg, next)) => TokenizeFrom(cfg, s, next, lenient, acc + [arg])
  }

  /** What `tokenize(arguments, lenient)` returns or throws. */
  function Tokenization(cfg: TokenizerConfig, s: string, lenient: bool): Result<seq<SingleArg>> {
    if |s| == 0 then Ok([])
    else TokenizeFrom(cfg, s, if cfg.trimTrailingSpace then SkipWhiteSpaceFrom(s, 0) else 0, lenient, [])
  }

  // ---------------------------------------------------------------------------
  // The tokenizer as the program runs it

  /** The cursor the parsing methods share; `index` is the last consumed position. */
  class TokenizerState {
    const buffer: string
    const lenient: bool
    var index: int

    ghost predicate Valid() reads this { -1 <= index < |buffer| }

    constructor (buffer: string, lenient: bool)
      ensures Valid() && this.buffer == buffer && this.lenient == lenient && index == -1
    {
      this.buffer := buffer;
      this.lenient := lenient;
      index := -1;
    }

    function HasMore(): bool reads this { index + 1 < |buffer| }

    function GetIndex(): int reads this { index }

    function IsLenient(): bool { lenient }

    method Peek() returns (r: Result<char>)
      requires Valid()
      ensures HasMore() ==> r == Ok(buffer[index + 1])
      ensures !HasMore() ==> r == Err(BufferOverrun)
    {
      if HasMore() { r := Ok(buffer[index + 1]); } else { r := Err(BufferOverrun); }
    }

    method Next() returns (r: Result<char>)
      requires Valid()
      modifies this
      ensures Valid()
      ensures old(HasMore()) ==> r == Ok(buffer[old(index) + 1]) && index == old(index) + 1
      ensures !old(HasMore()) ==> r == Err(BufferOverrun) && index == old(index)
    {
      if HasMore() {
        index := index + 1;
        r := Ok(buffer[index]);
      } else {
        r := Err(BufferOverrun);
      }
    }
  }

  class StringBuilder {
    var contents: string

    constructor ()
      ensures contents == ""
    {
      contents := "";
    }

    method AppendCodePoint(c: char)
      modifies this
      ensures contents == old(contents) + [c]
    {
      contents := contents + [c];
    }
  }

  class QuotedStringTokenizer {
    const handleQuotedStrings: bool
    const forceLenient: bool
    const trimTrailingSpace: bool
    const id: string
    const name: string

    constructor (handleQuotedStrings: bool, forceLenient: bool, trimTrailingSpace: bool, id: string, name: string)
      ensures Config() == TokenizerConfig(handleQuotedStrings, forceLenient, trimTrailingSpace)
      ensures this.id == id && this.name == name
    {
      this.handleQuotedStrings := handleQuotedStrings;
      this.forceLenient := forceLenient;
      this.trimTrailingSpace := trimTrailingSpace;
      this.id := id;
      this.name := name;
    }

    function Config(): TokenizerConfig {
      TokenizerConfig(handleQuotedStrings, forceLenient, trimTrailingSpace)
    }

    function GetId(): string { id }

    /** `getName()` answers null, whatever name the tokenizer was given. */
    function GetName(): (r: Option<string>)
      ensures r == None
    {
      None
    }

    method Tokenize(arguments: string, lenient: bool) returns (r: Result<seq<SingleArg>>)
      ensures r == Tokenization(Config(), arguments, lenient)
    {
      if |arguments| == 0 {
        return Ok([]);
      }
      var state := new TokenizerState(arguments, lenient);
      var returnedArgs: seq<SingleArg> := [];
      if trimTrailingSpace {
        SkipWhiteSpace(state);
      }
      while state.HasMore()
        invariant state.Valid() && state.buffer == arguments && state.lenient == lenient
        invariant Tokenization(Config(), arguments, lenient)
          == TokenizeFrom(Config(), arguments, state.index + 1, lenient, returnedArgs)
        decreases |arguments| - state.index
      {
        var arg := NextToken(state);
        if arg.Err? {
          return Err(arg.failure);
        }
        returnedArgs := returnedArgs + [arg.value];
      }
      return Ok(returnedArgs);
    }

    /** The body of the loop in `tokenize`. */
    method NextToken(state: TokenizerState) returns (r: Result<SingleArg>)
      requires state.Valid() && state.HasMore()
      modifies state
      ensures state.Valid()
      ensures match NextTokenFrom(Config(), state.buffer, old(state.index) + 1, state.lenient)
        case Ok((arg, next)) => r == Ok(arg) && state.index + 1 == next
        case Err(f) => r == Err(f)
    {
      if !trimTrailingSpace {
        SkipWhiteSpace(state);
      }
      var startIdx := state.GetIndex() + 1;
      var arg := NextArg(state);
      if arg.Err? {
        return Err(arg.failure);
      }
      r := Ok(SingleArg(arg.value, startIdx, state.GetIndex()));
      if trimTrailingSpace {
        SkipWhiteSpace(state);
      }
    }

    method SkipWhiteSpace(state: TokenizerState)
      requires state.Valid()
      modifies state
      ensures state.Valid()
      ensures state.index + 1 == SkipWhiteSpaceFrom(state.buffer, old(state.index) + 1)
    {
      if !state.HasMore() {
        return;
      }
      while state.HasMore() && IsWhitespace(state.buffer[state.index + 1])
        invariant state.Valid() && old(state.index) <= state.index
        invariant SkipWhiteSpaceFrom(state.buffer, old(state.index) + 1) == SkipWhiteSpaceFrom(state.buffer, state.index + 1)
        decreases |state.buffer| - state.index
      {
        var _ := state.Next();
      }
    }

    method NextArg(state: TokenizerState) returns (r: Result<string>)
      requires state.Valid()
      modifies state
      ensures state.Valid()
      ensures var spec := NextArgFrom(Config(), state.buffer, old(state.index) + 1, state.lenient);
        match spec
        case Ok(scan) => r == Ok(scan.text) && state.index + 1 == scan.next
        case Err(f) => r == Err(f)
    {
      var argBuilder := new StringBuilder();
      if state.HasMore() {
        var peeked := state.Peek();
        var codePoint := peeked.value;
        if handleQuotedStrings && (codePoint == '"' || codePoint == '\'') {
          var o := ParseQuotedString(state, codePoint, argBuilder);
          if o.Fail? {
            return Err(o.failure);
          }
        } else {
          var o := ParseUnquotedString(state, argBuilder);
          if o.Fail? {
            return Err(o.failure);
          }
        }
      }
      return Ok(argBuilder.contents);
    }

    method ParseQuotedString(state: TokenizerState, startQuotation: char, builder: StringBuilder) returns (o: Outcome)
      requires state.Valid()
      modifies state, builder
      ensures state.Valid()
      ensures var spec := ParseQuotedFrom(state.buffer, old(state.index) + 1, startQuotation, old(builder.contents), state.lenient || forceLenient);
        match spec
        case Ok(scan) => o == Pass && builder.contents == scan.text && state.index + 1 == scan.next
        case Err(f) => o == Fail(f)
    {
      var first := state.Next();
      if first.Err? {
        return Fail(first.failure);
      }
      if first.value != startQuotation {
        return Fail(QuoteMismatch(first.value, startQuotation));
      }
      ghost var s := state.buffer;
      ghost var leniency := state.lenient || forceLenient;
      ghost var spec := QuotedFrom(s, state.index + 1, startQuotation, builder.contents, leniency);
      while true
        invariant state.Valid() && state.buffer == s
        invariant QuotedFrom(s, state.index + 1, startQuotation, builder.contents, leniency) == spec
        decreases |s| - state.index
      {
        if !state.HasMore() {
          if state.IsLenient() || forceLenient {
            return Pass;
          }
          return Fail(Unterminated);
        }
        var peeked := state.Peek();
        var nextCodePoint := peeked.value;
        if nextCodePoint == startQuotation {
          var _ := state.Next();
          return Pass;
        } else if nextCodePoint == '\\' {
          var e := ParseEscape(state, builder);
          if e.Fail? {
            return e;
          }
        } else {
          var c := state.Next();
          builder.AppendCodePoint(c.value);
        }
      }
    }

    method ParseUnquotedString(state: TokenizerState, builder: StringBuilder) returns (o: Outcome)
      requires state.Valid()
      modifies state, builder
      ensures state.Valid()
      ensures var spec := UnquotedFrom(state.buffer, old(state.index) + 1, old(builder.contents));
        match spec
        case Ok(scan) => o == Pass && builder.contents == scan.text && state.index + 1 == scan.next
        case Err(f) => o == Fail(f)
    {
      ghost var s := state.buffer;
      ghost var spec := UnquotedFrom(s, state.index + 1, builder.contents);
      while state.HasMore()
        invariant state.Valid() && state.buffer == s
        invariant UnquotedFrom(s, state.index + 1, builder.contents) == spec
        decreases |s| - state.index
      {
        var peeked := state.Peek();
        var nextCodePoint := peeked.value;
        if IsWhitespace(nextCodePoint) {
          return Pass;
        } else if nextCodePoint == '\\' {
          var e := ParseEscape(state, builder);
          if e.Fail? {
            return e;
          }
        } else {
          var c := state.Next();
          builder.AppendCodePoint(c.value);
        }
      }
      return Pass;
    }

    method ParseEscape(state: TokenizerState, builder: StringBuilder) returns (o: Outcome)
      requires state.Valid()
      modifies state, builder
      ensures state.Valid()
      ensures var p := old(state.index) + 1;
        if p + 1 < |state.buffer|
        then o == Pass && builder.contents == old(builder.contents) + [state.buffer[p + 1]] && state.index == p + 1
        else o == Fail(BufferOverrun)
    {
      var backslash := state.Next();
      if backslash.Err? {
        return Fail(backslash.failure);
      }
      var c := state.Next();
      if c.Err? {
        return Fail(c.failure);
      }
      builder.AppendCodePoint(c.value);
      return Pass;
    }
  }

  // ---------------------------------------------------------------------------
  // Properties of the tokenizer

  /** The separation between argument `k - 1` and argument `k` starts here. */
  function GapStart(args: seq<SingleArg>, k: nat): int
    requires k <= |args|
  {
    if k == 0 then 0 else args[k - 1].endIndex + 1
  }

  /** ... and ends here; the separation after the last argument ends at `p`. */
  function GapEnd(args: seq<SingleArg>, k: nat, p: nat): int
    requires k <= |args|
  {
    if k == |args| then p else args[k].startIndex
  }

  /** Each argument lies in `[0, n)` and starts after the previous one ends. */
  predicate InOrder(args: seq<SingleArg>, n: int) {
    forall k :: 0 <= k < |args| ==> 0 <= GapStart(args, k) <= args[k].startIndex <= args[k].endIndex + 1 <= n
  }

  /**
   * `args` are the whitespace-separated words of `s[..p]`: each is the slice of
   * `s` between its positions, holds no whitespace, and only whitespace lies
   * between two of them, before the first and after the last.
   */
  predicate SplitAtWhitespace(s: string, args: seq<SingleArg>, p: nat)
    requires p <= |s|
  {
    InOrder(args, p) && WordsAreSlices(s, args, p) && GapsAreWhitespace(s, args, p)
  }

  /** Each argument is the slice of `s` between its positions and holds no whitespace. */
  predicate WordsAreSlices(s: string, args: seq<SingleArg>, p: nat)
    requires p <= |s| && InOrder(args, p)
  {
    (forall k :: 0 <= k < |args| ==> args[k].arg == s[args[k].startIndex..args[k].endIndex + 1])
    && (forall k :: 0 <= k < |args| ==>
          forall j :: args[k].startIndex <= j <= args[k].endIndex ==> !IsWhitespace(s[j]))
  }

  /** Only whitespace lies before, between and after the arguments, up to `p`. */
  predicate GapsAreWhitespace(s: string, args: seq<SingleArg>, p: nat)
    requires p <= |s| && InOrder(args, p)
  {
    forall k :: 0 <= k <= |args| ==> AllWhitespace(s, GapStart(args, k), GapEnd(args, k, p))
  }

  predicate AllWhitespace(s: string, from: int, to: int)
    requires 0 <= from && to <= |s|
  {
    forall j :: from <= j < to ==> IsWhitespace(s[j])
  }

  /** Characters that neither end, escape nor quote anything. */
  predicate PlainRun(s: string, p: nat, e: nat)
    requires p <= e <= |s|
  {
    forall k :: p <= k < e ==> !IsWhitespace(s[k]) && s[k] != '\\'
  }

  lemma {:induction false} UnquotedRun(s: string, p: nat, e: nat, acc: string)
    requires p <= e <= |s| && PlainRun(s, p, e)
    ensures UnquotedFrom(s, p, acc) == UnquotedFrom(s, e, acc + s[p..e])
    decreases e - p
  {
    if p < e {
      UnquotedRun(s, p + 1, e, acc + [s[p]]);
      assert acc + [s[p]] + s[p + 1..e] == acc + s[p..e];
    } else {
      assert acc + s[p..e] == acc;
    }
  }

  /** The first position at or after `p` holding whitespace, or the end. */
  function WordEnd(s: string, p: nat): (e: nat)
    requires p <= |s|
    ensures p <= e <= |s| && (e < |s| ==> IsWhitespace(s[e]))
    ensures forall k :: p <= k < e ==> !IsWhitespace(s[k])
    decreases |s| - p
  {
    if p == |s| || IsWhitespace(s[p]) then p else WordEnd(s, p + 1)
  }

  /** Without backslashes, an unquoted argument is the slice of the input up to the next whitespace. */
  lemma {:induction false} UnquotedWord(s: string, p: nat)
    requires p <= |s|
    requires forall k :: p <= k < |s| ==> s[k] != '\\'
    ensures UnquotedFrom(s, p, "") == Ok(Scan(s[p..WordEnd(s, p)], WordEnd(s, p)))
  {
    var e := WordEnd(s, p);
    UnquotedRun(s, p, e, "");
    assert "" + s[p..e] == s[p..e];
  }

  /** Characters inside a string quoted by `q` that neither close nor escape anything. */
  lemma {:induction false} QuotedRun(s: string, p: nat, e: nat, q: char, acc: string, lenient: bool)
    requires p <= e <= |s|
    requires forall k :: p <= k < e ==> s[k] != q && s[k] != '\\'
    ensures QuotedFrom(s, p, q, acc, lenient) == QuotedFrom(s, e, q, acc + s[p..e], lenient)
    decreases e - p
  {
    if p < e {
      QuotedRun(s, p + 1, e, q, acc + [s[p]], lenient);
      assert acc + [s[p]] + s[p + 1..e] == acc + s[p..e];
    } else {
      assert acc + s[p..e] == acc;
    }
  }

  /** Appending a word that follows whitespace keeps the split. */
  lemma AppendWord(s: string, acc: seq<SingleArg>, p: nat, arg: SingleArg, p2: nat)
    requires p <= |s| && SplitAtWhitespace(s, acc, p)
    requires |acc| > 0 ==> acc[|acc| - 1].endIndex + 1 <= p
    requires p <= arg.startIndex <= arg.endIndex + 1 <= p2 <= |s|
    requires forall j :: p <= j < arg.startIndex ==> IsWhitespace(s[j])
    requires arg.arg == s[arg.startIndex..arg.endIndex + 1]
    requires forall j :: arg.startIndex <= j <= arg.endIndex ==> !IsWhitespace(s[j])
    requires forall j :: arg.endIndex + 1 <= j < p2 ==> IsWhitespace(s[j])
    ensures SplitAtWhitespace(s, acc + [arg], p2)
  {
    AppendInOrder(acc, p, arg, p2);
    AppendSlice(s, acc, p, arg, p2);
    AppendGap(s, acc, p, arg, p2);
  }

  lemma AppendInOrder(acc: seq<SingleArg>, p: nat, arg: SingleArg, p2: nat)
    requires InOrder(acc, p)
    requires |acc| > 0 ==> acc[|acc| - 1].endIndex + 1 <= p
    requires p <= arg.startIndex <= arg.endIndex + 1 <= p2
    ensures InOrder(acc + [arg], p2)
  {
    var acc' := acc + [arg];
    forall k | 0 <= k < |acc'|
      ensures 0 <= GapStart(acc', k) <= acc'[k].startIndex <= acc'[k].endIndex + 1 <= p2
    {
      if k < |acc| {
        assert acc'[k] == acc[k] && GapStart(acc', k) == GapStart(acc, k);
      }
    }
  }

  lemma AppendSlice(s: string, acc: seq<SingleArg>, p: nat, arg: SingleArg, p2: nat)
    requires p <= p2 <= |s| && InOrder(acc, p) && InOrder(acc + [arg], p2) && WordsAreSlices(s, acc, p)
    requires p <= arg.startIndex <= arg.endIndex + 1 <= p2
    requires arg.arg == s[arg.startIndex..arg.endIndex + 1]
    requires forall j :: arg.startIndex <= j <= arg.endIndex ==> !IsWhitespace(s[j])
    ensures WordsAreSlices(s, acc + [arg], p2)
  {
    var acc' := acc + [arg];
    forall k | 0 <= k < |acc'|
      ensures acc'[k].arg == s[acc'[k].startIndex..acc'[k].endIndex + 1]
      ensures forall j :: acc'[k].startIndex <= j <= acc'[k].endIndex ==> !IsWhitespace(s[j])
    {
      if k < |acc| {
        assert acc'[k] == acc[k];
      }
    }
  }

  lemma AppendGap(s: string, acc: seq<SingleArg>, p: nat, arg: SingleArg, p2: nat)
    requires p <= p2 <= |s| && InOrder(acc, p) && InOrder(acc + [arg], p2) && GapsAreWhitespace(s, acc, p)
    requires p <= arg.startIndex <= arg.endIndex + 1 <= p2
    requires forall j :: p <= j < arg.startIndex ==> IsWhitespace(s[j])
    requires forall j :: arg.endIndex + 1 <= j < p2 ==> IsWhitespace(s[j])
    ensures GapsAreWhitespace(s, acc + [arg], p2)
  {
    var acc' := acc + [arg];
    var n := |acc|;
    forall k | 0 <= k <= n + 1
      ensures AllWhitespace(s, GapStart(acc', k), GapEnd(acc', k, p2))
    {
      if k == n + 1 {
        assert GapStart(acc', k) == arg.endIndex + 1;
      } else if k == n {
        assert GapStart(acc', k) == GapStart(acc, n) && GapEnd(acc', k, p2) == arg.startIndex;
        assert AllWhitespace(s, GapStart(acc, n), p);
      } else {
        assert k > 0 ==> acc'[k - 1] == acc[k - 1];
        assert acc'[k] == acc[k];
        assert GapStart(acc', k) == GapStart(acc, k) && GapEnd(acc', k, p2) == GapEnd(acc, k, p);
      }
    }
  }

  /** One turn of the loop over an input without backslashes (or quotes, when they are handled). */
  lemma PlainNextToken(cfg: TokenizerConfig, s: string, p: nat, lenient: bool) returns (arg: SingleArg, p2: nat)
    requires p < |s|
    requires forall k :: 0 <= k < |s| ==> s[k] != '\\' && (cfg.handleQuotedStrings ==> !IsQuote(s[k]))
    requires cfg.trimTrailingSpace ==> !IsWhitespace(s[p])
    ensures NextTokenFrom(cfg, s, p, lenient) == Ok((arg, p2))
    ensures p <= arg.startIndex <= arg.endIndex + 1 <= p2 <= |s|
    ensures forall j :: p <= j < arg.startIndex ==> IsWhitespace(s[j])
    ensures arg.arg == s[arg.startIndex..arg.endIndex + 1]
    ensures forall j :: arg.startIndex <= j <= arg.endIndex ==> !IsWhitespace(s[j])
    ensures forall j :: arg.endIndex + 1 <= j < p2 ==> IsWhitespace(s[j])
    ensures cfg.trimTrailingSpace && p2 < |s| ==> !IsWhitespace(s[p2])
    ensures !cfg.trimTrailingSpace ==> arg.endIndex + 1 == p2
    ensures arg.arg == "" ==> arg.startIndex == p2 == |s| && IsWhitespace(s[|s| - 1]) && !cfg.trimTrailingSpace
  {
    var p1 := if cfg.trimTrailingSpace then p else SkipWhiteSpaceFrom(s, p);
    if p1 == |s| {
      assert NextArgFrom(cfg, s, p1, lenient) == Ok(Scan("", p1));
      arg, p2 := SingleArg("", p1, p1 - 1), p1;
    } else {
      var e := WordEnd(s, p1);
      UnquotedWord(s, p1);
      assert NextArgFrom(cfg, s, p1, lenient) == Ok(Scan(s[p1..e], e));
      arg := SingleArg(s[p1..e], p1, e - 1);
      p2 := if cfg.trimTrailingSpace then SkipWhiteSpaceFrom(s, e) else e;
    }
  }

  /** What holds of the arguments `acc` read from a plain input before position `p`. */
  predicate PlainSplitSoFar(cfg: TokenizerConfig, s: string, acc: seq<SingleArg>, p: nat)
    requires p <= |s|
  {
    SplitAtWhitespace(s, acc, p)
    && (forall k :: 0 <= k < |acc| ==> acc[k].arg != "" || (k == |acc| - 1 && p == |s| && |s| > 0 && IsWhitespace(s[|s| - 1])))
    && (cfg.trimTrailingSpace && p < |s| ==> !IsWhitespace(s[p]))
    && (!cfg.trimTrailingSpace && p > 0 ==> |acc| > 0)
    && (!cfg.trimTrailingSpace && |acc| > 0 ==> acc[|acc| - 1].endIndex + 1 == p)
    && (|acc| > 0 ==> acc[|acc| - 1].endIndex + 1 <= p)
    && (cfg.trimTrailingSpace ==> forall k :: 0 <= k < |acc| ==> acc[k].arg != "")
  }

  /** What the tokenizer promises of the arguments of a plain input. */
  predicate PlainSplit(cfg: TokenizerConfig, s: string, args: seq<SingleArg>) {
    SplitAtWhitespace(s, args, |s|)
    && (forall k :: 0 <= k < |args| ==> args[k].arg != "" || (k == |args| - 1 && |s| > 0 && IsWhitespace(s[|s| - 1])))
    && (!cfg.trimTrailingSpace && |s| > 0 ==> |args| > 0 && args[|args| - 1].endIndex == |s| - 1)
    && (cfg.trimTrailingSpace ==> forall k :: 0 <= k < |args| ==> args[k].arg != "")
  }

  lemma PlainSplitStep(cfg: TokenizerConfig, s: string, acc: seq<SingleArg>, p: nat, lenient: bool) returns (acc': seq<SingleArg>, p2: nat)
    requires p < |s| && PlainSplitSoFar(cfg, s, acc, p)
    requires forall k :: 0 <= k < |s| ==> s[k] != '\\' && (cfg.handleQuotedStrings ==> !IsQuote(s[k]))
    ensures p < p2 <= |s| && PlainSplitSoFar(cfg, s, acc', p2)
    ensures TokenizeFrom(cfg, s, p, lenient, acc) == TokenizeFrom(cfg, s, p2, lenient, acc')
  {
    var arg;
    arg, p2 := PlainNextToken(cfg, s, p, lenient);
    acc' := acc + [arg];
    AppendWord(s, acc, p, arg, p2);
    assert forall k :: 0 <= k < |acc| ==> acc'[k] == acc[k];
  }

  lemma {:induction false} TokenizeFromSplits(cfg: TokenizerConfig, s: string, p: nat, lenient: bool, acc: seq<SingleArg>)
    requires p <= |s| && PlainSplitSoFar(cfg, s, acc, p)
    requires forall k :: 0 <= k < |s| ==> s[k] != '\\' && (cfg.handleQuotedStrings ==> !IsQuote(s[k]))
    ensures TokenizeFrom(cfg, s, p, lenient, acc).Ok?
    ensures PlainSplit(cfg, s, TokenizeFrom(cfg, s, p, lenient, acc).value)
    decreases |s| - p
  {
    if p < |s| {
      var acc', p2 := PlainSplitStep(cfg, s, acc, p, lenient);
      TokenizeFromSplits(cfg, s, p2, lenient, acc');
    } else {
      PlainSplitDone(cfg, s, acc);
    }
  }

  lemma PlainSplitDone(cfg: TokenizerConfig, s: string, acc: seq<SingleArg>)
    requires PlainSplitSoFar(cfg, s, acc, |s|)
    ensures PlainSplit(cfg, s, acc)
  {
  }

  lemma NothingReadYet(s: string, p: nat)
    requires p <= |s| && forall j :: 0 <= j < p ==> IsWhitespace(s[j])
    ensures SplitAtWhitespace(s, [], p)
  {
    assert GapStart([], 0) == 0 && GapEnd([], 0, p) == p;
    assert AllWhitespace(s, 0, p);
  }

  /**
   * An input without backslashes, and without quotes when quoted strings are
   * handled, is split at whitespace; an argument is empty only when it is the
   * last, whitespace ends the input and trailing space is not trimmed.
   */
  lemma PlainInputSplitsAtWhitespace(cfg: TokenizerConfig, s: string, lenient: bool)
    requires forall k :: 0 <= k < |s| ==> s[k] != '\\' && (cfg.handleQuotedStrings ==> !IsQuote(s[k]))
    ensures Tokenization(cfg, s, lenient).Ok?
    ensures var args := Tokenization(cfg, s, lenient).value;
      SplitAtWhitespace(s, args, |s|)
      && (forall k :: 0 <= k < |args| ==> args[k].arg != "" || (k == |args| - 1 && |s| > 0 && IsWhitespace(s[|s| - 1])))
      && (!cfg.trimTrailingSpace && |s| > 0 ==> |args| > 0 && args[|args| - 1].endIndex == |s| - 1)
      && (cfg.trimTrailingSpace ==> forall k :: 0 <= k < |args| ==> args[k].arg != "")
  {
    if |s| > 0 {
      var p := if cfg.trimTrailingSpace then SkipWhiteSpaceFrom(s, 0) else 0;
      NothingReadYet(s, p);
      assert PlainSplitSoFar(cfg, s, [], p);
      TokenizeFromSplits(cfg, s, p, lenient, []);
    } else {
      NothingReadYet(s, 0);
    }
  }

  /** Every argument lies inside the input and starts after the previous one ends. */
  lemma ArgumentsInOrder(cfg: TokenizerConfig, s: string, lenient: bool)
    ensures Tokenization(cfg, s, lenient).Ok? ==> InOrder(Tokenization(cfg, s, lenient).value, |s|)
  {
    if |s| > 0 {
      TokenizeFromInOrder(cfg, s, if cfg.trimTrailingSpace then SkipWhiteSpaceFrom(s, 0) else 0, lenient, []);
    }
  }

  lemma {:induction false} TokenizeFromInOrder(cfg: TokenizerConfig, s: string, p: nat, lenient: bool, acc: seq<SingleArg>)
    requires p <= |s| && InOrder(acc, p)
    ensures TokenizeFrom(cfg, s, p, lenient, acc).Ok? ==> InOrder(TokenizeFrom(cfg, s, p, lenient, acc).value, |s|)
    decreases |s| - p
  {
    if p < |s| {
      match NextTokenFrom(cfg, s, p, lenient)
      case Err(_) =>
      case Ok((arg, p2)) =>
        var acc' := acc + [arg];
        assert forall k :: 0 <= k < |acc| ==> acc'[k] == acc[k];
        assert forall k :: 0 <= k <= |acc| ==> GapStart(acc', k) == GapStart(acc, k);
        assert InOrder(acc', p2);
        TokenizeFromInOrder(cfg, s, p2, lenient, acc');
    }
  }

  /** An input the loop reads in one turn yields one argument. */
  lemma OneTurn(cfg: TokenizerConfig, s: string, lenient: bool, arg: SingleArg)
    requires |s| > 0 && (cfg.trimTrailingSpace ==> !IsWhitespace(s[0]))
    requires NextTokenFrom(cfg, s, 0, lenient) == Ok((arg, |s|))
    ensures Tokenization(cfg, s, lenient) == Ok([arg])
  {
    var start := if cfg.trimTrailingSpace then SkipWhiteSpaceFrom(s, 0) else 0;
    assert start == 0;
    assert Tokenization(cfg, s, lenient) == TokenizeFrom(cfg, s, 0, lenient, []);
    assert [] + [arg] == [arg];
    assert TokenizeFrom(cfg, s, |s|, lenient, [arg]) == Ok([arg]);
    assert TokenizeFrom(cfg, s, 0, lenient, []) == TokenizeFrom(cfg, s, |s|, lenient, [] + [arg]);
  }

  lemma EmptyInputHasNoArguments(cfg: TokenizerConfig, lenient: bool)
    ensures Tokenization(cfg, "", lenient) == Ok([])
  {
  }

  /** Input made only of whitespace: one empty argument at the end, or none when trailing space is trimmed. */
  lemma WhitespaceOnlyInput(cfg: TokenizerConfig, s: string, lenient: bool)
    requires |s| > 0 && forall k :: 0 <= k < |s| ==> IsWhitespace(s[k])
    ensures Tokenization(cfg, s, lenient)
      == if cfg.trimTrailingSpace then Ok([]) else Ok([SingleArg("", |s|, |s| - 1)])
  {
    assert SkipWhiteSpaceFrom(s, 0) == |s|;
    if !cfg.trimTrailingSpace {
      assert Tokenization(cfg, s, lenient) == TokenizeFrom(cfg, s, 0, lenient, []);
      assert [] + [SingleArg("", |s|, |s| - 1)] == [SingleArg("", |s|, |s| - 1)];
      assert NextTokenFrom(cfg, s, 0, lenient) == Ok((SingleArg("", |s|, |s| - 1), |s|));
      assert TokenizeFrom(cfg, s, |s|, lenient, [SingleArg("", |s|, |s| - 1)]) == Ok([SingleArg("", |s|, |s| - 1)]);
      assert TokenizeFrom(cfg, s, 0, lenient, []) == TokenizeFrom(cfg, s, |s|, lenient, [] + [SingleArg("", |s|, |s| - 1)]);
    }
  }

  /** A string between two matching quotes is one argument, whitespace and the other quote included. */
  lemma QuotedArgument(cfg: TokenizerConfig, s: string, lenient: bool, q: char, body: string)
    requires cfg.handleQuotedStrings && IsQuote(q)
    requires forall k :: 0 <= k < |body| ==> body[k] != q && body[k] != '\\'
    requires s == [q] + body + [q]
    ensures Tokenization(cfg, s, lenient) == Ok([SingleArg(body, 0, |s| - 1)])
  {
    var leniency := lenient || cfg.forceLenient;
    QuotedRun(s, 1, |body| + 1, q, "", leniency);
    assert "" + s[1..|body| + 1] == body;
    assert QuotedFrom(s, 1, q, "", leniency) == Ok(Scan(body, |s|));
    assert SkipWhiteSpaceFrom(s, 0) == 0;
    assert NextArgFrom(cfg, s, 0, lenient) == Ok(Scan(body, |s|));
    assert SkipWhiteSpaceFrom(s, |s|) == |s|;
    OneTurn(cfg, s, lenient, SingleArg(body, 0, |s| - 1));
  }

  /** A quote that is never closed: the rest of the input is the argument when lenient, an error otherwise. */
  lemma UnterminatedQuotedArgument(cfg: TokenizerConfig, s: string, lenient: bool, q: char, body: string)
    requires cfg.handleQuotedStrings && IsQuote(q)
    requires forall k :: 0 <= k < |body| ==> body[k] != q && body[k] != '\\'
    requires s == [q] + body
    ensures Tokenization(cfg, s, lenient)
      == if lenient || cfg.forceLenient then Ok([SingleArg(body, 0, |s| - 1)]) else Err(Unterminated)
  {
    var leniency := lenient || cfg.forceLenient;
    QuotedRun(s, 1, |s|, q, "", leniency);
    assert "" + s[1..|s|] == body;
    assert SkipWhiteSpaceFrom(s, 0) == 0;
    assert SkipWhiteSpaceFrom(s, |s|) == |s|;
    if leniency {
      assert NextArgFrom(cfg, s, 0, lenient) == Ok(Scan(body, |s|));
      OneTurn(cfg, s, lenient, SingleArg(body, 0, |s| - 1));
    } else {
      assert NextTokenFrom(cfg, s, 0, lenient) == Err(Unterminated);
    }
  }

  /** A quoted argument at `p` reads the body between the quotes and ends just after the closing quote. */
  lemma QuotedArgumentAt(cfg: TokenizerConfig, s: string, p: nat, lenient: bool, q: char, body: string)
    requires cfg.handleQuotedStrings && IsQuote(q)
    requires forall k :: 0 <= k < |body| ==> body[k] != q && body[k] != '\\'
    requires p + |body| + 2 <= |s| && s[p] == q && s[p + 1..p + |body| + 1] == body && s[p + |body| + 1] == q
    ensures NextArgFrom(cfg, s, p, lenient) == Ok(Scan(body, p + |body| + 2))
  {
    var e := p + |body| + 1;
    assert forall k :: p + 1 <= k < e ==> s[k] != q && s[k] != '\\' by {
      forall k | p + 1 <= k < e
        ensures s[k] != q && s[k] != '\\'
      {
        assert s[k] == s[p + 1..e][k - p - 1];
      }
    }
    var leniency := lenient || cfg.forceLenient;
    QuotedRun(s, p + 1, e, q, "", leniency);
    assert "" + s[p + 1..e] == body;
    assert QuotedFrom(s, e, q, body, leniency) == Ok(Scan(body, e + 1));
    assert ParseQuotedFrom(s, p, q, "", leniency) == Ok(Scan(body, e + 1));
  }

  /**
   * A quoted argument in the middle of the input: one turn at `p` gives the
   * body, spanning the quotes, and the tokenizer goes on after the closing
   * quote (and the whitespace after it, when trailing space is trimmed).
   */
  lemma QuotedArgumentThenRest(cfg: TokenizerConfig, s: string, p: nat, lenient: bool, q: char, body: string, acc: seq<SingleArg>)
    requires cfg.handleQuotedStrings && IsQuote(q)
    requires forall k :: 0 <= k < |body| ==> body[k] != q && body[k] != '\\'
    requires p + |body| + 2 <= |s| && s[p] == q && s[p + 1..p + |body| + 1] == body && s[p + |body| + 1] == q
    ensures var next := if cfg.trimTrailingSpace then SkipWhiteSpaceFrom(s, p + |body| + 2) else p + |body| + 2;
      NextTokenFrom(cfg, s, p, lenient) == Ok((SingleArg(body, p, p + |body| + 1), next))
      && TokenizeFrom(cfg, s, p, lenient, acc) == TokenizeFrom(cfg, s, next, lenient, acc + [SingleArg(body, p, p + |body| + 1)])
  {
    QuotedArgumentAt(cfg, s, p, lenient, q, body);
    assert SkipWhiteSpaceFrom(s, p) == p;
  }

  /** A stretch of the input equal to a word without the quote or a backslash is copied into the body. */
  lemma QuotedWord(s: string, a: nat, q: char, w: string, acc: string, lenient: bool)
    requires forall k :: 0 <= k < |w| ==> w[k] != q && w[k] != '\\'
    requires a + |w| <= |s| && s[a..a + |w|] == w
    ensures QuotedFrom(s, a, q, acc, lenient) == QuotedFrom(s, a + |w|, q, acc + w, lenient)
  {
    assert forall k :: a <= k < a + |w| ==> s[k] != q && s[k] != '\\' by {
      forall k | a <= k < a + |w|
        ensures s[k] != q && s[k] != '\\'
      {
        assert s[k] == s[a..a + |w|][k - a];
      }
    }
    QuotedRun(s, a, a + |w|, q, acc, lenient);
  }

  /** An argument that starts with a quote character is a quoted string's body, read with either leniency. */
  lemma QuotedStart(cfg: TokenizerConfig, s: string, p: nat, lenient: bool)
    requires cfg.handleQuotedStrings && p < |s| && IsQuote(s[p])
    ensures NextArgFrom(cfg, s, p, lenient) == QuotedFrom(s, p + 1, s[p], "", lenient || cfg.forceLenient)
  {
  }

  /** The closing quote ends the body, which is what was read so far. */
  lemma QuotedClose(s: string, e: nat, q: char, acc: string, lenient: bool)
    requires e < |s| && s[e] == q
    ensures QuotedFrom(s, e, q, acc, lenient) == Ok(Scan(acc, e + 1))
  {
  }

  /** A backslash inside quotes appends the character after it, whatever it is. */
  lemma QuotedBackslash(s: string, n: nat, q: char, acc: string, lenient: bool)
    requires n + 1 < |s| && s[n] == '\\' && q != '\\'
    ensures QuotedFrom(s, n, q, acc, lenient) == QuotedFrom(s, n + 2, q, acc + [s[n + 1]], lenient)
  {
  }

  /**
   * Inside quotes a backslash makes the next character part of the body,
   * even the quote character that would close it: `q w1 \\ c w2 q` at `p`
   * reads `w1 c w2`.
   */
  lemma QuotedEscape(cfg: TokenizerConfig, s: string, p: nat, lenient: bool, q: char, w1: string, c: char, w2: string)
    requires cfg.handleQuotedStrings && IsQuote(q)
    requires forall k :: 0 <= k < |w1| ==> w1[k] != q && w1[k] != '\\'
    requires forall k :: 0 <= k < |w2| ==> w2[k] != q && w2[k] != '\\'
    requires var n := p + 1 + |w1|; var e := n + 2 + |w2|;
      e < |s| && s[p] == q && s[p + 1..n] == w1 && s[n] == '\\' && s[n + 1] == c && s[n + 2..e] == w2 && s[e] == q
    ensures NextArgFrom(cfg, s, p, lenient) == Ok(Scan(w1 + [c] + w2, p + |w1| + |w2| + 4))
  {
    var leniency := lenient || cfg.forceLenient;
    var n := p + 1 + |w1|;
    var e := n + 2 + |w2|;
    QuotedWord(s, p + 1, q, w1, "", leniency);
    assert "" + w1 == w1;
    QuotedBackslash(s, n, q, w1, leniency);
    QuotedWord(s, n + 2, q, w2, w1 + [c], leniency);
    QuotedClose(s, e, q, w1 + [c] + w2, leniency);
    QuotedStart(cfg, s, p, lenient);
  }

  /** Characters of an ordinary word: no whitespace, no backslash, and no quote when quotes are handled. */
  predicate WordChars(cfg: TokenizerConfig, w: string) {
    forall k :: 0 <= k < |w| ==> !IsWhitespace(w[k]) && w[k] != '\\' && (cfg.handleQuotedStrings ==> !IsQuote(w[k]))
  }

  /** A backslash makes the character after it part of the argument, even whitespace, a quote or a backslash. */
  lemma EscapedCharacter(cfg: TokenizerConfig, s: string, lenient: bool, w1: string, c: char, w2: string)
    requires WordChars(cfg, w1) && WordChars(cfg, w2)
    requires s == w1 + ['\\', c] + w2
    ensures Tokenization(cfg, s, lenient) == Ok([SingleArg(w1 + [c] + w2, 0, |s| - 1)])
  {
    var n := |w1|;
    assert s[n] == '\\' && s[n + 1] == c;
    UnquotedRun(s, 0, n, "");
    assert "" + s[0..n] == w1;
    assert UnquotedFrom(s, n, w1) == UnquotedFrom(s, n + 2, w1 + [c]);
    UnquotedRun(s, n + 2, |s|, w1 + [c]);
    assert s[n + 2..|s|] == w2;
    assert UnquotedFrom(s, 0, "") == Ok(Scan(w1 + [c] + w2, |s|));
    assert SkipWhiteSpaceFrom(s, 0) == 0;
    assert SkipWhiteSpaceFrom(s, |s|) == |s|;
    assert NextArgFrom(cfg, s, 0, lenient) == Ok(Scan(w1 + [c] + w2, |s|));
    OneTurn(cfg, s, lenient, SingleArg(w1 + [c] + w2, 0, |s| - 1));
  }

  /** A backslash that ends the input has nothing to escape. */
  lemma DanglingEscape(cfg: TokenizerConfig, s: string, lenient: bool, w: string)
    requires WordChars(cfg, w)
    requires s == w + ['\\']
    ensures Tokenization(cfg, s, lenient) == Err(BufferOverrun)
  {
    UnquotedRun(s, 0, |w|, "");
    assert UnquotedFrom(s, 0, "") == Err(BufferOverrun);
    assert SkipWhiteSpaceFrom(s, 0) == 0;
  }

  /** The input's last character is a backslash, the only place a backslash has nothing to escape. */
  predicate EndsWithBackslash(s: string) {
    |s| > 0 && s[|s| - 1] == '\\'
  }

  /** The two ways tokenizing fails: a backslash ending the input, or an unclosed quote when not lenient. */
  predicate ExplainedFailure(cfg: TokenizerConfig, s: string, lenient: bool, f: Failure) {
    (f == BufferOverrun && EndsWithBackslash(s))
    || (f == Unterminated && cfg.handleQuotedStrings && !lenient && !cfg.forceLenient)
  }

  lemma TokenizeFailures(cfg: TokenizerConfig, s: string, lenient: bool)
    ensures Tokenization(cfg, s, lenient).Err? ==> ExplainedFailure(cfg, s, lenient, Tokenization(cfg, s, lenient).failure)
  {
    if |s| > 0 {
      TokenizeFromFailures(cfg, s, if cfg.trimTrailingSpace then SkipWhiteSpaceFrom(s, 0) else 0, lenient, []);
    }
  }

  lemma {:induction false} TokenizeFromFailures(cfg: TokenizerConfig, s: string, p: nat, lenient: bool, acc: seq<SingleArg>)
    requires p <= |s|
    ensures TokenizeFrom(cfg, s, p, lenient, acc).Err? ==> ExplainedFailure(cfg, s, lenient, TokenizeFrom(cfg, s, p, lenient, acc).failure)
    decreases |s| - p
  {
    if p < |s| {
      var p1 := if cfg.trimTrailingSpace then p else SkipWhiteSpaceFrom(s, p);
      NextArgFailures(cfg, s, p1, lenient);
      match NextTokenFrom(cfg, s, p, lenient)
      case Err(_) =>
      case Ok((arg, p2)) => TokenizeFromFailures(cfg, s, p2, lenient, acc + [arg]);
    }
  }

  lemma NextArgFailures(cfg: TokenizerConfig, s: string, p: nat, lenient: bool)
    requires p <= |s|
    ensures NextArgFrom(cfg, s, p, lenient).Err? ==> ExplainedFailure(cfg, s, lenient, NextArgFrom(cfg, s, p, lenient).failure)
  {
    if p < |s| {
      if cfg.handleQuotedStrings && IsQuote(s[p]) {
        QuotedFailures(s, p + 1, s[p], "", lenient || cfg.forceLenient);
      } else {
        UnquotedFailures(s, p, "");
      }
    }
  }

  lemma {:induction false} UnquotedFailures(s: string, p: nat, acc: string)
    requires p <= |s|
    ensures UnquotedFrom(s, p, acc).Err? ==> UnquotedFrom(s, p, acc).failure == BufferOverrun && EndsWithBackslash(s)
    decreases |s| - p
  {
    if p < |s| && !IsWhitespace(s[p]) {
      if s[p] == '\\' {
        if p + 1 < |s| { UnquotedFailures(s, p + 2, acc + [s[p + 1]]); }
      } else {
        UnquotedFailures(s, p + 1, acc + [s[p]]);
      }
    }
  }

  lemma {:induction false} QuotedFailures(s: string, p: nat, q: char, acc: string, lenient: bool)
    requires p <= |s|
    ensures QuotedFrom(s, p, q, acc, lenient).Err? ==>
      var f := QuotedFrom(s, p, q, acc, lenient).failure;
      (f == BufferOverrun && EndsWithBackslash(s)) || (f == Unterminated && !lenient)
    decreases |s| - p
  {
    if p < |s| && s[p] != q {
      if s[p] == '\\' {
        if p + 1 < |s| { QuotedFailures(s, p + 2, q, acc + [s[p + 1]], lenient); }
      } else {
        QuotedFailures(s, p + 1, q, acc + [s[p]], lenient);
      }
    }
  }
}
