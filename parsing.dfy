// The parameter tree and what parsing, completing and describing it does:
// SpongeParameter with its modifier chain (SpongeParsingContext,
// DefaultValueModifier and the builder's PermissionModifier), the sequence
// and first-of parameters, and the flags that a sequence parses between its
// elements. Each operation is a function of the cursor and the context's
// entries; the classes and methods that carry them out are in
// ParsingEngine.
module Parsing {
  import opened Common
  import opened JavaLang
  import opened TokenizedArgs
  import opened ExecutionContext
  import opened ChoiceParameters
  import opened LiteralParameter
  import opened RawJoinedParameter
  import opened Vector3dParameter
  import opened FlagBehaviors

  /** What a plugin's modifier decides when its `onParse` is reached. */
  datatype ModifierAction =
    | Proceed         // calls `next()` on the parsing context
    | Halt            // returns without parsing
    | Reject(message: string)

  datatype Modifier =
    | PermissionModifier(permission: string)
    | DefaultValueModifier(defaultValue: Value)
    | PluginModifier(id: nat)

  /** The parser a built value parameter uses: a value parameter, or a plugin's plain parser. */
  datatype ValueParser = ParameterParser(vp: ValueParameter) | PlainParser(id: nat)

  datatype Completer = CompleteWith(vp: ValueParameter) | PluginCompleter(id: nat) | NoCompletions

  datatype UsageFn = UsageOf(vp: ValueParameter) | PluginUsage(id: nat) | KeyUsage

  datatype ValueParameter =
    | ChoicesParameter(choices: seq<(string, Value)>, listing: Tristate)
    | AlternativeChoicesParameter(names: seq<string>, valueFunction: nat, listing: Tristate)
    | LiteralParam(literals: seq<string>, returnedValue: Option<Value>)
    | RawJoinedParam
    | Vector3dParam
    | PluginValueParameter(id: nat)
      /** SpongeParameterBuilder.SpongeValueParameter: a parser, a completer and a usage put together. */
    | Assembled(parser: ValueParser, completer: Completer, usage: UsageFn)

  datatype Parameter =
    | Single(key: string, modifiers: seq<Modifier>, valueParameter: ValueParameter)
    | Sequence(parameters: seq<Parameter>)
    | FirstOf(parameters: seq<Parameter>)

  datatype UnknownFlagBehavior = ErrorBehavior | AcceptValueBehavior | AcceptNonValueBehavior

  /** SpongeFlags: the primary alias of each flag, the parameter of every alias, the two behaviours and anchoring. */
  datatype Flags = Flags(
    primaryFlags: seq<string>,
    flags: map<string, Parameter>,
    shortUnknown: UnknownFlagBehavior,
    longUnknown: UnknownFlagBehavior,
    anchorFlags: bool)

  /**
   * Everything parsing consults that is not part of the parameter tree: the
   * command source, the cursor object (for the owner check of its states),
   * Double.parseDouble, and the code of plugins, known by number.
   */
  datatype Env = Env(
    source: Source,
    argsOwner: object,
    parseDouble: string -> Option<real>,
    valueFunction: (nat, string) -> Option<Value>,
    pluginParse: (nat, Source, Cursor) -> (nat, Result<Option<Value>>),
    pluginComplete: (nat, Source, Cursor) -> Result<seq<string>>,
    pluginUsage: (nat, string, Source) -> string,
    pluginModifier: (nat, Source) -> ModifierAction,
    pluginModifierComplete: (nat, Source, Cursor, seq<string>) -> Result<seq<string>>,
    pluginModifierUsage: (nat, string, Source, string) -> string)

  /** The cursor and the context's entries. */
  datatype PState = PState(cur: Cursor, entries: Entries)

  /** A result keeps the command line; unless it crashed, the cursor has not gone back. */
  ghost predicate Progress(st: PState, r: (PState, Outcome)) {
    SameLine(st.cur, r.0.cur) && (!(r.1.Fail? && r.1.failure.Crash?) ==> st.cur.index <= r.0.cur.index)
  }

  function Remaining(c: Cursor): nat
    requires c.Valid()
  {
    |c.args| - c.index
  }

  function Min(a: nat, b: nat): nat { if a < b then a else b }

  function ValueFunctionOf(env: Env, id: nat): string -> Option<Value> {
    s => env.valueFunction(id, s)
  }

  /** A plugin's parser: it reads some tokens, never more than remain, and gives its answer. */
  function PluginValue(env: Env, id: nat, c: Cursor): (r: (Cursor, Result<Option<Value>>))
    requires c.Valid()
    ensures SameLine(c, r.0) && c.index <= r.0.index
  {
    var (n, res) := env.pluginParse(id, env.source, c);
    (c.(index := c.index + Min(n, Remaining(c))), res)
  }

  /** `getValue` of a value parameter. */
  function ValueOf(env: Env, vp: ValueParameter, c: Cursor): (r: (Cursor, Result<Option<Value>>))
    requires c.Valid()
    ensures SameLine(c, r.0) && c.index <= r.0.index
    decreases vp
  {
    match vp
    case ChoicesParameter(choices, _) => ChoicesValue(choices, c)
    case AlternativeChoicesParameter(names, f, _) => AlternativeValue(names, ValueFunctionOf(env, f), c)
    case LiteralParam(literals, returned) => LiteralValue(literals, returned, c)
    case RawJoinedParam => RawJoinedValue(c)
    case Vector3dParam => Vector3dValue(env.parseDouble, env.source, c)
    case PluginValueParameter(id) => PluginValue(env, id, c)
    case Assembled(parser, _, _) =>
      match parser
      case ParameterParser(inner) => ValueOf(env, inner, c)
      case PlainParser(id) => PluginValue(env, id, c)
  }

  /**
   * SpongeParsingContext.next() from modifier i on: each modifier's
   * `onParse` decides whether to go on to the next one; after the last, the
   * value parameter's value is stored under the key, and an absent value
   * fails. DefaultValueModifier stores its default when the rest of the
   * chain succeeded without leaving a value under the key; PermissionModifier
   * goes on only for a source holding its permission.
   */
  function Chain(env: Env, key: string, mods: seq<Modifier>, i: nat, vp: ValueParameter, st: PState): (r: (PState, Outcome))
    requires i <= |mods| && st.cur.Valid()
    ensures Progress(st, r)
    decreases |mods| - i
  {
    if i == |mods| then
      var (c, v) := ValueOf(env, vp, st.cur);
      match v
      case Err(f) => (PState(c, st.entries), Fail(f))
      case Ok(None) => (PState(c, st.entries), Fail(NullThrown))
      case Ok(Some(x)) => (PState(c, Put(st.entries, key, x)), Pass)
    else
      match mods[i]
      case PermissionModifier(p) =>
        if HasPermission(env.source, p) then Chain(env, key, mods, i + 1, vp, st) else (st, Pass)
      case DefaultValueModifier(d) =>
        var (st', o) := Chain(env, key, mods, i + 1, vp, st);
        if o.Fail? || |ValuesOf(st'.entries, key)| > 0 then (st', o)
        else (PState(st'.cur, Put(st'.entries, key, d)), Pass)
      case PluginModifier(id) =>
        match env.pluginModifier(id, env.source)
        case Proceed => Chain(env, key, mods, i + 1, vp, st)
        case Halt => (st, Pass)
        case Reject(message) => (st, Fail(ParseError(message)))
  }

  /** `parse` of any parameter. */
  function Parse(env: Env, flags: Flags, p: Parameter, st: PState): (r: (PState, Outcome))
    requires st.cur.Valid()
    ensures Progress(st, r)
    decreases Remaining(st.cur), p, 2, 0
  {
    match p
    case Single(key, mods, vp) => Chain(env, key, mods, 0, vp, st)
    case Sequence(_) => SequenceFrom(env, flags, p, 0, st)
    case FirstOf(_) => FirstOfFrom(env, flags, p, 0, st)
  }

  /**
   * SpongeSequenceParameter.parse from element i on: each element in turn,
   * stopping at the first failure; when the flags are not anchored, the
   * flags are parsed after every element.
   */
  function SequenceFrom(env: Env, flags: Flags, p: Parameter, i: nat, st: PState): (r: (PState, Outcome))
    requires p.Sequence? && i <= |p.parameters| && st.cur.Valid()
    ensures Progress(st, r)
    decreases Remaining(st.cur), p, 1, |p.parameters| - i
  {
    if i == |p.parameters| then (st, Pass)
    else
      var (st1, o1) := Parse(env, flags, p.parameters[i], st);
      if o1.Fail? then (st1, o1)
      else if flags.anchorFlags then SequenceFrom(env, flags, p, i + 1, st1)
      else
        var (st2, o2) := FlagsParse(env, flags, p, st1);
        if o2.Fail? then (st2, o2) else SequenceFrom(env, flags, p, i + 1, st2)
  }

  /**
   * SpongeFirstOfParameter.parse from alternative i on: the first
   * alternative that parses wins. A catchable failure puts the context's
   * entries back but leaves the cursor where the alternative left it; any
   * other failure ends the parse. When every alternative fails, the error
   * built for it is null, so the parse crashes.
   */
  function FirstOfFrom(env: Env, flags: Flags, p: Parameter, i: nat, st: PState): (r: (PState, Outcome))
    requires p.FirstOf? && i <= |p.parameters| && st.cur.Valid()
    ensures Progress(st, r)
    decreases Remaining(st.cur), p, 1, |p.parameters| - i
  {
    if i == |p.parameters| then (st, Fail(NullThrown))
    else
      var (st1, o1) := Parse(env, flags, p.parameters[i], st);
      if o1.Pass? || o1.failure.Crash? then (st1, o1)
      else FirstOfFrom(env, flags, p, i + 1, PState(st1.cur, Restored(st.entries)))
  }

  /** `flags.parse` is a no-op here: after the first token (unless anchored), at the end, or before a token without `-`. */
  predicate FlagsSkip(flags: Flags, c: Cursor)
    requires c.Valid()
  {
    (HasPreviousToken(c) && !flags.anchorFlags) || !HasNextToken(c) || !StartsWith(c.args[c.index].arg, "-")
  }

  /**
   * SpongeFlags.parse: the flag token is consumed and its name lower-cased
   * (`--name` is a long flag, `-x...` the short flag x); a known flag's
   * parameter is parsed, an unknown one goes to the behaviour for its kind
   * together with the cursor state saved before the flag token.
   * `within` only bounds the recursion.
   */
  function FlagsParse(env: Env, flags: Flags, within: Parameter, st: PState): (r: (PState, Outcome))
    requires st.cur.Valid()
    ensures Progress(st, r)
    decreases Remaining(st.cur), within, 0, 0
  {
    var c := st.cur;
    if FlagsSkip(flags, c) then (st, Pass)
    else
      var saved := SavedState(c, env.argsOwner);
      var next := c.args[c.index].arg;
      var st1 := PState(c.(index := c.index + 1), st.entries);
      if StartsWith(next, "--") then
        var name := ToLower(next[2..]);
        if name in flags.flags then Parse(env, flags, flags.flags[name], st1)
        else Unknown(flags.longUnknown, next, env.argsOwner, st1, saved)
      else if |next| < 2 then (st1, Fail(Crash("StringIndexOutOfBoundsException")))
      else
        var name := ToLower(next[1..2]);
        if name in flags.flags then Parse(env, flags, flags.flags[name], st1)
        else Unknown(flags.shortUnknown, next, env.argsOwner, st1, saved)
  }

  /** An unknown flag. The refusing behaviour's implementation is not part of this model: it fails catchably. */
  function Unknown(b: UnknownFlagBehavior, flag: string, owner: object, st: PState, saved: StateObject): (r: (PState, Outcome))
    requires st.cur.Valid()
    ensures SameLine(st.cur, r.0.cur)
    ensures r.1.Pass? ==> saved.ArgsState? && saved.index + 1 <= r.0.cur.index
    ensures r.1.Fail? && r.1.failure.ParseError? ==> r.0 == st
  {
    match b
    case ErrorBehavior => (st, Fail(ParseError(flag)))
    case AcceptValueBehavior =>
      var (eff, o) := AcceptValue(st.cur, st.entries, saved, owner);
      (PState(eff.cur, eff.entries), o)
    case AcceptNonValueBehavior =>
      var (eff, o) := AcceptNonValue(st.cur, st.entries, saved, owner);
      (PState(eff.cur, eff.entries), o)
  }

  // Completion.

  function PluginCompletions(env: Env, id: nat, c: Cursor): (r: (Cursor, Result<seq<string>>))
    requires c.Valid()
    ensures r.0 == c
  {
    (c, env.pluginComplete(id, env.source, c))
  }

  /** `complete` of a value parameter. */
  function ValueCompletions(env: Env, vp: ValueParameter, c: Cursor): (r: (Cursor, Result<seq<string>>))
    requires c.Valid()
    ensures SameLine(c, r.0)
    decreases vp
  {
    match vp
    case ChoicesParameter(choices, _) => (c, CompleteNames(Names(choices), c))
    case AlternativeChoicesParameter(names, _, _) => (c, CompleteNames(names, c))
    case LiteralParam(literals, _) => LiteralCompletion(literals, c)
    case RawJoinedParam => (c, Ok(RawJoinedCompletion()))
    case Vector3dParam => Vector3dCompletion(c)
    case PluginValueParameter(id) => PluginCompletions(env, id, c)
    case Assembled(_, completer, _) =>
      match completer
      case CompleteWith(inner) => ValueCompletions(env, inner, c)
      case PluginCompleter(id) => PluginCompletions(env, id, c)
      case NoCompletions => (c, Ok([]))
  }

  /**
   * The modifiers' `complete`, applied in order from modifier i to the
   * completions so far, with the cursor c as the value parameter left it: a
   * permission modifier answers nothing, whatever the source holds; a
   * default passes the completions on; a plugin's modifier gives its own
   * answer, or throws.
   */
  function ModifierCompletions(env: Env, c: Cursor, mods: seq<Modifier>, i: nat, cs: seq<string>): Result<seq<string>>
    requires i <= |mods|
    decreases |mods| - i
  {
    if i == |mods| then Ok(cs)
    else
      match mods[i]
      case PermissionModifier(_) => ModifierCompletions(env, c, mods, i + 1, [])
      case DefaultValueModifier(_) => ModifierCompletions(env, c, mods, i + 1, cs)
      case PluginModifier(id) =>
        match env.pluginModifierComplete(id, env.source, c, cs)
        case Err(f) => Err(f)
        case Ok(cs') => ModifierCompletions(env, c, mods, i + 1, cs')
  }

  ghost predicate SameLineState(st: PState, st': PState) {
    SameLine(st.cur, st'.cur)
  }

  /** `complete` of any parameter. */
  function Complete(env: Env, flags: Flags, p: Parameter, st: PState): (r: (PState, Result<seq<string>>))
    requires st.cur.Valid()
    ensures SameLineState(st, r.0)
    decreases p, 2, 0, 0
  {
    match p
    case Single(_, mods, vp) =>
      var (c, cs) := ValueCompletions(env, vp, st.cur);
      (PState(c, st.entries), match cs case Err(f) => Err(f) case Ok(v) => ModifierCompletions(env, c, mods, 0, v))
    case Sequence(_) => SequenceCompleteFrom(env, flags, p, 0, st)
    case FirstOf(_) => FirstOfCompleteFrom(env, flags, p, 0, st, [])
  }

  /** The `catch` of SpongeSequenceParameter.complete: back to the start state, then the element's completions. */
  function CompleteAfterFailure(env: Env, flags: Flags, elem: Parameter, st: PState, start: StateObject): (r: (PState, Result<seq<string>>))
    requires st.cur.Valid()
    ensures SameLineState(st, r.0)
    decreases elem, 3, 0, 0
  {
    var (c, o) := CursorRestore(st.cur, start, env.argsOwner);
    if o.Fail? then (PState(c, st.entries), Err(o.failure))
    else Complete(env, flags, elem, PState(c, st.entries))
  }

  /**
   * SpongeSequenceParameter.complete from element i on. An element that
   * fails to parse is completed from the start state. An element that
   * parses and uses up the input is completed from the start state too, and
   * those completions are the answer unless they contain the last token;
   * then the walk goes on from where the parse ended. After the last element
   * the cursor is put back to the start state and there are no completions.
   * Every restore lands one token before the state was saved.
   */
  function SequenceCompleteFrom(env: Env, flags: Flags, p: Parameter, i: nat, st: PState): (r: (PState, Result<seq<string>>))
    requires p.Sequence? && i <= |p.parameters| && st.cur.Valid()
    ensures SameLineState(st, r.0)
    decreases p, 1, |p.parameters| - i, 1
  {
    if i == |p.parameters| then (st, Ok([]))
    else
      var elem := p.parameters[i];
      var start := SavedState(st.cur, env.argsOwner);
      var (st1, o1) := Parse(env, flags, elem, st);
      if o1.Fail? then
        if o1.failure.ParseError? then CompleteAfterFailure(env, flags, elem, st1, start)
        else (st1, Err(o1.failure))
      else if HasNextToken(st1.cur) then SequenceCompleteNext(env, flags, p, i, st1, start)
      else
        var end := SavedState(st1.cur, env.argsOwner);
        var (c2, o2) := CursorRestore(st1.cur, start, env.argsOwner);
        if o2.Fail? then (PState(c2, st1.entries), Err(o2.failure))
        else
          var (st3, inputs) := Complete(env, flags, elem, PState(c2, st1.entries));
          if inputs.Err? then
            if inputs.failure.ParseError? then CompleteAfterFailure(env, flags, elem, st3, start)
            else (st3, inputs)
          else
            var (c4, back) := CursorPrevious(st3.cur);
            if back.Err? then (PState(c4, st3.entries), Err(back.failure))
            else
              var last := c4.args[c4.index].arg;
              var c5 := c4.(index := c4.index + 1);
              if last !in inputs.value then (PState(c5, st3.entries), inputs)
              else
                // The start state was restored, so the line is not empty and the end state, one
                // before its last token, always restores.
                var (c6, o6) := CursorRestore(c5, end, env.argsOwner);
                assert o6.Pass?;
                SequenceCompleteNext(env, flags, p, i, PState(c6, st3.entries), start)
  }

  /** The end of an element's turn: after the last element, the cursor goes back to the start state. */
  function SequenceCompleteNext(env: Env, flags: Flags, p: Parameter, i: nat, st: PState, start: StateObject): (r: (PState, Result<seq<string>>))
    requires p.Sequence? && i < |p.parameters| && st.cur.Valid()
    ensures SameLineState(st, r.0)
    decreases p, 1, |p.parameters| - i, 0
  {
    if i + 1 < |p.parameters| then SequenceCompleteFrom(env, flags, p, i + 1, st)
    else
      var (c, o) := CursorRestore(st.cur, start, env.argsOwner);
      if o.Fail? then (PState(c, st.entries), Err(o.failure))
      else SequenceCompleteFrom(env, flags, p, i + 1, PState(c, st.entries))
  }

  /**
   * SpongeFirstOfParameter.complete from alternative i on: the completions
   * of every alternative, in order, each followed by putting the context's
   * entries back; the cursor is not put back.
   */
  function FirstOfCompleteFrom(env: Env, flags: Flags, p: Parameter, i: nat, st: PState, acc: seq<string>): (r: (PState, Result<seq<string>>))
    requires p.FirstOf? && i <= |p.parameters| && st.cur.Valid()
    ensures SameLineState(st, r.0)
    decreases p, 1, |p.parameters| - i, 0
  {
    if i == |p.parameters| then (st, Ok(acc))
    else
      var (st1, r1) := Complete(env, flags, p.parameters[i], st);
      var st2 := PState(st1.cur, Restored(st.entries));
      if r1.Err? then (st2, Err(r1.failure))
      else FirstOfCompleteFrom(env, flags, p, i + 1, st2, acc + r1.value)
  }

  // Usage.

  /** `getUsage(key, source)` of a value parameter; Vector3d keeps the interface's default, the key. */
  function ValueUsage(env: Env, vp: ValueParameter, key: string): string
    decreases vp
  {
    match vp
    case ChoicesParameter(choices, listing) => ChoicesUsage(Names(choices), listing, key)
    case AlternativeChoicesParameter(names, _, listing) => ChoicesUsage(names, listing, key)
    case LiteralParam(literals, _) => LiteralUsage(literals)
    case RawJoinedParam => RawJoinedUsage(key)
    case Vector3dParam => key
    case PluginValueParameter(id) => env.pluginUsage(id, key, env.source)
    case Assembled(_, _, usage) =>
      match usage
      case UsageOf(inner) => ValueUsage(env, inner, key)
      case PluginUsage(id) => env.pluginUsage(id, key, env.source)
      case KeyUsage => key
  }

  /** One modifier's `getUsage`: a permission modifier hides the usage from a source without its permission; a plugin's modifier gives its own. */
  function ModifierStepUsage(env: Env, key: string, m: Modifier, usage: string): string {
    match m
    case PermissionModifier(p) => if HasPermission(env.source, p) then usage else ""
    case DefaultValueModifier(_) => usage
    case PluginModifier(id) => env.pluginModifierUsage(id, key, env.source, usage)
  }

  /** The modifiers' `getUsage`, applied in order from modifier i to the usage so far. */
  function ModifierUsage(env: Env, key: string, mods: seq<Modifier>, i: nat, usage: string): string
    requires i <= |mods|
    decreases |mods| - i
  {
    if i == |mods| then usage
    else ModifierUsage(env, key, mods, i + 1, ModifierStepUsage(env, key, mods[i], usage))
  }

  /** The usages that are not empty, in order. */
  function NonEmpty(parts: seq<string>): (r: seq<string>)
    ensures forall x :: x in r <==> x in parts && x != ""
    ensures |r| <= |parts|
  {
    if |parts| == 0 then []
    else if parts[0] == "" then NonEmpty(parts[1..])
    else [parts[0]] + NonEmpty(parts[1..])
  }

  /** `getUsage` of any parameter. */
  function Usage(env: Env, p: Parameter): string
    decreases p, 1
  {
    match p
    case Single(key, mods, vp) => ModifierUsage(env, key, mods, 0, ValueUsage(env, vp, key))
    case Sequence(ps) => Join(NonEmpty(Usages(env, p)), " ")
    case FirstOf(ps) => "(" + Join(NonEmpty(Usages(env, p)), "|") + ")"
  }

  /** The usages of the children, in order. */
  function Usages(env: Env, p: Parameter): (r: seq<string>)
    requires !p.Single?
    ensures |r| == |p.parameters|
    decreases p, 0
  {
    seq(|p.parameters|, k requires 0 <= k < |p.parameters| => Usage(env, p.parameters[k]))
  }

  /** Filtering one more usage appends it when it is not empty. */
  lemma {:induction false} NonEmptyAppend(parts: seq<string>, x: string)
    ensures NonEmpty(parts + [x]) == NonEmpty(parts) + (if x == "" then [] else [x])
    decreases |parts|
  {
    if |parts| > 0 {
      assert (parts + [x])[1..] == parts[1..] + [x];
      NonEmptyAppend(parts[1..], x);
    }
  }

  /**
   * SpongeFlags.getUsage: the usages of the primary aliases' parameters,
   * those that are not empty, separated by spaces. A primary alias without
   * a parameter dereferences null.
   */
  function FlagsUsage(env: Env, flags: Flags): (r: Result<string>)
    ensures r.Ok? <==> forall f :: f in flags.primaryFlags ==> f in flags.flags
  {
    if forall f :: f in flags.primaryFlags ==> f in flags.flags then
      Ok(Join(NonEmpty(seq(|flags.primaryFlags|, i requires 0 <= i < |flags.primaryFlags| => Usage(env, flags.flags[flags.primaryFlags[i]]))), " "))
    else Err(NullThrown)
  }

  /** `getKey`: a parameter's key; sequences and first-of parameters have the empty key. */
  function Key(p: Parameter): (r: string)
    ensures p.Single? ==> r == p.key
    ensures !p.Single? ==> r == ""
  {
    if p.Single? then p.key else ""
  }
}
