// The objects that carry out parsing: SpongeParsingContext walking the
// modifier list with its list iterator, and the parse, complete and usage
// methods of SpongeParameter, the sequence and first-of parameters and
// SpongeFlags, working on the cursor and the execution context in place.
// Each is proved to do what the matching function of Parsing describes.
module ParsingEngine {
  import opened Common
  import opened JavaLang
  import opened TokenizedArgs
  import opened ExecutionContext
  import opened ChoiceParameters
  import opened LiteralParameter
  import opened RawJoinedParameter
  import opened Vector3dParameter
  import opened FlagBehaviors
  import opened Parsing

  function StateOf(args: SpongeTokenizedArgs, context: SpongeCommandExecutionContext): PState
    reads args, context
  {
    PState(args.Model(), context.parsedArgs)
  }

  ghost predicate Ready(env: Env, args: SpongeTokenizedArgs, context: SpongeCommandExecutionContext)
    reads args, context
  {
    args.Valid() && context.Valid() && env.argsOwner == args
  }

  /** A plugin's parser reads its tokens through the cursor. */
  method PluginGetValue(env: Env, id: nat, args: SpongeTokenizedArgs) returns (r: Result<Option<Value>>)
    requires args.Valid()
    modifies args
    ensures args.Valid()
    ensures (args.Model(), r) == PluginValue(env, id, old(args.Model()))
  {
    var answer := env.pluginParse(id, env.source, args.Model());
    var n := Min(answer.0, |args.args| - args.iteratorIndex);
    for k := 0 to n
      invariant args.Valid() && args.iteratorIndex == old(args.iteratorIndex) + k
    {
      var _ := args.Next();
    }
    r := answer.1;
  }

  method GetValue(env: Env, vp: ValueParameter, args: SpongeTokenizedArgs) returns (r: Result<Option<Value>>)
    requires args.Valid()
    modifies args
    ensures args.Valid()
    ensures (args.Model(), r) == ValueOf(env, vp, old(args.Model()))
    decreases vp
  {
    match vp
    case ChoicesParameter(choices, _) => r := ChoicesGetValue(choices, args);
    case AlternativeChoicesParameter(names, f, _) => r := AlternativeGetValue(names, ValueFunctionOf(env, f), args);
    case LiteralParam(literals, returned) => r := LiteralGetValue(literals, returned, args);
    case RawJoinedParam => r := RawJoinedGetValue(args);
    case Vector3dParam => r := Vector3dGetValue(env.parseDouble, env.source, args);
    case PluginValueParameter(id) => r := PluginGetValue(env, id, args);
    case Assembled(parser, _, _) =>
      match parser
      case ParameterParser(inner) => r := GetValue(env, inner, args);
      case PlainParser(id) => r := PluginGetValue(env, id, args);
  }

  /**
   * SpongeParsingContext: one parameter's parse in progress. The modifier
   * iterator's position is `modifierIndex`; `next()` hands control to the
   * modifier there, or stores the parsed value once the modifiers are used up.
   */
  class SpongeParsingContext {
    const env: Env
    const key: string
    const args: SpongeTokenizedArgs
    const context: SpongeCommandExecutionContext
    const modifiers: seq<Modifier>
    const valueParameter: ValueParameter
    var modifierIndex: nat

    ghost predicate Valid()
      reads this, args, context
    {
      modifierIndex <= |modifiers| && Ready(env, args, context)
    }

    constructor (env: Env, key: string, args: SpongeTokenizedArgs, context: SpongeCommandExecutionContext,
                 modifiers: seq<Modifier>, valueParameter: ValueParameter)
      requires Ready(env, args, context)
      ensures Valid() && modifierIndex == 0
      ensures this.env == env && this.key == key && this.args == args && this.context == context
      ensures this.modifiers == modifiers && this.valueParameter == valueParameter
    {
      this.env := env;
      this.key := key;
      this.args := args;
      this.context := context;
      this.modifiers := modifiers;
      this.valueParameter := valueParameter;
      modifierIndex := 0;
    }

    /** `next()`: the iterator is stepped back afterwards, so the position is what it was. */
    method Next() returns (o: Outcome)
      requires Valid()
      modifies this, args, context
      ensures Valid() && modifierIndex == old(modifierIndex)
      ensures (StateOf(args, context), o) == Chain(env, key, modifiers, old(modifierIndex), valueParameter, old(StateOf(args, context)))
      decreases |modifiers| - modifierIndex, 0
    {
      if modifierIndex < |modifiers| {
        var m := modifiers[modifierIndex];
        modifierIndex := modifierIndex + 1;
        o := OnParse(m);
        modifierIndex := modifierIndex - 1;
      } else {
        var v := GetValue(env, valueParameter, args);
        if v.Err? {
          return Fail(v.failure);
        }
        if v.value.None? {
          return Fail(NullThrown);
        }
        o := context.PutEntry(key, v.value);
      }
    }

    /** The `onParse` of the modifier just taken from the iterator. */
    method OnParse(m: Modifier) returns (o: Outcome)
      requires Valid() && 0 < modifierIndex && modifiers[modifierIndex - 1] == m
      modifies this, args, context
      ensures Valid() && modifierIndex == old(modifierIndex)
      ensures (StateOf(args, context), o) == Chain(env, key, modifiers, old(modifierIndex) - 1, valueParameter, old(StateOf(args, context)))
      decreases |modifiers| - modifierIndex, 1
    {
      match m
      case PermissionModifier(p) =>
        if HasPermission(env.source, p) {
          o := Next();
        } else {
          o := Pass;
        }
      case DefaultValueModifier(d) =>
        o := Next();
        if o.Pass? && !context.HasAny(key) {
          o := context.PutEntry(key, Some(d));
        }
      case PluginModifier(id) =>
        match env.pluginModifier(id, env.source)
        case Proceed => o := Next();
        case Halt => o := Pass;
        case Reject(message) => o := Fail(ParseError(message));
    }
  }

  /** `parse` of any parameter: a SpongeParameter starts a fresh parsing context at the first modifier. */
  method ParseParameter(env: Env, flags: Flags, p: Parameter, args: SpongeTokenizedArgs, context: SpongeCommandExecutionContext)
    returns (o: Outcome)
    requires Ready(env, args, context)
    modifies args, context
    ensures Ready(env, args, context)
    ensures (StateOf(args, context), o) == Parse(env, flags, p, old(StateOf(args, context)))
    decreases |args.args| - args.iteratorIndex, p, 2, 0
  {
    match p
    case Single(key, mods, vp) =>
      var pc := new SpongeParsingContext(env, key, args, context, mods, vp);
      o := pc.Next();
    case Sequence(_) => o := SequenceParse(env, flags, p, args, context);
    case FirstOf(_) => o := FirstOfParse(env, flags, p, args, context);
  }

  method SequenceParse(env: Env, flags: Flags, p: Parameter, args: SpongeTokenizedArgs, context: SpongeCommandExecutionContext)
    returns (o: Outcome)
    requires p.Sequence? && Ready(env, args, context)
    modifies args, context
    ensures Ready(env, args, context)
    ensures (StateOf(args, context), o) == SequenceFrom(env, flags, p, 0, old(StateOf(args, context)))
    decreases |args.args| - args.iteratorIndex, p, 1, 0
  {
    var parseFlags := !flags.anchorFlags;
    var i := 0;
    while i < |p.parameters|
      invariant i <= |p.parameters| && Ready(env, args, context)
      invariant old(args.iteratorIndex) <= args.iteratorIndex
      invariant SequenceFrom(env, flags, p, 0, old(StateOf(args, context))) == SequenceFrom(env, flags, p, i, StateOf(args, context))
    {
      o := ParseParameter(env, flags, p.parameters[i], args, context);
      if o.Fail? {
        return;
      }
      if parseFlags {
        o := FlagsParseMethod(env, flags, p, args, context);
        if o.Fail? {
          return;
        }
      }
      i := i + 1;
    }
    o := Pass;
  }

  method FirstOfParse(env: Env, flags: Flags, p: Parameter, args: SpongeTokenizedArgs, context: SpongeCommandExecutionContext)
    returns (o: Outcome)
    requires p.FirstOf? && Ready(env, args, context)
    modifies args, context
    ensures Ready(env, args, context)
    ensures (StateOf(args, context), o) == FirstOfFrom(env, flags, p, 0, old(StateOf(args, context)))
    decreases |args.args| - args.iteratorIndex, p, 1, 0
  {
    var i := 0;
    while i < |p.parameters|
      invariant i <= |p.parameters| && Ready(env, args, context)
      invariant old(args.iteratorIndex) <= args.iteratorIndex
      invariant FirstOfFrom(env, flags, p, 0, old(StateOf(args, context))) == FirstOfFrom(env, flags, p, i, StateOf(args, context))
    {
      var state := context.GetState();
      o := ParseParameter(env, flags, p.parameters[i], args, context);
      if o.Pass? || o.failure.Crash? {
        return;
      }
      var _ := context.SetState(state);
      i := i + 1;
    }
    o := Fail(NullThrown);
  }

  /** SpongeFlags.parse; `within` is the sequence it is parsed for. */
  method FlagsParseMethod(env: Env, flags: Flags, ghost within: Parameter, args: SpongeTokenizedArgs, context: SpongeCommandExecutionContext)
    returns (o: Outcome)
    requires Ready(env, args, context)
    modifies args, context
    ensures Ready(env, args, context)
    ensures (StateOf(args, context), o) == FlagsParse(env, flags, within, old(StateOf(args, context)))
    decreases |args.args| - args.iteratorIndex, within, 0, 0
  {
    if (args.HasPrevious() && !flags.anchorFlags) || !args.HasNext() {
      return Pass;
    }
    var peeked := args.Peek();
    if !StartsWith(peeked.value, "-") {
      return Pass;
    }
    var tokenizedPreviousState := args.GetState();
    var next := args.Next();
    var flag := next.value;
    if StartsWith(flag, "--") {
      var name := ToLower(flag[2..]);
      if name in flags.flags {
        o := ParseParameter(env, flags, flags.flags[name], args, context);
      } else {
        o := UnknownParse(flags.longUnknown, flag, args, context, tokenizedPreviousState);
      }
    } else {
      if |flag| < 2 {
        return Fail(Crash("StringIndexOutOfBoundsException"));
      }
      var name := ToLower(flag[1..2]);
      if name in flags.flags {
        o := ParseParameter(env, flags, flags.flags[name], args, context);
      } else {
        o := UnknownParse(flags.shortUnknown, flag, args, context, tokenizedPreviousState);
      }
    }
  }

  method UnknownParse(b: UnknownFlagBehavior, flag: string, args: SpongeTokenizedArgs, context: SpongeCommandExecutionContext, saved: StateObject)
    returns (o: Outcome)
    requires args.Valid() && context.Valid()
    modifies args, context
    ensures args.Valid() && context.Valid()
    ensures (StateOf(args, context), o) == Unknown(b, flag, args, old(StateOf(args, context)), saved)
  {
    match b
    case ErrorBehavior => o := Fail(ParseError(flag));
    case AcceptValueBehavior => o := AcceptValueParse(args, context, saved);
    case AcceptNonValueBehavior => o := AcceptNonValueParse(args, context, saved);
  }

  // Completion.

  method ValueComplete(env: Env, vp: ValueParameter, args: SpongeTokenizedArgs) returns (r: Result<seq<string>>)
    requires args.Valid()
    modifies args
    ensures args.Valid()
    ensures (args.Model(), r) == ValueCompletions(env, vp, old(args.Model()))
    decreases vp
  {
    match vp
    case ChoicesParameter(choices, _) => r := ChoicesComplete(choices, args);
    case AlternativeChoicesParameter(names, _, _) => r := AlternativeComplete(names, args);
    case LiteralParam(literals, _) => r := LiteralComplete(literals, args);
    case RawJoinedParam => r := Ok(RawJoinedCompletion());
    case Vector3dParam => r := Vector3dComplete(args);
    case PluginValueParameter(id) => r := env.pluginComplete(id, env.source, args.Model());
    case Assembled(_, completer, _) =>
      match completer
      case CompleteWith(inner) => r := ValueComplete(env, inner, args);
      case PluginCompleter(id) => r := env.pluginComplete(id, env.source, args.Model());
      case NoCompletions => r := Ok([]);
  }

  /** `complete` of any parameter; a SpongeParameter passes its value parameter's completions through each modifier. */
  method CompleteParameter(env: Env, flags: Flags, p: Parameter, args: SpongeTokenizedArgs, context: SpongeCommandExecutionContext)
    returns (r: Result<seq<string>>)
    requires Ready(env, args, context)
    modifies args, context
    ensures Ready(env, args, context)
    ensures (StateOf(args, context), r) == Complete(env, flags, p, old(StateOf(args, context)))
    decreases p, 2, 0, 0
  {
    match p
    case Single(_, mods, vp) =>
      r := ValueComplete(env, vp, args);
      if r.Err? {
        return;
      }
      var c := args.Model();
      var completions := r.value;
      for i := 0 to |mods|
        invariant ModifierCompletions(env, c, mods, 0, r.value) == ModifierCompletions(env, c, mods, i, completions)
      {
        match mods[i]
        case PermissionModifier(_) => completions := [];
        case DefaultValueModifier(_) =>
        case PluginModifier(id) =>
          var answer := env.pluginModifierComplete(id, env.source, c, completions);
          if answer.Err? {
            return Err(answer.failure);
          }
          completions := answer.value;
      }
      r := Ok(completions);
    case Sequence(_) => r := SequenceComplete(env, flags, p, args, context);
    case FirstOf(_) => r := FirstOfComplete(env, flags, p, args, context);
  }

  method CompleteElementAfterFailure(env: Env, flags: Flags, elem: Parameter, args: SpongeTokenizedArgs, context: SpongeCommandExecutionContext, start: StateObject)
    returns (r: Result<seq<string>>)
    requires Ready(env, args, context)
    modifies args, context
    ensures Ready(env, args, context)
    ensures (StateOf(args, context), r) == CompleteAfterFailure(env, flags, elem, old(StateOf(args, context)), start)
    decreases elem, 3, 0, 0
  {
    var o := args.SetState(start);
    if o.Fail? {
      return Err(o.failure);
    }
    assert CompleteAfterFailure(env, flags, elem, old(StateOf(args, context)), start) == Complete(env, flags, elem, StateOf(args, context));
    r := CompleteParameter(env, flags, elem, args, context);
  }

  method SequenceComplete(env: Env, flags: Flags, p: Parameter, args: SpongeTokenizedArgs, context: SpongeCommandExecutionContext)
    returns (r: Result<seq<string>>)
    requires p.Sequence? && Ready(env, args, context)
    modifies args, context
    ensures Ready(env, args, context)
    ensures (StateOf(args, context), r) == SequenceCompleteFrom(env, flags, p, 0, old(StateOf(args, context)))
    decreases p, 1, |p.parameters|, 2
  {
    var i := 0;
    while i < |p.parameters|
      invariant i <= |p.parameters| && Ready(env, args, context)
      invariant SequenceCompleteFrom(env, flags, p, 0, old(StateOf(args, context))) == SequenceCompleteFrom(env, flags, p, i, StateOf(args, context))
    {
      var element := p.parameters[i];
      var startState := args.GetState();
      var parsed := ParseParameter(env, flags, element, args, context);
      if parsed.Fail? {
        if parsed.failure.ParseError? {
          r := CompleteElementAfterFailure(env, flags, element, args, context, startState);
        } else {
          r := Err(parsed.failure);
        }
        return;
      }
      if !args.HasNext() {
        var endState := args.GetState();
        var o := args.SetState(startState);
        if o.Fail? {
          return Err(o.failure);
        }
        var inputs := CompleteParameter(env, flags, element, args, context);
        if inputs.Err? {
          if inputs.failure.ParseError? {
            r := CompleteElementAfterFailure(env, flags, element, args, context, startState);
          } else {
            r := inputs;
          }
          return;
        }
        var back := args.Previous();
        if back.Err? {
          return Err(back.failure);
        }
        var last := args.Next();
        if last.value !in inputs.value {
          return inputs;
        }
        o := args.SetState(endState);
      }
      if i + 1 == |p.parameters| {
        var o := args.SetState(startState);
        if o.Fail? {
          return Err(o.failure);
        }
      }
      i := i + 1;
    }
    r := Ok([]);
  }

  method FirstOfComplete(env: Env, flags: Flags, p: Parameter, args: SpongeTokenizedArgs, context: SpongeCommandExecutionContext)
    returns (r: Result<seq<string>>)
    requires p.FirstOf? && Ready(env, args, context)
    modifies args, context
    ensures Ready(env, args, context)
    ensures (StateOf(args, context), r) == FirstOfCompleteFrom(env, flags, p, 0, old(StateOf(args, context)), [])
    decreases p, 1, |p.parameters|, 1
  {
    var completions := [];
    var i := 0;
    while i < |p.parameters|
      invariant i <= |p.parameters| && Ready(env, args, context)
      invariant FirstOfCompleteFrom(env, flags, p, 0, old(StateOf(args, context)), []) == FirstOfCompleteFrom(env, flags, p, i, StateOf(args, context), completions)
    {
      var state := context.GetState();
      var these := CompleteParameter(env, flags, p.parameters[i], args, context);
      var _ := context.SetState(state);
      if these.Err? {
        return Err(these.failure);
      }
      completions := completions + these.value;
      i := i + 1;
    }
    r := Ok(completions);
  }

  // Usage.

  /** `getUsage` of any parameter. */
  method GetUsage(env: Env, p: Parameter) returns (u: string)
    ensures u == Usage(env, p)
    decreases p, 1
  {
    match p
    case Single(key, mods, vp) =>
      u := ValueUsage(env, vp, key);
      for i := 0 to |mods|
        invariant ModifierUsage(env, key, mods, 0, ValueUsage(env, vp, key)) == ModifierUsage(env, key, mods, i, u)
      {
        match mods[i]
        case PermissionModifier(perm) =>
          if !HasPermission(env.source, perm) {
            u := "";
          }
        case DefaultValueModifier(_) =>
        case PluginModifier(id) => u := env.pluginModifierUsage(id, key, env.source, u);
      }
    case Sequence(_) => u := SequenceUsage(env, p);
    case FirstOf(_) => u := FirstOfUsage(env, p);
  }

  /** The elements' usages that are not empty, joined with spaces. */
  method SequenceUsage(env: Env, p: Parameter) returns (u: string)
    requires p.Sequence?
    ensures u == Usage(env, p)
    decreases p, 0
  {
    var usages := [];
    for i := 0 to |p.parameters|
      invariant usages == NonEmpty(Usages(env, p)[..i])
    {
      var usage := GetUsage(env, p.parameters[i]);
      assert Usages(env, p)[..i + 1] == Usages(env, p)[..i] + [usage];
      NonEmptyAppend(Usages(env, p)[..i], usage);
      if usage != "" {
        usages := usages + [usage];
      }
    }
    assert Usages(env, p)[..|p.parameters|] == Usages(env, p);
    u := Join(usages, " ");
  }

  /** A text builder: "(", then the usages that are not empty with "|" between them, then ")". */
  method FirstOfUsage(env: Env, p: Parameter) returns (u: string)
    requires p.FirstOf?
    ensures u == Usage(env, p)
    decreases p, 0
  {
    var builder := "(";
    var isFirst := true;
    ghost var shown := [];
    for i := 0 to |p.parameters|
      invariant shown == NonEmpty(Usages(env, p)[..i])
      invariant isFirst <==> |shown| == 0
      invariant builder == "(" + Join(shown, "|")
    {
      var usage := GetUsage(env, p.parameters[i]);
      assert Usages(env, p)[..i + 1] == Usages(env, p)[..i] + [usage];
      NonEmptyAppend(Usages(env, p)[..i], usage);
      if usage != "" {
        BuilderStep(builder, shown, usage);
        if isFirst {
          isFirst := false;
        } else {
          builder := builder + "|";
        }
        builder := builder + usage;
        shown := shown + [usage];
      }
    }
    assert Usages(env, p)[..|p.parameters|] == Usages(env, p);
    u := builder + ")";
  }

  lemma BuilderStep(builder: string, shown: seq<string>, usage: string)
    requires builder == "(" + Join(shown, "|")
    ensures |shown| == 0 ==> builder + usage == "(" + Join(shown + [usage], "|")
    ensures |shown| > 0 ==> builder + "|" + usage == "(" + Join(shown + [usage], "|")
  {
    if |shown| == 0 {
      assert shown + [usage] == [usage];
      assert builder == "(";
    } else {
      JoinAppend(shown, usage, "|");
      ConcatAssoc("(", Join(shown, "|"), "|", usage);
    }
  }

  lemma ConcatAssoc(a: string, b: string, c: string, d: string)
    ensures a + b + c + d == a + (b + c + d)
  {
  }

  lemma {:induction false} JoinAppend(parts: seq<string>, x: string, sep: string)
    ensures Join(parts + [x], sep) == if parts == [] then x else Join(parts, sep) + sep + x
    decreases |parts|
  {
    if |parts| > 1 {
      assert (parts + [x])[1..] == parts[1..] + [x];
      JoinAppend(parts[1..], x, sep);
    } else if |parts| == 1 {
      assert parts + [x] == [parts[0], x];
    }
  }
}
