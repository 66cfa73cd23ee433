// SpongeParameterBuilder: the builder of a single parameter, with the
// PermissionModifier it puts in front of the modifiers when a permission is
// set, and the DefaultValueModifier's construction rule.
module ParameterBuilder {
  import opened Common
  import opened TokenizedArgs
  import opened ExecutionContext
  import opened Parsing
  import ParsingProperties

  /**
   * The builder's fields. A plugin's plain parser, completer and usage
   * function are known by number; `None` is a null field.
   */
  datatype Fields = Fields(
    key: Option<string>,
    valueParameter: Option<ValueParameter>,
    parser: Option<nat>,
    completer: Option<nat>,
    usage: Option<nat>,
    modifiers: seq<Modifier>,
    permission: Option<string>)

  /** The modifiers a built parameter runs: the permission's modifier first, when there is a permission. */
  function ModifiersToUse(f: Fields): (r: seq<Modifier>)
    ensures f.permission.None? ==> r == f.modifiers
    ensures f.permission.Some? ==> |r| == |f.modifiers| + 1 && r[0] == PermissionModifier(f.permission.value) && r[1..] == f.modifiers
  {
    if f.permission.Some? then [PermissionModifier(f.permission.value)] + f.modifiers else f.modifiers
  }

  /**
   * The value parameter of a built parameter: the one that was set, when
   * neither a completer nor a usage was given; otherwise one put together
   * from the parser, the completer and the usage, where a missing completer
   * or usage is the value parameter's own, or for a plain parser no
   * completions and the key.
   */
  function ValueParameterToUse(f: Fields): ValueParameter
    requires f.valueParameter.Some? || f.parser.Some?
  {
    match f.valueParameter
    case Some(vp) =>
      if f.usage.None? && f.completer.None? then vp
      else Assembled(ParameterParser(vp),
                     if f.completer.Some? then PluginCompleter(f.completer.value) else CompleteWith(vp),
                     if f.usage.Some? then PluginUsage(f.usage.value) else UsageOf(vp))
    case None =>
      Assembled(PlainParser(f.parser.value),
                if f.completer.Some? then PluginCompleter(f.completer.value) else NoCompletions,
                if f.usage.Some? then PluginUsage(f.usage.value) else KeyUsage)
  }

  /** `build`: a key and a parser (a value parameter or a plain one) must have been set. */
  function Built(f: Fields): (r: Result<Parameter>)
    ensures r.Ok? <==> f.key.Some? && (f.valueParameter.Some? || f.parser.Some?)
    ensures r.Err? ==> r.failure == Crash("IllegalStateException")
    ensures r.Ok? ==> r.value.Single? && r.value.key == f.key.value && r.value.modifiers == ModifiersToUse(f)
  {
    if f.key.None? || (f.valueParameter.None? && f.parser.None?) then Err(Crash("IllegalStateException"))
    else Ok(Single(f.key.value, ModifiersToUse(f), ValueParameterToUse(f)))
  }

  /** DefaultValueModifier's constructor refuses a null default. */
  function NewDefaultValueModifier(defaultValue: Option<Value>): (r: Result<Modifier>)
    ensures r.Ok? <==> defaultValue.Some?
    ensures r.Ok? ==> r.value == DefaultValueModifier(defaultValue.value)
    ensures r.Err? ==> r.failure == Crash("NullPointerException")
  {
    match defaultValue
    case None => Err(Crash("NullPointerException"))
    case Some(d) => Ok(DefaultValueModifier(d))
  }

  const EMPTY: Fields := Fields(None, None, None, None, None, [], None)

  class SpongeParameterBuilder {
    var key: Option<string>
    var valueParameter: Option<ValueParameter>
    var parser: Option<nat>
    var completer: Option<nat>
    var usage: Option<nat>
    var modifiers: seq<Modifier>
    var permission: Option<string>

    function Snapshot(): Fields
      reads this
    {
      Fields(key, valueParameter, parser, completer, usage, modifiers, permission)
    }

    constructor ()
      ensures Snapshot() == EMPTY
    {
      key, valueParameter, parser, completer, usage, modifiers, permission := None, None, None, None, None, [], None;
    }

    method SetKey(k: string)
      modifies this
      ensures Snapshot() == old(Snapshot()).(key := Some(k))
    {
      key := Some(k);
    }

    /** `parser`: a value parameter clears the plain parser and the other way round. */
    method SetParser(p: ValueParser)
      modifies this
      ensures p.ParameterParser? ==> Snapshot() == old(Snapshot()).(valueParameter := Some(p.vp), parser := None)
      ensures p.PlainParser? ==> Snapshot() == old(Snapshot()).(valueParameter := None, parser := Some(p.id))
    {
      match p
      case ParameterParser(vp) =>
        valueParameter := Some(vp);
        parser := None;
      case PlainParser(id) =>
        parser := Some(id);
        valueParameter := None;
    }

    method OnComplete(c: Option<nat>)
      modifies this
      ensures Snapshot() == old(Snapshot()).(completer := c)
    {
      completer := c;
    }

    method SetUsage(u: Option<nat>)
      modifies this
      ensures Snapshot() == old(Snapshot()).(usage := u)
    {
      usage := u;
    }

    method AddModifiers(ms: seq<Modifier>)
      modifies this
      ensures Snapshot() == old(Snapshot()).(modifiers := old(modifiers) + ms)
    {
      modifiers := modifiers + ms;
    }

    method AddModifierToBeginning(m: Modifier)
      modifies this
      ensures Snapshot() == old(Snapshot()).(modifiers := [m] + old(modifiers))
    {
      modifiers := [m] + modifiers;
    }

    method SetPermission(p: Option<string>)
      modifies this
      ensures Snapshot() == old(Snapshot()).(permission := p)
    {
      permission := p;
    }

    /** `build` works on a copy of the modifier list; the builder is left as it was. */
    method Build() returns (r: Result<Parameter>)
      ensures r == Built(Snapshot())
    {
      if key.None? {
        return Err(Crash("IllegalStateException"));
      }
      if valueParameter.None? && parser.None? {
        return Err(Crash("IllegalStateException"));
      }
      var modifiersToUse := modifiers;
      if permission.Some? {
        modifiersToUse := [PermissionModifier(permission.value)] + modifiersToUse;
      }
      if valueParameter.Some? && usage.None? && completer.None? {
        return Ok(Single(key.value, modifiersToUse, valueParameter.value));
      }
      var parserToUse, completerToUse, usageToUse;
      if valueParameter.Some? {
        parserToUse := ParameterParser(valueParameter.value);
        completerToUse := if completer.None? then CompleteWith(valueParameter.value) else PluginCompleter(completer.value);
        usageToUse := if usage.None? then UsageOf(valueParameter.value) else PluginUsage(usage.value);
      } else {
        parserToUse := PlainParser(parser.value);
        completerToUse := if completer.None? then NoCompletions else PluginCompleter(completer.value);
        usageToUse := if usage.None? then KeyUsage else PluginUsage(usage.value);
      }
      r := Ok(Single(key.value, modifiersToUse, Assembled(parserToUse, completerToUse, usageToUse)));
    }

    method Reset()
      modifies this
      ensures Snapshot() == EMPTY
    {
      key, valueParameter, parser, completer, usage, modifiers, permission := None, None, None, None, None, [], None;
    }
  }

  // Properties of a built parameter.

  /**
   * However a value parameter is wrapped, its value is the value
   * parameter's; its completions and usage are the given completer's and
   * usage's, or else the value parameter's own.
   */
  lemma WrappedValueParameterKeepsItsMeaning(env: Env, f: Fields, c: Cursor, k: string)
    requires f.valueParameter.Some? && c.Valid()
    ensures ValueOf(env, ValueParameterToUse(f), c) == ValueOf(env, f.valueParameter.value, c)
    ensures ValueCompletions(env, ValueParameterToUse(f), c) ==
      if f.completer.Some? then (c, env.pluginComplete(f.completer.value, env.source, c))
      else ValueCompletions(env, f.valueParameter.value, c)
    ensures ValueUsage(env, ValueParameterToUse(f), k) ==
      if f.usage.Some? then env.pluginUsage(f.usage.value, k, env.source)
      else ValueUsage(env, f.valueParameter.value, k)
  {
  }

  /** A plain parser reads what the plugin reads; by default it completes nothing and its usage is the key. */
  lemma PlainParserDefaults(env: Env, f: Fields, c: Cursor, k: string)
    requires f.valueParameter.None? && f.parser.Some? && c.Valid()
    ensures ValueOf(env, ValueParameterToUse(f), c) == PluginValue(env, f.parser.value, c)
    ensures f.completer.None? ==> ValueCompletions(env, ValueParameterToUse(f), c) == (c, Ok([]))
    ensures f.usage.None? ==> ValueUsage(env, ValueParameterToUse(f), k) == k
  {
  }

  /**
   * A permission the source lacks: the built parameter reads no token,
   * stores nothing and succeeds. Its usage and completions are what the
   * modifiers after the permission make of the empty usage and of no
   * completions (a permission modifier answers no completions whatever the
   * source holds); when those modifiers pass their input on, it shows no
   * usage and completes to nothing.
   */
  lemma MissingPermissionSilencesParameter(env: Env, flags: Flags, f: Fields, st: PState)
    requires Built(f).Ok? && f.permission.Some? && !HasPermission(env.source, f.permission.value)
    requires st.cur.Valid()
    ensures Parse(env, flags, Built(f).value, st) == (st, Pass)
    ensures var p := Built(f).value;
      Usage(env, p) == ModifierUsage(env, p.key, p.modifiers, 1, "")
    ensures var p := Built(f).value;
      ParsingProperties.UsagePassesFrom(env, p.key, p.modifiers, 1) ==> Usage(env, p) == ""
    ensures var p := Built(f).value;
      var (c, cs) := ValueCompletions(env, p.valueParameter, st.cur);
      Complete(env, flags, p, st).1 == if cs.Err? then Err(cs.failure) else ModifierCompletions(env, c, p.modifiers, 1, [])
    ensures var p := Built(f).value;
      var (c, cs) := ValueCompletions(env, p.valueParameter, st.cur);
      ParsingProperties.CompletionsPassFrom(env, c, p.modifiers, 1) ==> Complete(env, flags, p, st).1 == if cs.Err? then Err(cs.failure) else Ok([])
  {
    var p := Built(f).value;
    var mods := p.modifiers;
    assert mods[0] == PermissionModifier(f.permission.value);
    ParsingProperties.UsageRestartsAfterDeniedPermission(env, p.key, mods, 0, 0, ValueUsage(env, p.valueParameter, p.key));
    if ParsingProperties.UsagePassesFrom(env, p.key, mods, 1) {
      ParsingProperties.HiddenStaysHidden(env, p.key, mods, 1);
    }
    var (c, cs) := ValueCompletions(env, p.valueParameter, st.cur);
    if cs.Ok? {
      ParsingProperties.CompletionsRestartAfterPermission(env, c, mods, 0, 0, cs.value);
      if ParsingProperties.CompletionsPassFrom(env, c, mods, 1) {
        ParsingProperties.EmptyStaysEmpty(env, c, mods, 1);
      }
    }
  }

  /** A permission the source holds changes nothing about parsing or usage. */
  lemma HeldPermissionIsTransparent(env: Env, flags: Flags, f: Fields, st: PState)
    requires Built(f).Ok? && f.permission.Some? && HasPermission(env.source, f.permission.value)
    requires st.cur.Valid()
    ensures Parse(env, flags, Built(f).value, st) == Parse(env, flags, Built(f.(permission := None)).value, st)
    ensures Usage(env, Built(f).value) == Usage(env, Built(f.(permission := None)).value)
  {
    var p := Built(f).value;
    var q := Built(f.(permission := None)).value;
    assert p.modifiers[1..] == q.modifiers && p.key == q.key && p.valueParameter == q.valueParameter;
    ParsingProperties.ChainDrop(env, p.key, p.modifiers, 1, 1, p.valueParameter, st);
    var u := ValueUsage(env, p.valueParameter, p.key);
    assert ModifierStepUsage(env, p.key, p.modifiers[0], u) == u;
    ParsingProperties.ModifierUsageDrop(env, p.key, p.modifiers, 1, 1, u);
  }
}
