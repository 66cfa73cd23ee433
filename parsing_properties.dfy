// Properties of parsing, completing and describing parameter trees.
module ParsingProperties {
  import opened Common
  import opened JavaLang
  import opened TokenizedArgs
  import opened ExecutionContext
  import opened FlagBehaviors
  import opened Parsing

  // The modifier chain.

  /** A parameter's chain stores values under its own key only, whatever the outcome. */
  lemma {:induction false} ChainTouchesOnlyItsKey(env: Env, key: string, mods: seq<Modifier>, i: nat, vp: ValueParameter, st: PState, other: string)
    requires i <= |mods| && st.cur.Valid() && other != key
    ensures ValuesOf(Chain(env, key, mods, i, vp, st).0.entries, other) == ValuesOf(st.entries, other)
    decreases |mods| - i
  {
    if i < |mods| {
      ChainTouchesOnlyItsKey(env, key, mods, i + 1, vp, st, other);
    }
  }

  /**
   * A permission the source lacks stops the chain at that modifier: no token
   * is read, and when only default-value modifiers come before it the parse
   * succeeds, with at most their defaults stored.
   */
  lemma {:induction false} DeniedPermissionReadsNothing(env: Env, key: string, mods: seq<Modifier>, i: nat, j: nat, vp: ValueParameter, st: PState)
    requires i <= j < |mods| && st.cur.Valid()
    requires mods[j].PermissionModifier? && !HasPermission(env.source, mods[j].permission)
    ensures Chain(env, key, mods, i, vp, st).0.cur == st.cur
    ensures (forall k :: i <= k < j ==> mods[k].DefaultValueModifier?) ==> Chain(env, key, mods, i, vp, st).1 == Pass
    decreases j - i
  {
    if i < j {
      DeniedPermissionReadsNothing(env, key, mods, i + 1, j, vp, st);
    }
  }

  /** After a default-value modifier succeeds, the key holds at least one value. */
  lemma DefaultLeavesAValue(env: Env, key: string, mods: seq<Modifier>, i: nat, vp: ValueParameter, st: PState)
    requires i < |mods| && st.cur.Valid() && mods[i].DefaultValueModifier?
    ensures Chain(env, key, mods, i, vp, st).1.Pass? ==> |ValuesOf(Chain(env, key, mods, i, vp, st).0.entries, key)| > 0
  {
  }

  /** The chain from modifier i is the chain of the list without its first d modifiers, from i - d. */
  lemma {:induction false} ChainDrop(env: Env, key: string, mods: seq<Modifier>, d: nat, i: nat, vp: ValueParameter, st: PState)
    requires d <= i <= |mods| && st.cur.Valid()
    ensures Chain(env, key, mods, i, vp, st) == Chain(env, key, mods[d..], i - d, vp, st)
    decreases |mods| - i
  {
    if i < |mods| {
      assert mods[d..][i - d] == mods[i];
      ChainDrop(env, key, mods, d, i + 1, vp, st);
    }
  }

  /** A default in front of a denied permission: the default is stored and no token is read. */
  lemma DefaultStandsInForDeniedPermission(env: Env, key: string, d: Value, perm: string, vp: ValueParameter, st: PState)
    requires st.cur.Valid() && !HasPermission(env.source, perm) && ValuesOf(st.entries, key) == []
    ensures Parse(env, Flags([], map[], ErrorBehavior, ErrorBehavior, true),
                  Single(key, [DefaultValueModifier(d), PermissionModifier(perm)], vp), st)
            == (PState(st.cur, Put(st.entries, key, d)), Pass)
  {
    var mods := [DefaultValueModifier(d), PermissionModifier(perm)];
    assert Chain(env, key, mods, 1, vp, st) == (st, Pass);
  }

  /** Without modifiers, a parameter stores the value it parsed, and an absent value is an error. */
  lemma PlainParameterStoresItsValue(env: Env, key: string, vp: ValueParameter, st: PState)
    requires st.cur.Valid()
    ensures var (c, v) := ValueOf(env, vp, st.cur);
      var (st', o) := Chain(env, key, [], 0, vp, st);
      (o.Pass? <==> v.Ok? && v.value.Some?)
      && st'.cur == c
      && (o.Pass? ==> ValuesOf(st'.entries, key) == ValuesOf(st.entries, key) + [v.value.value])
      && (o.Fail? ==> st'.entries == st.entries)
  {
  }

  // First-of.

  /** A first-of parameter never fails catchably: running out of alternatives crashes, so no enclosing first-of can move on. */
  lemma {:induction false} FirstOfNeverFailsCatchably(env: Env, flags: Flags, p: Parameter, i: nat, st: PState)
    requires p.FirstOf? && i <= |p.parameters| && st.cur.Valid()
    ensures FirstOfFrom(env, flags, p, i, st).1.Fail? ==> FirstOfFrom(env, flags, p, i, st).1.failure.Crash?
    decreases |p.parameters| - i
  {
    if i < |p.parameters| {
      var (st1, o1) := Parse(env, flags, p.parameters[i], st);
      if o1.Fail? && o1.failure.ParseError? {
        FirstOfNeverFailsCatchably(env, flags, p, i + 1, PState(st1.cur, Restored(st.entries)));
      }
    }
  }

  /** An alternative that succeeds is the answer; nothing after it is tried. */
  lemma FirstSuccessWins(env: Env, flags: Flags, p: Parameter, i: nat, st: PState)
    requires p.FirstOf? && i < |p.parameters| && st.cur.Valid()
    requires Parse(env, flags, p.parameters[i], st).1.Pass?
    ensures FirstOfFrom(env, flags, p, i, st) == Parse(env, flags, p.parameters[i], st)
  {
  }

  // Flags.

  /**
   * Unanchored flags are read only before the first token: from any later
   * position, parsing is the same as with anchored flags, which a sequence
   * does not parse at all.
   */
  lemma {:induction false} UnanchoredFlagsInertAfterStart(env: Env, flags: Flags, p: Parameter, st: PState)
    requires st.cur.Valid() && HasPreviousToken(st.cur) && !flags.anchorFlags
    ensures Parse(env, flags, p, st) == Parse(env, flags.(anchorFlags := true), p, st)
    decreases Remaining(st.cur), p, 2, 0
  {
    match p
    case Single(_, _, _) =>
    case Sequence(_) => SequenceInertAfterStart(env, flags, p, 0, st);
    case FirstOf(_) => FirstOfInertAfterStart(env, flags, p, 0, st);
  }

  lemma {:induction false} SequenceInertAfterStart(env: Env, flags: Flags, p: Parameter, i: nat, st: PState)
    requires p.Sequence? && i <= |p.parameters|
    requires st.cur.Valid() && HasPreviousToken(st.cur) && !flags.anchorFlags
    ensures SequenceFrom(env, flags, p, i, st) == SequenceFrom(env, flags.(anchorFlags := true), p, i, st)
    decreases Remaining(st.cur), p, 1, |p.parameters| - i
  {
    if i < |p.parameters| {
      UnanchoredFlagsInertAfterStart(env, flags, p.parameters[i], st);
      var (st1, o1) := Parse(env, flags, p.parameters[i], st);
      if o1.Pass? {
        assert FlagsParse(env, flags, p, st1) == (st1, Pass);
        SequenceInertAfterStart(env, flags, p, i + 1, st1);
      }
    }
  }

  lemma {:induction false} FirstOfInertAfterStart(env: Env, flags: Flags, p: Parameter, i: nat, st: PState)
    requires p.FirstOf? && i <= |p.parameters|
    requires st.cur.Valid() && HasPreviousToken(st.cur) && !flags.anchorFlags
    ensures FirstOfFrom(env, flags, p, i, st) == FirstOfFrom(env, flags.(anchorFlags := true), p, i, st)
    decreases Remaining(st.cur), p, 1, |p.parameters| - i
  {
    if i < |p.parameters| {
      UnanchoredFlagsInertAfterStart(env, flags, p.parameters[i], st);
      var (st1, o1) := Parse(env, flags, p.parameters[i], st);
      if o1.Fail? && o1.failure.ParseError? {
        FirstOfInertAfterStart(env, flags, p, i + 1, PState(st1.cur, Restored(st.entries)));
      }
    }
  }

  /** A known flag consumes its token and then parses its own parameter. */
  lemma KnownLongFlagParsesItsParameter(env: Env, flags: Flags, within: Parameter, st: PState)
    requires st.cur.Valid() && !FlagsSkip(flags, st.cur)
    requires var t := st.cur.args[st.cur.index].arg; StartsWith(t, "--") && ToLower(t[2..]) in flags.flags
    ensures var t := st.cur.args[st.cur.index].arg;
      FlagsParse(env, flags, within, st)
      == Parse(env, flags, flags.flags[ToLower(t[2..])], PState(st.cur.(index := st.cur.index + 1), st.entries))
  {
  }

  /**
   * An unknown flag handed to a behaviour is read again from the state saved
   * before it, which a restore puts one token earlier: a flag in first
   * place makes the accepting behaviours crash, and a later one makes them
   * read the token before it as the flag.
   */
  lemma UnknownFlagRereadsEarlierToken(env: Env, flags: Flags, within: Parameter, st: PState)
    requires st.cur.Valid() && !FlagsSkip(flags, st.cur)
    requires var t := st.cur.args[st.cur.index].arg; StartsWith(t, "--") && ToLower(t[2..]) !in flags.flags
    requires flags.longUnknown == AcceptNonValueBehavior
    ensures !HasPreviousToken(st.cur) ==>
      FlagsParse(env, flags, within, st)
      == (PState(st.cur.(index := st.cur.index + 1), st.entries), Fail(Crash("IndexOutOfBoundsException")))
    ensures HasPreviousToken(st.cur) ==>
      FlagsParse(env, flags, within, st)
      == var arg := st.cur.args[st.cur.index - 1].arg;
         if StartsWith(arg, "--") then (PState(st.cur, Put(st.entries, arg[2..], BoolValue(true))), Pass)
         else if |arg| != 2 then (st, Fail(if |arg| < 2 then Crash("StringIndexOutOfBoundsException") else NullThrown))
         else (PState(st.cur, Put(st.entries, [arg[1]], BoolValue(true))), Pass)
  {
    var c1 := st.cur.(index := st.cur.index + 1);
    RereadsTokenBeforeSavedPosition(c1, st.entries, st.cur, env.argsOwner);
  }

  // Sequences.

  /** With anchored flags, nested sequences parse like the sequence of all their elements. */
  lemma SequencesFlatten(env: Env, flags: Flags, a: seq<Parameter>, b: seq<Parameter>, st: PState)
    requires st.cur.Valid() && flags.anchorFlags
    ensures Parse(env, flags, Sequence([Sequence(a), Sequence(b)]), st) == Parse(env, flags, Sequence(a + b), st)
  {
    SequenceSplits(env, flags, a, b, 0, st);
    var outer := Sequence([Sequence(a), Sequence(b)]);
    var (st1, o1) := Parse(env, flags, Sequence(a), st);
    if o1.Pass? {
      var (st2, o2) := Parse(env, flags, Sequence(b), st1);
      assert SequenceFrom(env, flags, outer, 1, st1) == (if o2.Fail? then (st2, o2) else SequenceFrom(env, flags, outer, 2, st2));
    }
  }

  lemma {:induction false} SequenceSplits(env: Env, flags: Flags, a: seq<Parameter>, b: seq<Parameter>, i: nat, st: PState)
    requires st.cur.Valid() && flags.anchorFlags && i <= |a|
    ensures SequenceFrom(env, flags, Sequence(a + b), i, st)
      == var (st1, o1) := SequenceFrom(env, flags, Sequence(a), i, st);
         if o1.Fail? then (st1, o1) else SequenceFrom(env, flags, Sequence(b), 0, st1)
    decreases |a| - i
  {
    if i < |a| {
      assert (a + b)[i] == a[i];
      var (st1, o1) := Parse(env, flags, a[i], st);
      if o1.Pass? {
        SequenceSplits(env, flags, a, b, i + 1, st1);
      }
    } else {
      SequenceTail(env, flags, a, b, 0, st);
    }
  }

  lemma {:induction false} SequenceTail(env: Env, flags: Flags, a: seq<Parameter>, b: seq<Parameter>, j: nat, st: PState)
    requires st.cur.Valid() && flags.anchorFlags && j <= |b|
    ensures SequenceFrom(env, flags, Sequence(a + b), |a| + j, st) == SequenceFrom(env, flags, Sequence(b), j, st)
    decreases |b| - j
  {
    if j < |b| {
      assert (a + b)[|a| + j] == b[j];
      var (st1, o1) := Parse(env, flags, b[j], st);
      if o1.Pass? {
        SequenceTail(env, flags, a, b, j + 1, st1);
      }
    }
  }

  /** A sequence stops at its first failing element: what comes after is not parsed. */
  lemma SequenceStopsAtFailure(env: Env, flags: Flags, p: Parameter, i: nat, st: PState)
    requires p.Sequence? && i < |p.parameters| && st.cur.Valid()
    requires Parse(env, flags, p.parameters[i], st).1.Fail?
    ensures SequenceFrom(env, flags, p, i, st) == Parse(env, flags, p.parameters[i], st)
  {
  }

  // Completion.

  /** A plugin's modifier that passes on whatever completions it is given at the cursor c. */
  ghost predicate PassesCompletions(env: Env, c: Cursor, m: Modifier) {
    m.PluginModifier? ==> forall cs :: env.pluginModifierComplete(m.id, env.source, c, cs) == Ok(cs)
  }

  /** Every plugin modifier from modifier i on passes its completions on. */
  ghost predicate CompletionsPassFrom(env: Env, c: Cursor, mods: seq<Modifier>, i: nat) {
    forall k :: i <= k < |mods| ==> PassesCompletions(env, c, mods[k])
  }

  /**
   * A permission modifier at k discards the completions it is given: the
   * answer from modifier i is what the modifiers after k make of no
   * completions, unless a plugin modifier before k throws.
   */
  lemma {:induction false} CompletionsRestartAfterPermission(env: Env, c: Cursor, mods: seq<Modifier>, i: nat, k: nat, cs: seq<string>)
    requires i <= k < |mods| && mods[k].PermissionModifier?
    ensures ModifierCompletions(env, c, mods, i, cs).Ok? ==> ModifierCompletions(env, c, mods, i, cs) == ModifierCompletions(env, c, mods, k + 1, [])
    ensures (forall j :: i <= j < k ==> !mods[j].PluginModifier?) ==> ModifierCompletions(env, c, mods, i, cs) == ModifierCompletions(env, c, mods, k + 1, [])
    decreases k - i
  {
    if i < k {
      match mods[i]
      case PermissionModifier(_) => CompletionsRestartAfterPermission(env, c, mods, i + 1, k, []);
      case DefaultValueModifier(_) => CompletionsRestartAfterPermission(env, c, mods, i + 1, k, cs);
      case PluginModifier(id) =>
        var answer := env.pluginModifierComplete(id, env.source, c, cs);
        if answer.Ok? {
          CompletionsRestartAfterPermission(env, c, mods, i + 1, k, answer.value);
        }
    }
  }

  /**
   * With plugin modifiers that pass their completions on, a permission
   * modifier anywhere in a parameter's modifiers empties its completions,
   * and otherwise they pass unchanged.
   */
  lemma {:induction false} PermissionEmptiesCompletions(env: Env, c: Cursor, mods: seq<Modifier>, i: nat, cs: seq<string>)
    requires i <= |mods| && CompletionsPassFrom(env, c, mods, i)
    ensures ModifierCompletions(env, c, mods, i, cs)
      == Ok(if exists k :: i <= k < |mods| && mods[k].PermissionModifier? then [] else cs)
    decreases |mods| - i
  {
    if i < |mods| {
      assert PassesCompletions(env, c, mods[i]);
      var next := if mods[i].PermissionModifier? then [] else cs;
      PermissionEmptiesCompletions(env, c, mods, i + 1, next);
      if mods[i].PermissionModifier? {
        EmptyStaysEmpty(env, c, mods, i + 1);
      }
    }
  }

  /** With plugin modifiers that pass their completions on, no modifier turns empty completions into some. */
  lemma {:induction false} EmptyStaysEmpty(env: Env, c: Cursor, mods: seq<Modifier>, i: nat)
    requires i <= |mods| && CompletionsPassFrom(env, c, mods, i)
    ensures ModifierCompletions(env, c, mods, i, []) == Ok([])
    decreases |mods| - i
  {
    if i < |mods| {
      assert PassesCompletions(env, c, mods[i]);
      EmptyStaysEmpty(env, c, mods, i + 1);
    }
  }

  /**
   * Completing a first-of parameter leaves the context's entries as they
   * were before it, whether it succeeds or fails.
   */
  lemma {:induction false} FirstOfCompletionRestoresEntries(env: Env, flags: Flags, p: Parameter, i: nat, st: PState, acc: seq<string>)
    requires p.FirstOf? && i < |p.parameters| && st.cur.Valid()
    ensures FirstOfCompleteFrom(env, flags, p, i, st, acc).0.entries == Restored(st.entries)
    ensures FirstOfCompleteFrom(env, flags, p, i, st, acc).1.Ok? ==> acc <= FirstOfCompleteFrom(env, flags, p, i, st, acc).1.value
    decreases |p.parameters| - i
  {
    var (st1, r1) := Complete(env, flags, p.parameters[i], st);
    var st2 := PState(st1.cur, Restored(st.entries));
    if r1.Ok? && i + 1 < |p.parameters| {
      FirstOfCompletionRestoresEntries(env, flags, p, i + 1, st2, acc + r1.value);
      RestoreSnapshot(Restored(st.entries));
    }
  }

  /**
   * An element of a sequence that fails to parse is completed from one
   * token before where it started; from the very first token the restore
   * crashes.
   */
  lemma FailedElementCompletesFromEarlierToken(env: Env, flags: Flags, p: Parameter, i: nat, st: PState)
    requires p.Sequence? && i < |p.parameters| && st.cur.Valid()
    requires Parse(env, flags, p.parameters[i], st).1.Fail? && Parse(env, flags, p.parameters[i], st).1.failure.ParseError?
    ensures var st1 := Parse(env, flags, p.parameters[i], st).0;
      SequenceCompleteFrom(env, flags, p, i, st)
      == if HasPreviousToken(st.cur) then Complete(env, flags, p.parameters[i], PState(st1.cur.(index := st.cur.index - 1), st1.entries))
         else (st1, Err(Crash("IndexOutOfBoundsException")))
  {
    var st1 := Parse(env, flags, p.parameters[i], st).0;
    RestoreLandsOneEarlier(st.cur, st1.cur, env.argsOwner);
  }

  // Usage.

  /** A plugin's modifier that passes on whatever usage it is given for the key. */
  ghost predicate PassesUsage(env: Env, key: string, m: Modifier) {
    m.PluginModifier? ==> forall u :: env.pluginModifierUsage(m.id, key, env.source, u) == u
  }

  /** Every plugin modifier from modifier i on passes its usage on. */
  ghost predicate UsagePassesFrom(env: Env, key: string, mods: seq<Modifier>, i: nat) {
    forall k :: i <= k < |mods| ==> PassesUsage(env, key, mods[k])
  }

  /**
   * A permission modifier at k that the source lacks discards the usage it
   * is given: the usage from modifier i is what the modifiers after k make
   * of the empty usage, whatever the modifiers before k did.
   */
  lemma {:induction false} UsageRestartsAfterDeniedPermission(env: Env, key: string, mods: seq<Modifier>, i: nat, k: nat, usage: string)
    requires i <= k < |mods| && mods[k].PermissionModifier? && !HasPermission(env.source, mods[k].permission)
    ensures ModifierUsage(env, key, mods, i, usage) == ModifierUsage(env, key, mods, k + 1, "")
    decreases k - i
  {
    if i < k {
      UsageRestartsAfterDeniedPermission(env, key, mods, i + 1, k, ModifierStepUsage(env, key, mods[i], usage));
    }
  }

  /**
   * With plugin modifiers that pass their usage on, a permission modifier
   * the source lacks hides the usage, and otherwise it is unchanged.
   */
  lemma {:induction false} DeniedPermissionHidesUsage(env: Env, key: string, mods: seq<Modifier>, i: nat, usage: string)
    requires i <= |mods| && UsagePassesFrom(env, key, mods, i)
    ensures ModifierUsage(env, key, mods, i, usage)
      == if exists k :: i <= k < |mods| && mods[k].PermissionModifier? && !HasPermission(env.source, mods[k].permission) then "" else usage
    decreases |mods| - i
  {
    if i < |mods| {
      assert PassesUsage(env, key, mods[i]);
      var next := ModifierStepUsage(env, key, mods[i], usage);
      DeniedPermissionHidesUsage(env, key, mods, i + 1, next);
      if next == "" {
        HiddenStaysHidden(env, key, mods, i + 1);
      }
    }
  }

  /** The modifiers' usage from modifier i is that of the list without its first d modifiers, from i - d. */
  lemma {:induction false} ModifierUsageDrop(env: Env, key: string, mods: seq<Modifier>, d: nat, i: nat, usage: string)
    requires d <= i <= |mods|
    ensures ModifierUsage(env, key, mods, i, usage) == ModifierUsage(env, key, mods[d..], i - d, usage)
    decreases |mods| - i
  {
    if i < |mods| {
      assert mods[d..][i - d] == mods[i];
      ModifierUsageDrop(env, key, mods, d, i + 1, ModifierStepUsage(env, key, mods[i], usage));
    }
  }

  /** With plugin modifiers that pass their usage on, no modifier turns an empty usage into a visible one. */
  lemma {:induction false} HiddenStaysHidden(env: Env, key: string, mods: seq<Modifier>, i: nat)
    requires i <= |mods| && UsagePassesFrom(env, key, mods, i)
    ensures ModifierUsage(env, key, mods, i, "") == ""
    decreases |mods| - i
  {
    if i < |mods| {
      assert PassesUsage(env, key, mods[i]);
      HiddenStaysHidden(env, key, mods, i + 1);
    }
  }

  /** The usage of a sequence names every element with a usage, separated by spaces. */
  lemma SequenceUsageListsElements(env: Env, ps: seq<Parameter>)
    ensures forall k :: 0 <= k < |ps| && Usage(env, ps[k]) != "" ==> Usage(env, ps[k]) in NonEmpty(Usages(env, Sequence(ps)))
  {
    var us := Usages(env, Sequence(ps));
    forall k | 0 <= k < |ps| && Usage(env, ps[k]) != ""
      ensures Usage(env, ps[k]) in NonEmpty(us)
    {
      assert us[k] in us;
    }
  }

  /** A first-of parameter whose alternatives all have empty usages shows empty parentheses. */
  lemma EmptyAlternativesShowParentheses(env: Env, ps: seq<Parameter>)
    requires forall k :: 0 <= k < |ps| ==> Usage(env, ps[k]) == ""
    ensures Usage(env, FirstOf(ps)) == "()"
  {
    OnlyEmptyUsages(Usages(env, FirstOf(ps)));
  }

  lemma {:induction false} OnlyEmptyUsages(parts: seq<string>)
    requires forall k :: 0 <= k < |parts| ==> parts[k] == ""
    ensures NonEmpty(parts) == []
    decreases |parts|
  {
    if |parts| > 0 {
      OnlyEmptyUsages(parts[1..]);
    }
  }
}
