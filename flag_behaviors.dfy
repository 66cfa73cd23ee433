// The two unknown-flag behaviours: an unknown flag is stored as a value
// flag (AcceptValueBehavior) or as a boolean flag (AcceptNonValueBehavior).
// Both first hand the saved cursor state back to the cursor and read the
// flag token again.
module FlagBehaviors {
  import opened Common
  import opened JavaLang
  import opened TokenizedArgs
  import opened ExecutionContext

  /** What a behaviour leaves behind: the cursor and the context's entries. */
  datatype Effect = Effect(cur: Cursor, entries: Entries)

  ghost predicate SameLine(c: Cursor, d: Cursor) {
    d.Valid() && d.args == c.args && d.raw == c.raw
  }

  /**
   * AcceptValueBehavior.parse: `--name` stores name -> the next token and
   * `-p` stores p -> the next token (the source falls back to the name when
   * none follows, but its `nextIfPresent` fails first); `-pVALUE` stores
   * p -> VALUE. Keys keep their case.
   */
  function AcceptValue(c: Cursor, e: Entries, saved: StateObject, owner: object): (r: (Effect, Outcome))
    requires c.Valid()
    ensures SameLine(c, r.0.cur)
    ensures r.1.Fail? ==> r.1.failure.Crash? && r.0.entries == e
    ensures r.1.Pass? ==> saved.ArgsState? && saved.index + 1 <= r.0.cur.index
  {
    var (c0, restored) := CursorRestore(c, saved, owner);
    if restored.Fail? then (Effect(c0, e), restored)
    else
      var (c1, t) := CursorNext(c0);
      match t
      case Err(f) => (Effect(c1, e), Fail(f))
      case Ok(arg) =>
        if StartsWith(arg, "--") then
          var (c2, n) := CursorNextIfPresent(c1);
          match n
          case Err(f) => (Effect(c2, e), Fail(f))
          case Ok(v) => (Effect(c2, Put(e, arg[2..], TextValue(if v.Some? then v.value else arg[2..]))), Pass)
        else if |arg| != 2 then
          if |arg| < 2 then (Effect(c1, e), Fail(Crash("StringIndexOutOfBoundsException")))
          else (Effect(c1, Put(e, [arg[1]], TextValue(arg[2..]))), Pass)
        else
          var (c2, n) := CursorNextIfPresent(c1);
          match n
          case Err(f) => (Effect(c2, e), Fail(f))
          case Ok(v) => (Effect(c2, Put(e, arg[1..], TextValue(if v.Some? then v.value else arg[1..]))), Pass)
  }

  /**
   * AcceptNonValueBehavior.parse: `--name` stores name -> true and `-p`
   * stores p -> true; a short flag with more characters is refused.
   */
  function AcceptNonValue(c: Cursor, e: Entries, saved: StateObject, owner: object): (r: (Effect, Outcome))
    requires c.Valid()
    ensures SameLine(c, r.0.cur)
    ensures r.1.Fail? ==> r.1.failure.Crash? && r.0.entries == e
    ensures r.1.Pass? ==> saved.ArgsState? && r.0.cur.index == saved.index + 1
  {
    var (c0, restored) := CursorRestore(c, saved, owner);
    if restored.Fail? then (Effect(c0, e), restored)
    else
      var (c1, t) := CursorNext(c0);
      match t
      case Err(f) => (Effect(c1, e), Fail(f))
      case Ok(arg) =>
        if StartsWith(arg, "--") then (Effect(c1, Put(e, arg[2..], BoolValue(true))), Pass)
        else if |arg| != 2 then (Effect(c1, e), Fail(if |arg| < 2 then Crash("StringIndexOutOfBoundsException") else NullThrown))
        else (Effect(c1, Put(e, [arg[1]], BoolValue(true))), Pass)
  }

  method AcceptValueParse(args: SpongeTokenizedArgs, context: SpongeCommandExecutionContext, saved: StateObject)
    returns (o: Outcome)
    requires args.Valid() && context.Valid()
    modifies args, context
    ensures args.Valid() && context.Valid()
    ensures (Effect(args.Model(), context.parsedArgs), o) == AcceptValue(old(args.Model()), old(context.parsedArgs), saved, args)
  {
    o := args.SetState(saved);
    if o.Fail? {
      return;
    }
    var t := args.Next();
    if t.Err? {
      return Fail(t.failure);
    }
    var arg := t.value;
    if StartsWith(arg, "--") {
      var n := args.NextIfPresent();
      if n.Err? {
        return Fail(n.failure);
      }
      o := context.PutEntry(arg[2..], Some(TextValue(n.value.value)));
      return;
    }
    if |arg| != 2 {
      if |arg| < 2 {
        return Fail(Crash("StringIndexOutOfBoundsException"));
      }
      o := context.PutEntry([arg[1]], Some(TextValue(arg[2..])));
    } else {
      var n := args.NextIfPresent();
      if n.Err? {
        return Fail(n.failure);
      }
      o := context.PutEntry(arg[1..], Some(TextValue(n.value.value)));
    }
  }

  method AcceptNonValueParse(args: SpongeTokenizedArgs, context: SpongeCommandExecutionContext, saved: StateObject)
    returns (o: Outcome)
    requires args.Valid() && context.Valid()
    modifies args, context
    ensures args.Valid() && context.Valid()
    ensures (Effect(args.Model(), context.parsedArgs), o) == AcceptNonValue(old(args.Model()), old(context.parsedArgs), saved, args)
  {
    o := args.SetState(saved);
    if o.Fail? {
      return;
    }
    var t := args.Next();
    if t.Err? {
      return Fail(t.failure);
    }
    var arg := t.value;
    if StartsWith(arg, "--") {
      o := context.PutEntry(arg[2..], Some(BoolValue(true)));
      return;
    }
    if |arg| != 2 {
      return Fail(if |arg| < 2 then Crash("StringIndexOutOfBoundsException") else NullThrown);
    }
    o := context.PutEntry([arg[1]], Some(BoolValue(true)));
  }

  // Properties, for a state that `getState` produced on this cursor at an earlier position.

  /** The token re-read is the one before the saved position, and the rewind fails for a state saved at the start. */
  lemma RereadsTokenBeforeSavedPosition(c: Cursor, e: Entries, saved: Cursor, owner: object)
    requires c.Valid() && saved.Valid() && saved.args == c.args
    ensures !HasPreviousToken(saved) ==>
      AcceptValue(c, e, SavedState(saved, owner), owner) == (Effect(c, e), Fail(Crash("IndexOutOfBoundsException")))
      && AcceptNonValue(c, e, SavedState(saved, owner), owner) == (Effect(c, e), Fail(Crash("IndexOutOfBoundsException")))
    ensures HasPreviousToken(saved) ==>
      AcceptNonValue(c, e, SavedState(saved, owner), owner) ==
        var arg := c.args[saved.index - 1].arg;
        var c1 := c.(index := saved.index);
        if StartsWith(arg, "--") then (Effect(c1, Put(e, arg[2..], BoolValue(true))), Pass)
        else if |arg| != 2 then (Effect(c1, e), Fail(if |arg| < 2 then Crash("StringIndexOutOfBoundsException") else NullThrown))
        else (Effect(c1, Put(e, [arg[1]], BoolValue(true))), Pass)
  {
    RestoreLandsOneEarlier(saved, c, owner);
  }

  /**
   * The value behaviour on a re-read long flag `--name`: the value is the
   * token after it. `nextIfPresent` fails at the end of the input, so the
   * fallback to `name` itself is never taken and a long flag in last place
   * fails.
   */
  lemma LongValueFlagTakesFollowingToken(c: Cursor, e: Entries, saved: Cursor, owner: object)
    requires c.Valid() && saved.Valid() && saved.args == c.args && HasPreviousToken(saved)
    requires StartsWith(c.args[saved.index - 1].arg, "--")
    ensures var name := c.args[saved.index - 1].arg[2..];
      AcceptValue(c, e, SavedState(saved, owner), owner) ==
        if saved.index < |c.args| then
          (Effect(c.(index := saved.index + 1), Put(e, name, TextValue(c.args[saved.index].arg))), Pass)
        else
          (Effect(c.(index := saved.index), e), Fail(NullThrown))
  {
    RestoreLandsOneEarlier(saved, c, owner);
  }

  /**
   * The value behaviour on a re-read short flag: `-pVALUE` stores p -> VALUE
   * and consumes only the flag; `-p` stores p -> the token after it, and in
   * last place fails like a long flag; a one-character token is refused by
   * `charAt(1)`.
   */
  lemma ShortValueFlag(c: Cursor, e: Entries, saved: Cursor, owner: object)
    requires c.Valid() && saved.Valid() && saved.args == c.args && HasPreviousToken(saved)
    requires !StartsWith(c.args[saved.index - 1].arg, "--")
    ensures var arg := c.args[saved.index - 1].arg;
      |arg| > 2 ==>
        AcceptValue(c, e, SavedState(saved, owner), owner)
        == (Effect(c.(index := saved.index), Put(e, [arg[1]], TextValue(arg[2..]))), Pass)
    ensures var arg := c.args[saved.index - 1].arg;
      |arg| == 2 ==>
        AcceptValue(c, e, SavedState(saved, owner), owner) ==
          if saved.index < |c.args| then
            (Effect(c.(index := saved.index + 1), Put(e, [arg[1]], TextValue(c.args[saved.index].arg))), Pass)
          else
            (Effect(c.(index := saved.index), e), Fail(NullThrown))
    ensures var arg := c.args[saved.index - 1].arg;
      |arg| < 2 ==>
        AcceptValue(c, e, SavedState(saved, owner), owner)
        == (Effect(c.(index := saved.index), e), Fail(Crash("StringIndexOutOfBoundsException")))
  {
    RestoreLandsOneEarlier(saved, c, owner);
    var arg := c.args[saved.index - 1].arg;
    if |arg| == 2 {
      assert arg[1..] == [arg[1]];
    }
  }

  /** A value behaviour that succeeds adds exactly one text value, under exactly one key. */
  lemma ValuePassStoresOneValue(c: Cursor, e: Entries, saved: StateObject, owner: object)
    requires c.Valid()
    ensures var (eff, o) := AcceptValue(c, e, saved, owner);
      o.Pass? ==> exists key, v :: eff.entries == Put(e, key, TextValue(v))
  {
    var (eff, o) := AcceptValue(c, e, saved, owner);
    if o.Pass? {
      var (c0, _) := CursorRestore(c, saved, owner);
      var (c1, t) := CursorNext(c0);
      var arg := t.value;
      if StartsWith(arg, "--") {
        var (c2, n) := CursorNextIfPresent(c1);
        var v := n.value.value;
        assert eff.entries == Put(e, arg[2..], TextValue(v));
      } else if |arg| != 2 {
        assert eff.entries == Put(e, [arg[1]], TextValue(arg[2..]));
      } else {
        var (c2, n) := CursorNextIfPresent(c1);
        var v := n.value.value;
        assert eff.entries == Put(e, arg[1..], TextValue(v));
      }
    }
  }

  /** A valueless behaviour that succeeds adds exactly one `true`, under exactly one key. */
  lemma NonValuePassStoresOneTrue(c: Cursor, e: Entries, saved: StateObject, owner: object)
    requires c.Valid()
    ensures var (eff, o) := AcceptNonValue(c, e, saved, owner);
      o.Pass? ==> exists key :: eff.entries == Put(e, key, BoolValue(true))
  {
    var (eff, o) := AcceptNonValue(c, e, saved, owner);
    if o.Pass? {
      var (c0, _) := CursorRestore(c, saved, owner);
      var (c1, t) := CursorNext(c0);
      var arg := t.value;
      if StartsWith(arg, "--") {
        assert eff.entries == Put(e, arg[2..], BoolValue(true));
      } else {
        assert eff.entries == Put(e, [arg[1]], BoolValue(true));
      }
    }
  }

  /** A valueless behaviour never consumes a token beyond the flag it re-reads. */
  lemma NonValueConsumesOnlyTheFlag(c: Cursor, e: Entries, saved: StateObject, owner: object)
    requires c.Valid()
    ensures var (eff, o) := AcceptNonValue(c, e, saved, owner);
      o.Pass? ==> eff.cur.index == saved.index + 1
  {
  }
}
