// SpongeParameterSequenceBuilder: collects parameters and builds a sequence
// (every parameter in turn) or a first-of (the first that parses). The built
// combinator keeps the builder's own list, not a copy of it.
module SequenceBuilder {
  import opened Common
  import opened TokenizedArgs
  import opened ExecutionContext
  import opened Parsing

  /** The builder's `ArrayList<Parameter>`, which a built combinator shares. */
  class ParameterList {
    var items: seq<Parameter>

    constructor ()
      ensures items == []
    {
      items := [];
    }
  }

  /** What `build` hands out: the one parameter itself, or a combinator over the shared list. */
  datatype BuiltParameter =
    | Lone(parameter: Parameter)
    | SequenceOver(list: ParameterList)
    | FirstOfOver(list: ParameterList)

  function Footprint(b: BuiltParameter): set<object> {
    if b.Lone? then {} else {b.list}
  }

  /** The parameter a built value stands for now, seen through the list it shares. */
  function Current(b: BuiltParameter): (p: Parameter)
    reads Footprint(b)
    ensures b.SequenceOver? ==> p == Sequence(b.list.items)
    ensures b.FirstOfOver? ==> p == FirstOf(b.list.items)
  {
    match b
    case Lone(p) => p
    case SequenceOver(list) => Sequence(list.items)
    case FirstOfOver(list) => FirstOf(list.items)
  }

  /** `build` on the list's contents: at least one parameter; one is returned as it is. */
  function BuiltFrom(items: seq<Parameter>, requireAll: bool): (r: Result<Parameter>)
    ensures r.Err? <==> |items| == 0
    ensures r.Err? ==> r.failure == Crash("IllegalStateException")
    ensures |items| == 1 ==> r == Ok(items[0])
    ensures |items| > 1 ==> r == Ok(if requireAll then Sequence(items) else FirstOf(items))
  {
    if |items| == 0 then Err(Crash("IllegalStateException"))
    else if |items| == 1 then Ok(items[0])
    else if requireAll then Ok(Sequence(items))
    else Ok(FirstOf(items))
  }

  class SpongeParameterSequenceBuilder {
    const parameters: ParameterList
    var requireAll: bool

    constructor ()
      ensures fresh(parameters) && parameters.items == [] && requireAll
    {
      parameters := new ParameterList();
      requireAll := true;
    }

    method RequireAll(b: bool)
      modifies this
      ensures requireAll == b
    {
      requireAll := b;
    }

    /** `add(Parameter...)`. */
    method Add(ps: seq<Parameter>)
      modifies parameters
      ensures parameters.items == old(parameters.items) + ps
    {
      parameters.items := parameters.items + ps;
    }

    /** `add(Iterable<Parameter>)`: one parameter at a time. */
    method AddEach(ps: seq<Parameter>)
      modifies parameters
      ensures parameters.items == old(parameters.items) + ps
    {
      for k := 0 to |ps|
        invariant parameters.items == old(parameters.items) + ps[..k]
      {
        parameters.items := parameters.items + [ps[k]];
        assert ps[..k + 1] == ps[..k] + [ps[k]];
      }
      assert ps[..|ps|] == ps;
    }

    /** `build`: a combinator holds this builder's own list. */
    method Build() returns (r: Result<BuiltParameter>)
      ensures r.Ok? <==> BuiltFrom(parameters.items, requireAll).Ok?
      ensures r.Err? ==> r.failure == BuiltFrom(parameters.items, requireAll).failure
      ensures r.Ok? ==> Current(r.value) == BuiltFrom(parameters.items, requireAll).value
      ensures r.Ok? && !r.value.Lone? ==> r.value.list == parameters
    {
      if |parameters.items| == 0 {
        return Err(Crash("IllegalStateException"));
      }
      if |parameters.items| == 1 {
        return Ok(Lone(parameters.items[0]));
      }
      if requireAll {
        r := Ok(SequenceOver(parameters));
      } else {
        r := Ok(FirstOfOver(parameters));
      }
    }

    /** `reset` clears the list, and with it every combinator built from this builder. */
    method Reset()
      modifies parameters
      ensures parameters.items == []
    {
      parameters.items := [];
    }
  }

  /** A combinator built from a builder sees the builder's reset. */
  method ResetEmptiesBuiltCombinator(b: SpongeParameterSequenceBuilder, built: BuiltParameter)
    requires !built.Lone? && built.list == b.parameters
    modifies b.parameters
    ensures Current(built).parameters == []
  {
    b.Reset();
  }

  // Why handing out the single parameter itself is sound, and where it is not the same.

  /** A sequence of one parameter, with anchored flags, parses as that parameter. */
  lemma OneElementSequenceIsItsElement(env: Env, flags: Flags, p: Parameter, st: PState)
    requires st.cur.Valid() && flags.anchorFlags
    ensures Parse(env, flags, Sequence([p]), st) == Parse(env, flags, p, st)
  {
    var (st1, o1) := Parse(env, flags, p, st);
    if o1.Pass? {
      assert SequenceFrom(env, flags, Sequence([p]), 1, st1) == (st1, Pass);
    }
  }

  /**
   * A first-of of one parameter is that parameter except for a catchable
   * failure, which the first-of turns into a crash after putting the
   * entries back.
   */
  lemma OneAlternativeFirstOfDiffers(env: Env, flags: Flags, p: Parameter, st: PState)
    requires st.cur.Valid()
    ensures var (st1, o1) := Parse(env, flags, p, st);
      Parse(env, flags, FirstOf([p]), st) ==
        if o1.Fail? && o1.failure.ParseError? then (PState(st1.cur, Restored(st.entries)), Fail(NullThrown))
        else (st1, o1)
  {
    var (st1, o1) := Parse(env, flags, p, st);
    if o1.Fail? && o1.failure.ParseError? {
      assert FirstOfFrom(env, flags, FirstOf([p]), 1, PState(st1.cur, Restored(st.entries)))
        == (PState(st1.cur, Restored(st.entries)), Fail(NullThrown));
    }
  }
}
