// SpongeValueParameterFactory: the choices, enum and literal value
// parameters a plugin asks for by description.
module ValueParameterFactory {
  import opened Common
  import opened JavaLang
  import opened TokenizedArgs
  import opened ChoiceParameters
  import opened Parsing

  /** `choices(showUsage, choices)`: shown choices are undecided (listed while few), hidden ones never listed. */
  function Choices(showUsage: bool, choices: seq<(string, Value)>): (r: ValueParameter)
    ensures r.ChoicesParameter? && r.choices == choices
    ensures showUsage ==> r.listing == Undefined
    ensures !showUsage ==> r.listing == False
  {
    ChoicesParameter(choices, if showUsage then Undefined else False)
  }

  /** `choices(showUsage, names, valueFunction)` answers null. */
  function ChoicesWithFunction(showUsage: bool, names: seq<string>, valueFunction: nat): (r: Option<ValueParameter>)
    ensures r.None?
  {
    None
  }

  /** An enum constant is known by its ordinal. */
  function EnumConstant(ordinal: nat): Value {
    ObjectValue(ordinal)
  }

  /**
   * `Collectors.toMap(name.toLowerCase, identity)` over the first n
   * constants: each lower-cased name with its constant, in declaration
   * order; a lower-cased name met twice is an IllegalStateException.
   */
  function LoweredNames(names: seq<string>, n: nat): (r: Result<seq<(string, Value)>>)
    requires n <= |names|
    ensures r.Err? <==> exists i, j :: 0 <= i < j < n && ToLower(names[i]) == ToLower(names[j])
    ensures r.Err? ==> r.failure == Crash("IllegalStateException")
    ensures r.Ok? ==> |r.value| == n && forall k :: 0 <= k < n ==> r.value[k] == (ToLower(names[k]), EnumConstant(k))
  {
    if n == 0 then Ok([])
    else
      match LoweredNames(names, n - 1)
      case Err(f) => Err(f)
      case Ok(prev) =>
        var key := ToLower(names[n - 1]);
        if key in Names(prev) then
          assert exists i :: 0 <= i < n - 1 && ToLower(names[i]) == key by {
            var i :| 0 <= i < |prev| && Names(prev)[i] == key;
          }
          Err(Crash("IllegalStateException"))
        else
          assert forall i :: 0 <= i < n - 1 ==> ToLower(names[i]) != key by {
            forall i | 0 <= i < n - 1
              ensures ToLower(names[i]) != key
            {
              assert Names(prev)[i] == ToLower(names[i]);
            }
          }
          Ok(prev + [(key, EnumConstant(n - 1))])
  }

  /** `enumValue`: the constants under their lower-cased names, always listed in the usage. */
  function EnumValue(names: seq<string>): (r: Result<ValueParameter>)
    ensures r.Err? <==> exists i, j :: 0 <= i < j < |names| && ToLower(names[i]) == ToLower(names[j])
    ensures r.Err? ==> r.failure == Crash("IllegalStateException")
    ensures r.Ok? ==> r.value.ChoicesParameter? && r.value.listing == True && |r.value.choices| == |names|
    ensures r.Ok? ==> forall k :: 0 <= k < |names| ==> r.value.choices[k] == (ToLower(names[k]), EnumConstant(k))
  {
    match LoweredNames(names, |names|)
    case Err(f) => Err(f)
    case Ok(choices) => Ok(ChoicesParameter(choices, True))
  }

  /** `literal(returnedValue, literals)`. */
  function Literal(returnedValue: Option<Value>, literals: seq<string>): (r: ValueParameter)
    ensures r.LiteralParam? && r.literals == literals && r.returnedValue == returnedValue
  {
    LiteralParam(literals, returnedValue)
  }

  // Properties.

  /** Hidden choices show only the key; shown choices are listed while there are fewer than CUTOFF. */
  lemma ChoicesUsageFollowsShowUsage(showUsage: bool, choices: seq<(string, Value)>, key: string)
    ensures var p := Choices(showUsage, choices);
      ChoicesUsage(Names(choices), p.listing, key) ==
        if showUsage && |choices| < CUTOFF then "<" + Join(Sort(Names(choices)), "|") + ">" else key
  {
  }

  /** An enum's usage lists every lower-cased name, however many constants there are. */
  lemma EnumUsageListsAll(names: seq<string>, key: string)
    requires EnumValue(names).Ok?
    ensures var p := EnumValue(names).value;
      ChoicesUsage(Names(p.choices), p.listing, key) == "<" + Join(Sort(Names(p.choices)), "|") + ">"
  {
  }

  /** A token naming a constant in any case selects that constant. */
  lemma EnumConstantInAnyCase(names: seq<string>, c: Cursor, j: nat)
    requires EnumValue(names).Ok? && j < |names|
    requires c.Valid() && HasNextToken(c) && EqualsIgnoreCase(names[j], c.args[c.index].arg)
    ensures ChoicesValue(EnumValue(names).value.choices, c).1 == Ok(Some(EnumConstant(j)))
  {
    var choices := EnumValue(names).value.choices;
    LowerIsIdempotent(names[j]);
    forall i, k | 0 <= i < k < |choices|
      ensures !EqualsIgnoreCase(choices[i].0, choices[k].0)
    {
      LowerIsIdempotent(names[i]);
      LowerIsIdempotent(names[k]);
    }
    ChoiceFoundInAnyCase(choices, c, j);
  }
}
