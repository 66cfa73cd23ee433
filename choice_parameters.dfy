// ChoicesValueParameter and AlternativeChoicesValueParameter: a token is
// matched, ignoring case, against a fixed set of names.
module ChoiceParameters {
  import opened Common
  import opened JavaLang
  import opened TokenizedArgs

  /** Above this many choices, an undecided usage shows only the key. */
  const CUTOFF: nat := 5

  /** The names of a choices map, in its iteration order. */
  function Names(choices: seq<(string, Value)>): (r: seq<string>)
    ensures |r| == |choices|
    ensures forall i :: 0 <= i < |r| ==> r[i] == choices[i].0
  {
    seq(|choices|, i requires 0 <= i < |choices| => choices[i].0)
  }

  /** `filter(equalsIgnoreCase(token)).findFirst()`: the position of the first name equal to `token` ignoring case. */
  function FirstIgnoringCase(names: seq<string>, token: string, from: nat): (r: Option<nat>)
    requires from <= |names|
    ensures r.Some? ==> from <= r.value < |names| && EqualsIgnoreCase(names[r.value], token)
    ensures r.Some? ==> forall j :: from <= j < r.value ==> !EqualsIgnoreCase(names[j], token)
    ensures r.None? ==> forall j :: from <= j < |names| ==> !EqualsIgnoreCase(names[j], token)
    decreases |names| - from
  {
    if from == |names| then None
    else if EqualsIgnoreCase(names[from], token) then Some(from)
    else FirstIgnoringCase(names, token, from + 1)
  }

  /** The names whose lower-case form starts with the lower-cased `typed`, in their original order. */
  function PrefixMatches(names: seq<string>, typed: string): (r: seq<string>)
    ensures forall x :: x in r <==> x in names && StartsWith(ToLower(x), ToLower(typed))
    ensures multiset(r) <= multiset(names)
  {
    if |names| == 0 then []
    else
      var rest := PrefixMatches(names[1..], typed);
      assert names == [names[0]] + names[1..];
      if StartsWith(ToLower(names[0]), ToLower(typed)) then [names[0]] + rest else rest
  }

  /** The completions of both choice parameters: matching names, sorted; the token is only peeked at. */
  function CompleteNames(names: seq<string>, c: Cursor): (r: Result<seq<string>>)
    requires c.Valid()
    ensures r.Ok? <==> HasNextToken(c)
    ensures r.Ok? ==> Sorted(r.value)
    ensures r.Ok? ==> forall x :: x in r.value <==> x in names && StartsWith(ToLower(x), ToLower(c.args[c.index].arg))
  {
    match CursorPeek(c)
    case Err(f) => Err(f)
    case Ok(typed) =>
      var m := PrefixMatches(names, typed);
      var s := Sort(m);
      assert forall x :: x in s <==> x in multiset(s);
      Ok(s)
  }

  /**
   * The usage of both choice parameters: the key when listing is switched
   * off; the sorted names between angle brackets when it is switched on, or
   * when it is undecided and there are fewer than CUTOFF names.
   */
  function ChoicesUsage(names: seq<string>, listing: Tristate, key: string): (r: string)
    ensures listing == False ==> r == key
    ensures listing == True ==> r == "<" + Join(Sort(names), "|") + ">"
    ensures listing == Undefined ==> r == (if |names| < CUTOFF then "<" + Join(Sort(names), "|") + ">" else key)
  {
    if listing != False && (AsBoolean(listing) || |Sort(names)| < CUTOFF) then
      "<" + Join(Sort(names), "|") + ">"
    else key
  }

  /**
   * The text of the `not a valid choice` error: the names lower-cased,
   * sorted and separated by ", ". `createError` returns null, so the text is
   * built and then lost in a NullPointerException.
   */
  function NotAChoiceMessage(names: seq<string>): (r: string)
  {
    "Argument was not a valid choice. Valid choices: " + Join(Sort(LowerAll(names)), ", ")
  }

  function LowerAll(names: seq<string>): (r: seq<string>)
    ensures |r| == |names|
    ensures forall i :: 0 <= i < |r| ==> r[i] == ToLower(names[i])
  {
    seq(|names|, i requires 0 <= i < |names| => ToLower(names[i]))
  }

  // ChoicesValueParameter: a map from names to values.

  /** `getValue`: one token is consumed and answered with the value of the first name it equals ignoring case. */
  function ChoicesValue(choices: seq<(string, Value)>, c: Cursor): (r: (Cursor, Result<Option<Value>>))
    requires c.Valid()
    ensures r.0 == CursorNext(c).0
    ensures !HasNextToken(c) ==> r.1 == Err(NullThrown)
    ensures HasNextToken(c) ==>
      match FirstIgnoringCase(Names(choices), c.args[c.index].arg, 0)
      case None => r.1 == Err(NullThrown)
      case Some(j) => r.1 == Ok(Some(choices[j].1))
  {
    var (c', t) := CursorNext(c);
    match t
    case Err(f) => (c', Err(f))
    case Ok(token) =>
      match FirstIgnoringCase(Names(choices), token, 0)
      case None => (c', Err(NullThrown))
      case Some(j) => (c', Ok(Some(choices[j].1)))
  }

  method ChoicesGetValue(choices: seq<(string, Value)>, args: SpongeTokenizedArgs) returns (r: Result<Option<Value>>)
    requires args.Valid()
    modifies args
    ensures args.Valid()
    ensures (args.Model(), r) == ChoicesValue(choices, old(args.Model()))
  {
    var t := args.Next();
    if t.Err? {
      return Err(t.failure);
    }
    var j := FirstIgnoringCase(Names(choices), t.value, 0);
    if j.None? {
      return Err(NullThrown);
    }
    r := Ok(Some(choices[j.value].1));
  }

  method ChoicesComplete(choices: seq<(string, Value)>, args: SpongeTokenizedArgs) returns (r: Result<seq<string>>)
    requires args.Valid()
    ensures r == CompleteNames(Names(choices), args.Model())
  {
    var typed := args.Peek();
    if typed.Err? {
      return Err(typed.failure);
    }
    r := Ok(Sort(PrefixMatches(Names(choices), typed.value)));
  }

  // AlternativeChoicesValueParameter: a collection of names and a function from a name to its value.

  /** `getValue`: the value function is applied to the matching name as declared, not to the typed token. */
  function AlternativeValue(names: seq<string>, valueOf: string -> Option<Value>, c: Cursor): (r: (Cursor, Result<Option<Value>>))
    requires c.Valid()
    ensures r.0 == CursorNext(c).0
    ensures !HasNextToken(c) ==> r.1 == Err(NullThrown)
    ensures HasNextToken(c) ==>
      match FirstIgnoringCase(names, c.args[c.index].arg, 0)
      case None => r.1 == Err(NullThrown)
      case Some(j) => r.1 == Ok(valueOf(names[j]))
  {
    var (c', t) := CursorNext(c);
    match t
    case Err(f) => (c', Err(f))
    case Ok(token) =>
      match FirstIgnoringCase(names, token, 0)
      case None => (c', Err(NullThrown))
      case Some(j) => (c', Ok(valueOf(names[j])))
  }

  method AlternativeGetValue(names: seq<string>, valueOf: string -> Option<Value>, args: SpongeTokenizedArgs)
    returns (r: Result<Option<Value>>)
    requires args.Valid()
    modifies args
    ensures args.Valid()
    ensures (args.Model(), r) == AlternativeValue(names, valueOf, old(args.Model()))
  {
    var t := args.Next();
    if t.Err? {
      return Err(t.failure);
    }
    var j := FirstIgnoringCase(names, t.value, 0);
    if j.None? {
      return Err(NullThrown);
    }
    r := Ok(valueOf(names[j.value]));
  }

  method AlternativeComplete(names: seq<string>, args: SpongeTokenizedArgs) returns (r: Result<seq<string>>)
    requires args.Valid()
    ensures r == CompleteNames(names, args.Model())
  {
    var typed := args.Peek();
    if typed.Err? {
      return Err(typed.failure);
    }
    r := Ok(Sort(PrefixMatches(names, typed.value)));
  }

  // Properties.

  /** A token that is one of the names, written in any case, selects that name's value when the names differ ignoring case. */
  lemma ChoiceFoundInAnyCase(choices: seq<(string, Value)>, c: Cursor, j: nat)
    requires c.Valid() && HasNextToken(c) && j < |choices|
    requires EqualsIgnoreCase(choices[j].0, c.args[c.index].arg)
    requires forall i, k :: 0 <= i < k < |choices| ==> !EqualsIgnoreCase(choices[i].0, choices[k].0)
    ensures ChoicesValue(choices, c).1 == Ok(Some(choices[j].1))
  {
    var f := FirstIgnoringCase(Names(choices), c.args[c.index].arg, 0);
    assert Names(choices)[j] == choices[j].0;
  }

  /** A token that equals no name ignoring case is refused, whatever the map holds. */
  lemma NoChoiceRefused(choices: seq<(string, Value)>, c: Cursor)
    requires c.Valid() && HasNextToken(c)
    requires forall i :: 0 <= i < |choices| ==> !EqualsIgnoreCase(choices[i].0, c.args[c.index].arg)
    ensures ChoicesValue(choices, c) == (CursorNext(c).0, Err(NullThrown))
  {
  }

  /** The alternative parameter hands the declared spelling to its value function. */
  lemma AlternativeUsesDeclaredSpelling(names: seq<string>, valueOf: string -> Option<Value>, c: Cursor, j: nat)
    requires c.Valid() && HasNextToken(c) && j < |names|
    requires EqualsIgnoreCase(names[j], c.args[c.index].arg)
    requires forall i :: 0 <= i < j ==> !EqualsIgnoreCase(names[i], c.args[c.index].arg)
    ensures AlternativeValue(names, valueOf, c).1 == Ok(valueOf(names[j]))
  {
    var f := FirstIgnoringCase(names, c.args[c.index].arg, 0);
    assert names[j] == names[j] && EqualsIgnoreCase(names[j], c.args[c.index].arg);
  }

  /** Every name is listed in the error text, lower-cased, in sorted order. */
  lemma MessageListsEveryName(names: seq<string>)
    ensures var listed := Sort(LowerAll(names));
      Sorted(listed) && multiset(listed) == multiset(LowerAll(names))
  {
  }

  /** An empty typed token completes to every name. */
  lemma EmptyTokenCompletesAll(names: seq<string>, c: Cursor)
    requires c.Valid() && HasNextToken(c) && c.args[c.index].arg == ""
    ensures CompleteNames(names, c).Ok?
    ensures forall x :: x in CompleteNames(names, c).value <==> x in names
  {
    forall x | x in names
      ensures StartsWith(ToLower(x), ToLower(c.args[c.index].arg))
    {
      assert ToLower(x)[..0] == [];
    }
  }
}
