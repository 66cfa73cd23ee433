// Vector3dValueParameter: a position typed as three coordinates, one
// comma-separated token, or a special token; a leading `~` makes a
// coordinate relative to the source's position.
module Vector3dParameter {
  import opened Common
  import opened JavaLang
  import opened TokenizedArgs

  const ID: string := "sponge:vector3d"
  const NAME: string := "Vector3d parameter"

  /** The special tokens, in the order of their set. */
  const SPECIAL_TOKENS: seq<string> := ["#target", "#me"]

  /**
   * `parseRelativeDouble`: a `~` prefix needs the source's coordinate and
   * adds it to the number after the prefix (or gives it alone when nothing
   * follows); otherwise the text is the number. Numbers are read by
   * `parseDouble`, which stands in for Double.parseDouble.
   */
  function ParseRelative(parseDouble: string -> Option<real>, arg: string, relativeTo: Option<real>): (r: Result<real>)
    ensures StartsWith(arg, "~") && relativeTo.None? ==> r == Err(NullThrown)
    ensures arg == "~" && relativeTo.Some? ==> r == Ok(relativeTo.value)
    ensures StartsWith(arg, "~") && |arg| > 1 && relativeTo.Some? ==>
      r == (match parseDouble(arg[1..]) case Some(d) => Ok(d + relativeTo.value) case None => Err(NullThrown))
    ensures !StartsWith(arg, "~") ==>
      r == (match parseDouble(arg) case Some(d) => Ok(d) case None => Err(NullThrown))
  {
    if StartsWith(arg, "~") then
      if relativeTo.None? then Err(NullThrown)
      else if arg[1..] == "" then Ok(relativeTo.value)
      else match parseDouble(arg[1..])
        case Some(d) => Ok(d + relativeTo.value)
        case None => Err(NullThrown)
    else
      match parseDouble(arg)
      case Some(d) => Ok(d)
      case None => Err(NullThrown)
  }

  function Coordinate(src: Source, axis: nat): Option<real>
    requires axis < 3
  {
    match src.location
    case None => None
    case Some(p) => Some(if axis == 0 then p.x else if axis == 1 then p.y else p.z)
  }

  /** The three coordinates, each relative to the matching coordinate of the source when it has a position. */
  function Coordinates(parseDouble: string -> Option<real>, src: Source, xs: string, ys: string, zs: string): (r: Result<Vec3>)
    ensures r.Ok? <==> ParseRelative(parseDouble, xs, Coordinate(src, 0)).Ok?
                       && ParseRelative(parseDouble, ys, Coordinate(src, 1)).Ok?
                       && ParseRelative(parseDouble, zs, Coordinate(src, 2)).Ok?
    ensures r.Ok? ==> r.value == Vec3(ParseRelative(parseDouble, xs, Coordinate(src, 0)).value,
                                      ParseRelative(parseDouble, ys, Coordinate(src, 1)).value,
                                      ParseRelative(parseDouble, zs, Coordinate(src, 2)).value)
  {
    var x := ParseRelative(parseDouble, xs, Coordinate(src, 0));
    var y := ParseRelative(parseDouble, ys, Coordinate(src, 1));
    var z := ParseRelative(parseDouble, zs, Coordinate(src, 2));
    if x.Err? then Err(x.failure)
    else if y.Err? then Err(y.failure)
    else if z.Err? then Err(z.failure)
    else Ok(Vec3(x.value, y.value, z.value))
  }

  function AsVector(r: Result<Vec3>): Result<Option<Value>> {
    match r
    case Ok(v) => Ok(Some(VectorValue(v)))
    case Err(f) => Err(f)
  }

  /**
   * `getValue`. The first token decides the form: with a comma it must split
   * into exactly three parts; `#target` (exact case, entity source) is the
   * block the source looks at; `#me` (any case, source with a position) is
   * the source's position; otherwise two further tokens are read.
   */
  function Vector3dValue(parseDouble: string -> Option<real>, src: Source, c: Cursor): (r: (Cursor, Result<Option<Value>>))
    requires c.Valid()
    ensures r.0.Valid() && r.0.args == c.args && r.0.raw == c.raw && c.index <= r.0.index
  {
    var (c1, t) := CursorNext(c);
    match t
    case Err(f) => (c1, Err(f))
    case Ok(xs) =>
      if ',' in xs then
        var parts := JavaSplit(xs, ',');
        if |parts| != 3 then (c1, Err(NullThrown))
        else (c1, AsVector(Coordinates(parseDouble, src, parts[0], parts[1], parts[2])))
      else if xs == "#target" && src.isEntity then
        match src.targetBlock
        case None => (c1, Err(NullThrown))
        case Some(p) => (c1, Ok(Some(VectorValue(p))))
      else if EqualsIgnoreCase(xs, "#me") && src.location.Some? then
        (c1, Ok(Some(VectorValue(src.location.value))))
      else
        var (c2, ty) := CursorNext(c1);
        match ty
        case Err(f) => (c2, Err(f))
        case Ok(ys) =>
          var (c3, tz) := CursorNext(c2);
          match tz
          case Err(f) => (c3, Err(f))
          case Ok(zs) => (c3, AsVector(Coordinates(parseDouble, src, xs, ys, zs)))
  }

  method Vector3dGetValue(parseDouble: string -> Option<real>, src: Source, args: SpongeTokenizedArgs)
    returns (r: Result<Option<Value>>)
    requires args.Valid()
    modifies args
    ensures args.Valid()
    ensures (args.Model(), r) == Vector3dValue(parseDouble, src, old(args.Model()))
  {
    var xs := args.Next();
    if xs.Err? {
      return Err(xs.failure);
    }
    var xStr, yStr, zStr := xs.value, "", "";
    if ',' in xStr {
      var split := JavaSplit(xStr, ',');
      if |split| != 3 {
        return Err(NullThrown);
      }
      xStr, yStr, zStr := split[0], split[1], split[2];
    } else if xStr == "#target" && src.isEntity {
      if src.targetBlock.None? {
        return Err(NullThrown);
      }
      return Ok(Some(VectorValue(src.targetBlock.value)));
    } else if EqualsIgnoreCase(xStr, "#me") && src.location.Some? {
      return Ok(Some(VectorValue(src.location.value)));
    } else {
      var ys := args.Next();
      if ys.Err? {
        return Err(ys.failure);
      }
      var zs := args.Next();
      if zs.Err? {
        return Err(zs.failure);
      }
      yStr, zStr := ys.value, zs.value;
    }
    r := AsVector(Coordinates(parseDouble, src, xStr, yStr, zStr));
  }

  /** The special tokens the typed text starts, compared ignoring case. */
  function SpecialMatches(typed: string): (r: seq<string>)
    ensures forall t :: t in r <==> t in SPECIAL_TOKENS && StartsWith(ToLower(t), ToLower(typed))
  {
    var a := if StartsWith(ToLower("#target"), ToLower(typed)) then ["#target"] else [];
    var b := if StartsWith(ToLower("#me"), ToLower(typed)) then ["#me"] else [];
    a + b
  }

  /**
   * `complete`: a `#` token completes to the special tokens it starts; a
   * comma token or the last token is echoed back; otherwise the completion
   * is the third token, or the second when it is the last.
   */
  function Vector3dCompletion(c: Cursor): (r: (Cursor, Result<seq<string>>))
    requires c.Valid()
    ensures r.0.Valid() && r.0.args == c.args && r.0.raw == c.raw
    ensures !HasNextToken(c) ==> r == (c, Err(NullThrown))
  {
    var (c1, a) := CursorNextIfPresent(c);
    match a
    case Err(f) => (c1, Err(f))
    case Ok(None) => (c1, Ok([]))
    case Ok(Some(first)) =>
      if StartsWith(first, "#") then (c1, Ok(SpecialMatches(first)))
      else if ',' in first || !HasNextToken(c1) then (c1, Ok([first]))
      else
        var (c2, b) := CursorNextIfPresent(c1);
        match b
        case Err(f) => (c2, Err(f))
        case Ok(None) => (c2, Err(Crash("NoSuchElementException")))
        case Ok(Some(second)) =>
          if HasNextToken(c2) then
            var (c3, d) := CursorNextIfPresent(c2);
            match d
            case Err(f) => (c3, Err(f))
            case Ok(None) => (c3, Err(Crash("NoSuchElementException")))
            case Ok(Some(third)) => (c3, Ok([third]))
          else (c2, Ok([second]))
  }

  method Vector3dComplete(args: SpongeTokenizedArgs) returns (r: Result<seq<string>>)
    requires args.Valid()
    modifies args
    ensures args.Valid()
    ensures (args.Model(), r) == Vector3dCompletion(old(args.Model()))
  {
    var arg := args.NextIfPresent();
    if arg.Err? {
      return Err(arg.failure);
    }
    if arg.value.None? {
      return Ok([]);
    }
    var first := arg.value.value;
    if StartsWith(first, "#") {
      return Ok(SpecialMatches(first));
    } else if ',' in first || !args.HasNext() {
      return Ok([first]);
    }
    arg := args.NextIfPresent();
    if arg.Err? {
      assert false;
    }
    if arg.value.None? {
      return Err(Crash("NoSuchElementException"));
    }
    if args.HasNext() {
      var last := args.NextIfPresent();
      if last.Err? {
        assert false;
      }
      if last.value.None? {
        return Err(Crash("NoSuchElementException"));
      }
      return Ok([last.value.value]);
    }
    r := Ok([arg.value.value]);
  }

  // Properties.

  /** Java's condition for reading the first token as x alone, with y and z in the next two tokens. */
  predicate ThreeTokenFirst(src: Source, first: string)
  {
    ',' !in first && !(first == "#target" && src.isEntity)
    && !(EqualsIgnoreCase(first, "#me") && src.location.Some?)
  }

  /**
   * The comma form and the special tokens consume one token; the three-token
   * form takes its three tokens before parsing any of them, so it consumes
   * three whether or not the coordinates parse, and with fewer left it runs
   * out of tokens.
   */
  lemma TokensConsumed(parseDouble: string -> Option<real>, src: Source, c: Cursor)
    requires c.Valid() && HasNextToken(c)
    ensures var (c', r) := Vector3dValue(parseDouble, src, c);
      var first := c.args[c.index].arg;
      (!ThreeTokenFirst(src, first) ==> c'.index == c.index + 1)
      && (ThreeTokenFirst(src, first) && c.index + 3 <= |c.args| ==> c'.index == c.index + 3)
      && (ThreeTokenFirst(src, first) && c.index + 3 > |c.args| ==> c'.index == |c.args| && r == Err(NullThrown))
  {
  }

  /** The three-token form: x, y and z are the next three tokens, parsed after all three are read. */
  lemma ThreeTokenForm(parseDouble: string -> Option<real>, src: Source, c: Cursor)
    requires c.Valid() && c.index + 3 <= |c.args|
    requires ThreeTokenFirst(src, c.args[c.index].arg)
    ensures Vector3dValue(parseDouble, src, c)
      == (c.(index := c.index + 3),
          AsVector(Coordinates(parseDouble, src, c.args[c.index].arg, c.args[c.index + 1].arg, c.args[c.index + 2].arg)))
  {
  }

  /** The comma form: a first token that splits into three parts gives x, y and z from those parts alone. */
  lemma CommaForm(parseDouble: string -> Option<real>, src: Source, c: Cursor)
    requires c.Valid() && HasNextToken(c)
    requires ',' in c.args[c.index].arg && |JavaSplit(c.args[c.index].arg, ',')| == 3
    ensures var parts := JavaSplit(c.args[c.index].arg, ',');
      Vector3dValue(parseDouble, src, c)
      == (c.(index := c.index + 1), AsVector(Coordinates(parseDouble, src, parts[0], parts[1], parts[2])))
  {
  }

  /** `#target` from an entity is the block it looks at, and a null throw when it looks at none. */
  lemma TargetForm(parseDouble: string -> Option<real>, src: Source, c: Cursor)
    requires c.Valid() && HasNextToken(c) && src.isEntity
    requires c.args[c.index].arg == "#target"
    ensures Vector3dValue(parseDouble, src, c)
      == (c.(index := c.index + 1),
          if src.targetBlock.Some? then Ok(Some(VectorValue(src.targetBlock.value))) else Err(NullThrown))
  {
  }

  /** A first token starting with `#` completes to the special tokens it starts, and only it is consumed. */
  lemma CompletionOfSpecial(c: Cursor)
    requires c.Valid() && HasNextToken(c) && StartsWith(c.args[c.index].arg, "#")
    ensures Vector3dCompletion(c) == (c.(index := c.index + 1), Ok(SpecialMatches(c.args[c.index].arg)))
  {
  }

  /** A comma token, or a last token, is echoed back as the only completion. */
  lemma CompletionEchoesFirst(c: Cursor)
    requires c.Valid() && HasNextToken(c) && !StartsWith(c.args[c.index].arg, "#")
    requires ',' in c.args[c.index].arg || c.index + 1 == |c.args|
    ensures Vector3dCompletion(c) == (c.(index := c.index + 1), Ok([c.args[c.index].arg]))
  {
  }

  /** Otherwise the completion is the third token when there is one, else the second. */
  lemma CompletionOfLaterToken(c: Cursor)
    requires c.Valid() && c.index + 2 <= |c.args|
    requires var first := c.args[c.index].arg; !StartsWith(first, "#") && ',' !in first
    ensures c.index + 3 <= |c.args| ==> Vector3dCompletion(c) == (c.(index := c.index + 3), Ok([c.args[c.index + 2].arg]))
    ensures c.index + 2 == |c.args| ==> Vector3dCompletion(c) == (c.(index := c.index + 2), Ok([c.args[c.index + 1].arg]))
  {
  }

  /** A comma token that does not split into exactly three parts is refused. */
  lemma CommaFormNeedsThreeParts(parseDouble: string -> Option<real>, src: Source, c: Cursor)
    requires c.Valid() && HasNextToken(c)
    requires ',' in c.args[c.index].arg && |JavaSplit(c.args[c.index].arg, ',')| != 3
    ensures Vector3dValue(parseDouble, src, c).1 == Err(NullThrown)
  {
  }

  /** `#me`, in any case, is the position of a source that has one, and nothing is parsed as a number. */
  lemma MeIsSourcePosition(parseDouble: string -> Option<real>, src: Source, c: Cursor)
    requires c.Valid() && HasNextToken(c) && src.location.Some?
    requires EqualsIgnoreCase(c.args[c.index].arg, "#me")
    ensures Vector3dValue(parseDouble, src, c).1 == Ok(Some(VectorValue(src.location.value)))
  {
    var first := c.args[c.index].arg;
    assert ToLower(first) == "#me";
    assert forall i :: 0 <= i < |first| ==> first[i] != ',' by {
      forall i | 0 <= i < |first|
        ensures first[i] != ','
      {
        assert ToLower(first)[i] == ToLowerChar(first[i]);
      }
    }
  }

  /** A relative coordinate from a source without a position is refused. */
  lemma RelativeNeedsPosition(parseDouble: string -> Option<real>, src: Source, xs: string, ys: string, zs: string)
    requires src.location.None? && StartsWith(xs, "~")
    ensures Coordinates(parseDouble, src, xs, ys, zs) == Err(NullThrown)
  {
  }

  /** `~` alone on every axis is the source's own position. */
  lemma TildesAreSourcePosition(parseDouble: string -> Option<real>, src: Source)
    requires src.location.Some?
    ensures Coordinates(parseDouble, src, "~", "~", "~") == Ok(src.location.value)
  {
  }
}
