// SpongeFlagsBuilder: turns flag specifications into aliases. A spec of more
// than two characters that starts with `-` is one long alias; any other spec
// gives one short alias per character. Every alias of one call leads to the
// call's primary alias, the first one produced.
module FlagsBuilder {
  import opened Common
  import opened JavaLang
  import opened Parsing

  predicate IsLongSpec(spec: string) {
    |spec| > 2 && StartsWith(spec, "-")
  }

  /** `s.replaceAll("-", "")`. */
  function RemoveDashes(s: string): (r: string)
    ensures forall c :: c in r <==> c in s && c != '-'
    ensures |r| <= |s|
  {
    if |s| == 0 then ""
    else (if s[0] == '-' then "" else [s[0]]) + RemoveDashes(s[1..])
  }

  /** The characters of a short spec: lower-cased, every `-` removed. */
  function ShortChars(spec: string): (r: string)
    ensures forall c :: c in r <==> c in ToLower(spec) && c != '-'
  {
    RemoveDashes(ToLower(spec))
  }

  /** The aliases one spec produces, in order: the long alias keeps its case; a short one is a lower-cased character. */
  function SpecAliases(spec: string): (r: seq<string>)
  {
    if IsLongSpec(spec) then [spec[1..]]
    else var cs := ShortChars(spec); seq(|cs|, k requires 0 <= k < |cs| => ToLower([cs[k]]))
  }

  /** The aliases a list of specs produces, in order. */
  function Aliases(specs: seq<string>): (r: seq<string>)
    decreases |specs|
  {
    if |specs| == 0 then [] else Aliases(specs[..|specs| - 1]) + SpecAliases(specs[|specs| - 1])
  }

  /** The primary alias: the first alias produced, lower-cased; none when no alias was produced. */
  function Primary(aliases: seq<string>): (r: Option<string>)
    ensures r.None? <==> |aliases| == 0
  {
    if |aliases| == 0 then None else Some(ToLower(aliases[0]))
  }

  /** The alias map after `put(alias, primary)` for every alias in turn. */
  function Stored(base: map<string, string>, aliases: seq<string>): (r: map<string, string>)
    decreases |aliases|
  {
    if |aliases| == 0 then base
    else Stored(base, aliases[..|aliases| - 1])[aliases[|aliases| - 1] := ToLower(aliases[0])]
  }

  /** The flags as `build` snapshots them, with the maps' null keys ruled out. */
  datatype BuiltFlags = BuiltFlags(
    flagAliasToFlag: map<string, string>,
    valueFlags: map<string, Parameter>,
    permissionFlags: map<string, string>,
    shortUnknown: UnknownFlagBehavior,
    longUnknown: UnknownFlagBehavior,
    anchorFlags: bool)

  function DropNullKey<V>(m: map<Option<string>, V>): (r: map<string, V>)
    ensures forall k :: k in r <==> Some(k) in m
    ensures forall k :: k in r ==> r[k] == m[Some(k)]
  {
    map k | k in (set o | o in m && o.Some? :: o.value) :: m[Some(k)]
  }

  class SpongeFlagsBuilder {
    var flagAliasToFlag: map<string, string>
    /** Keyed by the primary alias, which is null (`None`) for specs that produced no alias. */
    var valueFlags: map<Option<string>, Parameter>
    var permissionFlags: map<Option<string>, string>
    var shortUnknown: UnknownFlagBehavior
    var longUnknown: UnknownFlagBehavior
    var anchorFlags: bool

    predicate IsReset()
      reads this
    {
      flagAliasToFlag == map[] && valueFlags == map[] && permissionFlags == map[]
      && shortUnknown == ErrorBehavior && longUnknown == ErrorBehavior && !anchorFlags
    }

    constructor ()
      ensures IsReset()
    {
      flagAliasToFlag, valueFlags, permissionFlags := map[], map[], map[];
      shortUnknown, longUnknown, anchorFlags := ErrorBehavior, ErrorBehavior, false;
    }

    /**
     * `storeAliases`: every alias the specs produce is mapped to the primary
     * alias, which is returned. An empty list of specs is refused.
     */
    method StoreAliases(specs: seq<string>) returns (r: Result<Option<string>>)
      modifies this`flagAliasToFlag
      ensures r.Err? <==> |specs| == 0
      ensures r.Err? ==> r.failure == Crash("IllegalArgumentException") && flagAliasToFlag == old(flagAliasToFlag)
      ensures r.Ok? ==> (r.value == Primary(Aliases(specs))
                         && flagAliasToFlag == Stored(old(flagAliasToFlag), Aliases(specs)))
    {
      if |specs| == 0 {
        return Err(Crash("IllegalArgumentException"));
      }
      var first: Option<string> := None;
      for i := 0 to |specs|
        invariant first == Primary(Aliases(specs[..i]))
        invariant flagAliasToFlag == Stored(old(flagAliasToFlag), Aliases(specs[..i]))
      {
        var spec := specs[i];
        assert specs[..i + 1][..i] == specs[..i];
        assert Aliases(specs[..i + 1]) == Aliases(specs[..i]) + SpecAliases(spec);
        if IsLongSpec(spec) {
          if first.None? {
            first := Some(ToLower(spec)[1..]);
            assert ToLower(spec)[1..] == ToLower(spec[1..]);
          }
          flagAliasToFlag := flagAliasToFlag[spec[1..] := first.value];
          AliasStep(old(flagAliasToFlag), Aliases(specs[..i]), spec[1..]);
        } else {
          first := StoreShortAliases(spec, old(flagAliasToFlag), Aliases(specs[..i]), first);
        }
      }
      assert specs[..|specs|] == specs;
      r := Ok(first);
    }

    /** The inner loop of `storeAliases`: one alias per character of a short spec. */
    method StoreShortAliases(spec: string, ghost base: map<string, string>, ghost before: seq<string>, first: Option<string>)
      returns (first': Option<string>)
      requires !IsLongSpec(spec)
      requires first == Primary(before) && flagAliasToFlag == Stored(base, before)
      modifies this`flagAliasToFlag
      ensures first' == Primary(before + SpecAliases(spec))
      ensures flagAliasToFlag == Stored(base, before + SpecAliases(spec))
    {
      var cs := ShortChars(spec);
      ghost var sa := SpecAliases(spec);
      ShortSpecAliases(spec);
      first' := first;
      assert before + sa[..0] == before;
      for j := 0 to |cs|
        invariant first' == Primary(before + sa[..j])
        invariant flagAliasToFlag == Stored(base, before + sa[..j])
      {
        var alias := ToLower([cs[j]]);
        ghost var pre := before + sa[..j];
        ShortAliasStep(spec, before, j);
        AliasStep(base, pre, alias);
        if first'.None? {
          LowerIsIdempotent([cs[j]]);
          first' := Some(alias);
        }
        flagAliasToFlag := flagAliasToFlag[alias := first'.value];
      }
      assert sa[..|cs|] == sa;
    }

    /** `flag`: the aliases are stored; no parameter or permission is attached. */
    method Flag(specs: seq<string>) returns (o: Outcome)
      modifies this
      ensures o.Fail? <==> |specs| == 0
      ensures o.Fail? ==> unchanged(this)
      ensures o.Pass? ==> flagAliasToFlag == Stored(old(flagAliasToFlag), Aliases(specs))
      ensures valueFlags == old(valueFlags) && permissionFlags == old(permissionFlags)
      ensures shortUnknown == old(shortUnknown) && longUnknown == old(longUnknown) && anchorFlags == old(anchorFlags)
    {
      if |specs| == 0 {
        return Fail(Crash("IllegalArgumentException"));
      }
      var r := StoreAliases(specs);
      o := Pass;
    }

    /** `permissionFlag`: the primary alias is mapped to the permission. */
    method PermissionFlag(permission: string, specs: seq<string>) returns (o: Outcome)
      modifies this
      ensures o.Fail? <==> |specs| == 0
      ensures o.Fail? ==> unchanged(this)
      ensures o.Pass? ==> (flagAliasToFlag == Stored(old(flagAliasToFlag), Aliases(specs))
                           && permissionFlags == old(permissionFlags)[Primary(Aliases(specs)) := permission])
      ensures valueFlags == old(valueFlags)
      ensures shortUnknown == old(shortUnknown) && longUnknown == old(longUnknown) && anchorFlags == old(anchorFlags)
    {
      var r := StoreAliases(specs);
      if r.Err? {
        return Fail(r.failure);
      }
      permissionFlags := permissionFlags[r.value := permission];
      o := Pass;
    }

    /** `valueFlag`: the primary alias is mapped to the flag's parameter. */
    method ValueFlag(value: Parameter, specs: seq<string>) returns (o: Outcome)
      modifies this
      ensures o.Fail? <==> |specs| == 0
      ensures o.Fail? ==> unchanged(this)
      ensures o.Pass? ==> (flagAliasToFlag == Stored(old(flagAliasToFlag), Aliases(specs))
                           && valueFlags == old(valueFlags)[Primary(Aliases(specs)) := value])
      ensures permissionFlags == old(permissionFlags)
      ensures shortUnknown == old(shortUnknown) && longUnknown == old(longUnknown) && anchorFlags == old(anchorFlags)
    {
      var r := StoreAliases(specs);
      if r.Err? {
        return Fail(r.failure);
      }
      valueFlags := valueFlags[r.value := value];
      o := Pass;
    }

    /** `setUnknownLongFlagBehavior` sets the behaviour for unknown short flags. */
    method SetUnknownLongFlagBehavior(b: UnknownFlagBehavior)
      modifies this
      ensures shortUnknown == b && longUnknown == old(longUnknown)
      ensures flagAliasToFlag == old(flagAliasToFlag) && valueFlags == old(valueFlags)
      ensures permissionFlags == old(permissionFlags) && anchorFlags == old(anchorFlags)
    {
      shortUnknown := b;
    }

    /** `setUnknownShortFlagBehavior` sets the behaviour for unknown long flags. */
    method SetUnknownShortFlagBehavior(b: UnknownFlagBehavior)
      modifies this
      ensures longUnknown == b && shortUnknown == old(shortUnknown)
      ensures flagAliasToFlag == old(flagAliasToFlag) && valueFlags == old(valueFlags)
      ensures permissionFlags == old(permissionFlags) && anchorFlags == old(anchorFlags)
    {
      longUnknown := b;
    }

    method SetAnchorFlags(b: bool)
      modifies this
      ensures anchorFlags == b
      ensures flagAliasToFlag == old(flagAliasToFlag) && valueFlags == old(valueFlags) && permissionFlags == old(permissionFlags)
      ensures shortUnknown == old(shortUnknown) && longUnknown == old(longUnknown)
    {
      anchorFlags := b;
    }

    /**
     * `build` copies the maps into immutable ones, which refuse a null key:
     * a value or permission flag whose specs produced no alias makes it fail.
     */
    method Build() returns (r: Result<BuiltFlags>)
      ensures r.Err? <==> None in valueFlags || None in permissionFlags
      ensures r.Err? ==> r.failure == NullThrown
      ensures r.Ok? ==> r.value == BuiltFlags(flagAliasToFlag, DropNullKey(valueFlags), DropNullKey(permissionFlags),
                                              shortUnknown, longUnknown, anchorFlags)
    {
      if None in valueFlags || None in permissionFlags {
        return Err(NullThrown);
      }
      r := Ok(BuiltFlags(flagAliasToFlag, DropNullKey(valueFlags), DropNullKey(permissionFlags),
                         shortUnknown, longUnknown, anchorFlags));
    }

    method Reset()
      modifies this
      ensures IsReset()
    {
      flagAliasToFlag, valueFlags, permissionFlags := map[], map[], map[];
      shortUnknown, longUnknown, anchorFlags := ErrorBehavior, ErrorBehavior, false;
    }
  }

  /** One more alias: the primary stays the first one, and the new alias maps to it too. */
  lemma AliasStep(base: map<string, string>, aliases: seq<string>, x: string)
    ensures Primary(aliases + [x]) == if |aliases| == 0 then Some(ToLower(x)) else Primary(aliases)
    ensures Stored(base, aliases + [x]) == Stored(base, aliases)[x := Primary(aliases + [x]).value]
  {
    assert (aliases + [x])[..|aliases|] == aliases;
  }

  /** The aliases of a short spec up to character `j + 1` extend those up to `j` by that character's alias. */
  lemma ShortAliasStep(spec: string, before: seq<string>, j: nat)
    requires !IsLongSpec(spec) && j < |ShortChars(spec)|
    ensures before + SpecAliases(spec)[..j + 1] == before + SpecAliases(spec)[..j] + [ToLower([ShortChars(spec)[j]])]
  {
    var sa := SpecAliases(spec);
    assert sa[..j + 1] == sa[..j] + [sa[j]];
  }

  lemma ShortSpecAliases(spec: string)
    requires !IsLongSpec(spec)
    ensures var cs := ShortChars(spec); |SpecAliases(spec)| == |cs| && forall k :: 0 <= k < |cs| ==> SpecAliases(spec)[k] == ToLower([cs[k]])
  {
  }

  // Properties of the aliases.

  /** A long spec gives the one alias after its first `-`, as written; its primary is that alias lower-cased. */
  lemma LongSpecKeepsCase(spec: string)
    requires IsLongSpec(spec)
    ensures Aliases([spec]) == [spec[1..]]
    ensures Primary(Aliases([spec])) == Some(ToLower(spec[1..]))
  {
    assert [spec][..0] == [];
  }

  /** A short spec gives one alias per character other than `-`, each a single lower-case character. */
  lemma ShortAliasesAreLowerCaseCharacters(spec: string)
    requires !IsLongSpec(spec)
    ensures forall a :: a in SpecAliases(spec) ==> |a| == 1 && a != "-" && ToLower(a) == a
    ensures |SpecAliases(spec)| == |ShortChars(spec)|
  {
    var cs := ShortChars(spec);
    forall a | a in SpecAliases(spec)
      ensures |a| == 1 && a != "-" && ToLower(a) == a
    {
      var k :| 0 <= k < |cs| && SpecAliases(spec)[k] == a;
      assert cs[k] in cs;
      var i :| 0 <= i < |spec| && ToLower(spec)[i] == cs[k];
      assert ToLowerChar(cs[k]) == cs[k] && cs[k] != '-';
      assert a == [cs[k]];
    }
  }

  /** The aliases of later specs follow those of earlier ones, so the primary comes from the first spec that produced an alias. */
  lemma {:induction false} AliasesAppend(specs: seq<string>, more: seq<string>)
    ensures Aliases(specs + more) == Aliases(specs) + Aliases(more)
    decreases |more|
  {
    if |more| == 0 {
      assert specs + more == specs;
    } else {
      var init, last := more[..|more| - 1], more[|more| - 1];
      assert more == init + [last];
      AliasesAppend(specs, init);
      AliasesAppendStep(specs, init, last);
    }
  }

  /** One more spec at the end of a list whose aliases split already. */
  lemma AliasesAppendStep(specs: seq<string>, init: seq<string>, last: string)
    requires Aliases(specs + init) == Aliases(specs) + Aliases(init)
    ensures Aliases(specs + (init + [last])) == Aliases(specs) + Aliases(init + [last])
  {
    var joined := specs + init;
    assert specs + (init + [last]) == joined + [last];
    AliasesSnoc(joined, last);
    AliasesSnoc(init, last);
    SeqAssoc(Aliases(specs), Aliases(init), SpecAliases(last));
  }

  lemma SeqAssoc(a: seq<string>, b: seq<string>, c: seq<string>)
    ensures (a + b) + c == a + (b + c)
  {
  }

  lemma AliasesSnoc(specs: seq<string>, last: string)
    ensures Aliases(specs + [last]) == Aliases(specs) + SpecAliases(last)
  {
    assert (specs + [last])[..|specs|] == specs;
  }

  /** Every alias stored leads to the primary alias; every other key keeps its entry. */
  lemma {:induction false} StoredLeadsToPrimary(base: map<string, string>, aliases: seq<string>, a: string)
    ensures a in aliases ==> a in Stored(base, aliases) && Some(Stored(base, aliases)[a]) == Primary(aliases)
    ensures a !in aliases ==> (a in Stored(base, aliases) <==> a in base)
    ensures a !in aliases && a in base ==> Stored(base, aliases)[a] == base[a]
    decreases |aliases|
  {
    if |aliases| > 0 {
      var init := aliases[..|aliases| - 1];
      assert aliases == init + [aliases[|aliases| - 1]];
      StoredLeadsToPrimary(base, init, a);
      if |init| > 0 {
        assert init[0] == aliases[0];
      }
    }
  }
}
