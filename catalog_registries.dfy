// CatalogedValueParametersRegistryModule and
// CatalogedValueParameterModifiersRegistryModule: the same two hash maps,
// one from a default's name to its catalog and one from a lower-cased id to
// its catalog, filled by the same operations.
module CatalogRegistries {
  import opened Common
  import opened JavaLang
  import opened TokenizedArgs
  import opened ChoiceParameters
  import opened Parsing

  /**
   * A catalogued value parameter or modifier: its id, the class that
   * implements it, and its value parameter where this model has one.
   */
  datatype Catalogued = Catalogued(id: string, kind: string, parameter: Option<ValueParameter>)

  function LowerId(c: Catalogued): string {
    ToLower(c.id)
  }

  const AlreadyRegistered: Failure := Crash("IllegalArgumentException")

  /** The catalogs stored under the given names. */
  function Image(entries: map<string, Catalogued>, names: set<string>): (r: set<Catalogued>)
    requires names <= entries.Keys
    ensures forall v :: v in r <==> exists k :: k in names && entries[k] == v
  {
    set k | k in names :: entries[k]
  }

  /**
   * `after` indexes the catalogs under the names `done` by lower-cased id:
   * every such id is a key whose catalog is one of them with that id; every
   * other key keeps its catalog from `before`.
   */
  ghost predicate IndexedBy(before: map<string, Catalogued>, entries: map<string, Catalogued>, done: set<string>, after: map<string, Catalogued>)
    requires done <= entries.Keys
  {
    (forall k :: k in done ==>
      LowerId(entries[k]) in after && after[LowerId(entries[k])] in Image(entries, done) &&
      LowerId(after[LowerId(entries[k])]) == LowerId(entries[k])) &&
    (forall key :: key in after ==>
      (key in before && after[key] == before[key]) || (after[key] in Image(entries, done) && LowerId(after[key]) == key)) &&
    (forall key :: key in before ==> key in after)
  }

  /** The name-to-catalog map after putting each (name, catalog) pair in turn. */
  function Put(m: map<string, Catalogued>, pairs: seq<(string, Catalogued)>): (r: map<string, Catalogued>)
    decreases |pairs|
  {
    if |pairs| == 0 then m else Put(m, pairs[..|pairs| - 1])[pairs[|pairs| - 1].0 := pairs[|pairs| - 1].1]
  }

  class CatalogRegistry {
    /** From each default's name to its catalog. */
    var parserModifierMappings: map<string, Catalogued>
    /** From an id to its catalog. */
    var idMappings: map<string, Catalogued>

    constructor ()
      ensures parserModifierMappings == map[] && idMappings == map[]
    {
      parserModifierMappings, idMappings := map[], map[];
    }

    /**
     * `registerAdditionalCatalog`: refused when the lower-cased id is a key
     * already; otherwise stored under the id as written.
     */
    method RegisterAdditionalCatalog(extra: Catalogued) returns (o: Outcome)
      modifies this`idMappings
      ensures LowerId(extra) in old(idMappings) ==> o == Fail(AlreadyRegistered) && idMappings == old(idMappings)
      ensures LowerId(extra) !in old(idMappings) ==> o == Pass && idMappings == old(idMappings)[extra.id := extra]
    {
      if ToLower(extra.id) in idMappings {
        return Fail(AlreadyRegistered);
      }
      idMappings := idMappings[extra.id := extra];
      o := Pass;
    }

    /** `getById`: the query is lower-cased before the lookup. */
    function GetById(id: string): (r: Option<Catalogued>)
      reads this
      ensures r.Some? <==> ToLower(id) in idMappings
      ensures r.Some? ==> r.value == idMappings[ToLower(id)]
    {
      if ToLower(id) in idMappings then Some(idMappings[ToLower(id)]) else None
    }

    /** `getAll`: the set of stored catalogs. */
    function GetAll(): (r: set<Catalogued>)
      reads this
      ensures forall v :: v in r <==> exists key :: key in idMappings && idMappings[key] == v
    {
      idMappings.Values
    }

    /**
     * `registerDefaults`: each default is put under its name, then every
     * catalog of the name map, in the map's own (unspecified) order, is
     * indexed under its lower-cased id.
     */
    method RegisterDefaults(defaults: seq<(string, Catalogued)>)
      modifies this
      ensures parserModifierMappings == Put(old(parserModifierMappings), defaults)
      ensures IndexedBy(old(idMappings), parserModifierMappings, parserModifierMappings.Keys, idMappings)
    {
      for i := 0 to |defaults|
        invariant parserModifierMappings == Put(old(parserModifierMappings), defaults[..i])
        invariant idMappings == old(idMappings)
      {
        parserModifierMappings := parserModifierMappings[defaults[i].0 := defaults[i].1];
        assert defaults[..i + 1][..i] == defaults[..i];
      }
      assert defaults[..|defaults|] == defaults;
      var remaining := parserModifierMappings.Keys;
      while remaining != {}
        invariant remaining <= parserModifierMappings.Keys
        invariant parserModifierMappings == Put(old(parserModifierMappings), defaults)
        invariant IndexedBy(old(idMappings), parserModifierMappings, parserModifierMappings.Keys - remaining, idMappings)
        decreases remaining
      {
        var name :| name in remaining;
        IndexOne(old(idMappings), parserModifierMappings, parserModifierMappings.Keys - remaining, name, idMappings);
        idMappings := idMappings[ToLower(parserModifierMappings[name].id) := parserModifierMappings[name]];
        assert parserModifierMappings.Keys - (remaining - {name}) == (parserModifierMappings.Keys - remaining) + {name};
        remaining := remaining - {name};
      }
    }
  }

  /** Indexing one more catalog keeps the indexing of the others. */
  lemma IndexOne(before: map<string, Catalogued>, entries: map<string, Catalogued>, done: set<string>, name: string, after: map<string, Catalogued>)
    requires done <= entries.Keys && name in entries && name !in done
    requires IndexedBy(before, entries, done, after)
    ensures IndexedBy(before, entries, done + {name}, after[LowerId(entries[name]) := entries[name]])
  {
    var done' := done + {name};
    var after' := after[LowerId(entries[name]) := entries[name]];
    assert entries[name] in Image(entries, done');
    forall k | k in done'
      ensures LowerId(entries[k]) in after' && after'[LowerId(entries[k])] in Image(entries, done') &&
              LowerId(after'[LowerId(entries[k])]) == LowerId(entries[k])
    {
      if k != name && LowerId(entries[k]) != LowerId(entries[name]) {
        assert after[LowerId(entries[k])] in Image(entries, done);
      }
    }
    forall key | key in after'
      ensures (key in before && after'[key] == before[key]) || (after'[key] in Image(entries, done') && LowerId(after'[key]) == key)
    {
      if key != LowerId(entries[name]) && !(key in before && after[key] == before[key]) {
        assert after[key] in Image(entries, done);
      }
    }
  }

  // The defaults.

  /** The boolean choices, with the values they stand for. */
  const BOOLEAN_CHOICES: seq<(string, Value)> := [
    ("true", BoolValue(true)), ("t", BoolValue(true)), ("yes", BoolValue(true)), ("y", BoolValue(true)),
    ("verymuchso", BoolValue(true)),
    ("false", BoolValue(false)), ("f", BoolValue(false)), ("no", BoolValue(false)), ("n", BoolValue(false)),
    ("notatall", BoolValue(false))]

  /** The boolean parameter: its choices always listed in the usage. */
  const BOOLEAN_PARAMETER: ValueParameter := ChoicesParameter(BOOLEAN_CHOICES, True)

  /**
   * The value-parameter defaults in declaration order. A default whose
   * class is not part of this model has its id given by `unseenId`.
   */
  function ValueParameterDefaults(unseenId: string -> string): (r: seq<(string, Catalogued)>)
    ensures |r| == 20
    ensures r[0] == ("boolean", Catalogued("sponge:boolean", "CatalogableChoicesValueParameter", Some(BOOLEAN_PARAMETER)))
  {
    [("boolean", Catalogued("sponge:boolean", "CatalogableChoicesValueParameter", Some(BOOLEAN_PARAMETER))),
     ("dimension", Catalogued("sponge:dimension_catalog_type", "CatalogableCatalogTypeValueParameter", None)),
     ("duration", Catalogued(unseenId("duration"), "DurationValueParameter", None)),
     ("double", Catalogued("sponge:double", "CatalogableNumberValueParameter", None)),
     ("integer", Catalogued("sponge:integer", "CatalogableNumberValueParameter", None)),
     ("long", Catalogued("sponge:long", "CatalogableNumberValueParameter", None)),
     ("none", Catalogued(unseenId("none"), "NoneValueParameter", None)),
     ("entity", Catalogued("sponge:entity", "EntityValueParameter", None)),
     ("entity_or_source", Catalogued("sponge:entity_or_source", "EntityValueParameter", None)),
     ("player", Catalogued("sponge:player", "PlayerValueParameter", None)),
     ("player_or_source", Catalogued("sponge:player_or_source", "PlayerValueParameter", None)),
     ("plugin", Catalogued("sponge:plugin", "PluginContainerValueParameter", None)),
     ("remaining_joined_strings", Catalogued(unseenId("remaining_joined_strings"), "JoinedStringValueParameter", None)),
     ("remaining_raw_joined_strings", Catalogued("sponge:raw_joined_strings", "RawJoinedStringValueParameter", Some(RawJoinedParam))),
     ("string", Catalogued(unseenId("string"), "StringValueParameter", None)),
     ("user", Catalogued("sponge:user", "UserValueParameter", None)),
     ("user_or_source", Catalogued("sponge:user_or_source", "UserValueParameter", None)),
     ("vector3d", Catalogued("sponge:vector3d", "Vector3dValueParameter", Some(Vector3dParam))),
     ("world_properties", Catalogued("sponge:world_properties", "WorldPropertiesValueParameter", None)),
     ("location", Catalogued("sponge:location", "LocationValueParameter", None))]
  }

  /** The modifier defaults; the modifier classes are not part of this model, so `unseenId` gives their ids. */
  function ModifierDefaults(unseenId: string -> string): (r: seq<(string, Catalogued)>)
  {
    [("all_of", Catalogued(unseenId("all_of"), "AllOfModifier", None)),
     ("only_one", Catalogued(unseenId("only_one"), "OnlyOneModifier", None)),
     ("optional", Catalogued(unseenId("optional"), "OptionalModifier", None)),
     ("optional_weak", Catalogued(unseenId("optional_weak"), "OptionalWeakModifier", None))]
  }

  // Properties.

  /**
   * After indexing, a query equal ignoring case to the id of an indexed
   * catalog finds a catalog with that id ignoring case; when no two indexed
   * catalogs share a lower-cased id, it finds that very catalog.
   */
  lemma IndexedFoundInAnyCase(before: map<string, Catalogued>, entries: map<string, Catalogued>, after: map<string, Catalogued>,
                              name: string, query: string)
    requires IndexedBy(before, entries, entries.Keys, after) && name in entries
    requires EqualsIgnoreCase(query, entries[name].id)
    ensures ToLower(query) in after && EqualsIgnoreCase(after[ToLower(query)].id, query)
    ensures (forall a, b :: a in entries && b in entries && LowerId(entries[a]) == LowerId(entries[b]) ==> entries[a] == entries[b]) ==>
      after[ToLower(query)] == entries[name]
  {
    LowerIsIdempotent(query);
    var v := after[ToLower(query)];
    assert v in Image(entries, entries.Keys);
  }

  /** A catalog whose id is not lower-case is stored where no query reaches it. */
  lemma MixedCaseExtraIsNotFound(r: map<string, Catalogued>, extra: Catalogued, query: string)
    requires LowerId(extra) !in r && ToLower(extra.id) != extra.id
    ensures var r' := r[extra.id := extra];
      (ToLower(query) in r' <==> ToLower(query) in r) && (ToLower(query) in r ==> r'[ToLower(query)] == r[ToLower(query)])
  {
    LowerIsIdempotent(query);
    assert ToLower(query) != extra.id;
  }

  /** A catalog whose id is lower-case is found by any casing of it once registered. */
  lemma LowerCaseExtraIsFound(r: map<string, Catalogued>, extra: Catalogued, query: string)
    requires ToLower(extra.id) == extra.id && EqualsIgnoreCase(query, extra.id)
    ensures var r' := r[extra.id := extra]; ToLower(query) in r' && r'[ToLower(query)] == extra
  {
  }

  /** Putting pairs gives exactly their names as new keys, each with its last catalog. */
  lemma {:induction false} PutKeys(m: map<string, Catalogued>, pairs: seq<(string, Catalogued)>)
    ensures Put(m, pairs).Keys == m.Keys + set p | p in pairs :: p.0
    decreases |pairs|
  {
    if |pairs| > 0 {
      var init := pairs[..|pairs| - 1];
      PutKeys(m, init);
      assert pairs == init + [pairs[|pairs| - 1]];
    }
  }

  /** The modifier registry's defaults are exactly all_of, only_one, optional and optional_weak. */
  lemma ModifierDefaultNames(unseenId: string -> string)
    ensures Put(map[], ModifierDefaults(unseenId)).Keys == {"all_of", "only_one", "optional", "optional_weak"}
  {
    PutKeys(map[], ModifierDefaults(unseenId));
    var d := ModifierDefaults(unseenId);
    assert (set p | p in d :: p.0) == {"all_of", "only_one", "optional", "optional_weak"} by {
      assert d[0] in d && d[1] in d && d[2] in d && d[3] in d;
    }
  }

  /** A lower-case name is its own lower-casing. */
  lemma LowerCaseIsFixed(s: string)
    requires forall i :: 0 <= i < |s| ==> !('A' <= s[i] <= 'Z')
    ensures ToLower(s) == s
  {
  }

  /** A token naming a boolean choice in any case parses to that choice's truth value. */
  lemma BooleanTokenInAnyCase(c: Cursor, j: nat)
    requires c.Valid() && HasNextToken(c) && j < |BOOLEAN_CHOICES|
    requires EqualsIgnoreCase(BOOLEAN_CHOICES[j].0, c.args[c.index].arg)
    ensures ChoicesValue(BOOLEAN_CHOICES, c).1 == Ok(Some(BoolValue(j < 5)))
  {
    forall i | 0 <= i < |BOOLEAN_CHOICES|
      ensures ToLower(BOOLEAN_CHOICES[i].0) == BOOLEAN_CHOICES[i].0
    {
      LowerCaseIsFixed(BOOLEAN_CHOICES[i].0);
    }
    ChoiceFoundInAnyCase(BOOLEAN_CHOICES, c, j);
  }
}
