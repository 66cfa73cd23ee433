// The overworld generator as Sponge extends it: which populators it hands
// to a world generator and in which order, the bedrock floor it lays into a
// chunk buffer, and the 10x10 zoomed-out biome grid it reads from a
// non-vanilla biome generator.
module OverworldGenerator {
  import opened Common
  import opened ChunkGenerator

  /** The overworld's generator settings that decide which populators exist. */
  datatype Settings = Settings(
    useCaves: bool, useRavines: bool,
    useMineShafts: bool, useVillages: bool, useStrongholds: bool,
    useTemples: bool, useMonuments: bool, useMansions: bool,
    useWaterLakes: bool, useLavaLakes: bool, useDungeons: bool)

  // The generator's own populator objects.

  const CAVES := Populator(1, {MapGenCaves, MapGenBase, GenerationPopulatorClass})
  const RAVINES := Populator(2, {MapGenRavine, MapGenBase, GenerationPopulatorClass})
  const MINESHAFT := Structure(3, MapGenMineshaft)
  const VILLAGE := Structure(4, MapGenVillage)
  const STRONGHOLD := Structure(5, MapGenStronghold)
  const TEMPLE := Structure(6, MapGenScatteredFeature)
  const MONUMENT := Structure(7, StructureOceanMonument)
  const MANSION := Structure(8, WoodlandMansion)
  const WATER_LAKE := Populator(9, {FilteredPopulatorClass, PopulatorClass})
  const LAVA_LAKE := Populator(10, {FilteredPopulatorClass, PopulatorClass})
  const DUNGEON := Populator(11, {DungeonClass, PopulatorClass})
  const ANIMALS := Populator(12, {AnimalPopulatorClass, PopulatorClass})
  const SNOW := Populator(13, {SNOW_POPULATOR, PopulatorClass})

  /** A structure generator is both a generation populator and a populator. */
  function Structure(id: nat, className: JavaClass): (p: Populator)
    ensures InstanceOf(p, className) && InstanceOf(p, GenerationPopulatorClass) && InstanceOf(p, PopulatorClass)
  {
    Populator(id, {className, MapGenStructure, MapGenBase, GenerationPopulatorClass, PopulatorClass})
  }

  /** The populators of a table whose entries are switched on, in table order. */
  function Enabled(table: seq<(bool, Populator)>): seq<Populator>
    decreases |table|
  {
    if |table| == 0 then []
    else
      var last := table[|table| - 1];
      Enabled(table[..|table| - 1]) + (if last.0 then [last.1] else [])
  }

  /** Only switched-on entries are added, and no more populators than entries. */
  lemma {:induction false} EnabledMembers(table: seq<(bool, Populator)>)
    ensures |Enabled(table)| <= |table|
    ensures forall p :: p in Enabled(table) ==> (true, p) in table
    decreases |table|
  {
    if |table| > 0 {
      var init := table[..|table| - 1];
      EnabledMembers(init);
      assert forall e :: e in init ==> e in table;
    }
  }

  lemma EnabledPrefix(table: seq<(bool, Populator)>, k: nat)
    requires k < |table|
    ensures Enabled(table[..k + 1]) == Enabled(table[..k]) + (if table[k].0 then [table[k].1] else [])
    ensures k == 0 ==> Enabled(table[..0]) == []
  {
    assert table[..k + 1][..k] == table[..k];
  }

  /** A table with every entry switched off adds nothing. */
  lemma {:induction false} NoneEnabled(table: seq<(bool, Populator)>)
    requires forall e :: e in table ==> !e.0
    ensures Enabled(table) == []
    decreases |table|
  {
    if |table| > 0 {
      var init := table[..|table| - 1];
      assert forall e :: e in init ==> e in table;
      NoneEnabled(init);
    }
  }

  function CaveTable(s: Settings): seq<(bool, Populator)> {
    [(s.useCaves, CAVES), (s.useRavines, RAVINES)]
  }

  /** The structures, in the order they are added, each only with map features on. */
  function StructureTable(s: Settings, mapFeatures: bool): seq<(bool, Populator)> {
    [(s.useMineShafts && mapFeatures, MINESHAFT), (s.useVillages && mapFeatures, VILLAGE),
     (s.useStrongholds && mapFeatures, STRONGHOLD), (s.useTemples && mapFeatures, TEMPLE),
     (s.useMonuments && mapFeatures, MONUMENT), (s.useMansions && mapFeatures, MANSION)]
  }

  function LakeTable(s: Settings): seq<(bool, Populator)> {
    [(s.useWaterLakes, WATER_LAKE), (s.useLavaLakes, LAVA_LAKE), (s.useDungeons, DUNGEON)]
  }

  function Structures(s: Settings, mapFeatures: bool): seq<Populator> {
    Enabled(StructureTable(s, mapFeatures))
  }

  /** What `addPopulators` appends to the generation populators. */
  function AddedGenerationPopulators(s: Settings, mapFeatures: bool): seq<Populator> {
    Enabled(CaveTable(s)) + Structures(s, mapFeatures)
  }

  /** What `addPopulators` appends to the populators. */
  function AddedPopulators(s: Settings, mapFeatures: bool): seq<Populator> {
    Structures(s, mapFeatures) + Enabled(LakeTable(s)) + [ANIMALS, SNOW]
  }

  lemma Regroup(a: seq<Populator>, b: seq<Populator>, c: seq<Populator>, d: seq<Populator>)
    ensures (a + b) + c == a + (b + c)
    ensures ((a + b) + c) + d == a + ((b + c) + d)
  {
  }

  // Properties of the populator lists.

  /** Structures end the generation populators, in the order they are added. */
  lemma StructuresEndGenerationPhase(s: Settings, mapFeatures: bool)
    ensures var g := AddedGenerationPopulators(s, mapFeatures);
      |g| >= |Structures(s, mapFeatures)| && g[|g| - |Structures(s, mapFeatures)|..] == Structures(s, mapFeatures)
  {
    var st := Structures(s, mapFeatures);
    var front := Enabled(CaveTable(s));
    assert (front + st)[|front|..] == st;
  }

  /** Structures start the populators, in the same order, and the populators end with animals, then snow. */
  lemma StructuresStartPopulationPhase(s: Settings, mapFeatures: bool)
    ensures var p := AddedPopulators(s, mapFeatures);
      |p| >= |Structures(s, mapFeatures)| + 2 && p[..|Structures(s, mapFeatures)|] == Structures(s, mapFeatures) &&
      p[|p| - 2..] == [ANIMALS, SNOW]
  {
    var st := Structures(s, mapFeatures);
    var middle := Enabled(LakeTable(s));
    assert (st + middle + [ANIMALS, SNOW])[..|st|] == st;
  }

  /** Without map features no structure is added to either phase. */
  lemma NoStructuresWithoutMapFeatures(s: Settings)
    ensures Structures(s, false) == []
    ensures AddedGenerationPopulators(s, false) == Enabled(CaveTable(s))
  {
    NoneEnabled(StructureTable(s, false));
  }

  /** The snow populator added here is the only one among the additions, and it comes last. */
  lemma SnowIsAddedLast(s: Settings, mapFeatures: bool)
    ensures var p := AddedPopulators(s, mapFeatures);
      FirstSnow(p) == Some(|p| - 1)
  {
    var st, lakes := Structures(s, mapFeatures), Enabled(LakeTable(s));
    var front := st + lakes + [ANIMALS];
    assert AddedPopulators(s, mapFeatures) == front + [SNOW];
    NoSnowEnabled(StructureTable(s, mapFeatures));
    NoSnowEnabled(LakeTable(s));
    assert forall j :: 0 <= j < |front| ==> front[j] in st || front[j] in lakes || front[j] == ANIMALS;
    FirstSnowAfterNone(front, [SNOW]);
  }

  /** A table none of whose populators is a snow populator adds none. */
  lemma NoSnowEnabled(table: seq<(bool, Populator)>)
    requires forall e :: e in table ==> !InstanceOf(e.1, SNOW_POPULATOR)
    ensures forall p :: p in Enabled(table) ==> !InstanceOf(p, SNOW_POPULATOR)
  {
    EnabledMembers(table);
  }

  /**
   * Run through `populate` on a generator that had no snow populator, the
   * added snow populator runs after every biome populator, and everything
   * else keeps its order.
   */
  lemma SnowRunsAfterBiomePopulators(pop: seq<Populator>, s: Settings, mapFeatures: bool, biomePopulators: seq<Populator>)
    requires FirstSnow(pop).None?
    ensures var added := AddedPopulators(s, mapFeatures);
      RunOrder(pop + added, biomePopulators) == pop + added[..|added| - 1] + biomePopulators + [SNOW]
  {
    var added := AddedPopulators(s, mapFeatures);
    SnowIsAddedLast(s, mapFeatures);
    assert added[|added| - 1] == SNOW;
    LastSnowRunsLast(pop, added, biomePopulators);
  }

  /** Appending a list whose first snow populator is its last element moves just that one behind the biome's populators. */
  lemma LastSnowRunsLast(pop: seq<Populator>, added: seq<Populator>, biomePopulators: seq<Populator>)
    requires FirstSnow(pop).None? && |added| > 0 && FirstSnow(added) == Some(|added| - 1)
    ensures RunOrder(pop + added, biomePopulators) == pop + added[..|added| - 1] + biomePopulators + [added[|added| - 1]]
  {
    FirstSnowAfterNone(pop, added);
    var all := pop + added;
    var k := |pop| + |added| - 1;
    var front, snow := pop + added[..|added| - 1], added[|added| - 1];
    assert all == front + [snow];
    assert all[..k] == front && all[k + 1..] == [] && all[k] == snow;
    assert RunOrder(all, biomePopulators) == all[..k] + all[k + 1..] + biomePopulators + [all[k]];
    assert all[..k] + all[k + 1..] == front;
  }

  lemma {:induction false} FirstSnowAfterNone(xs: seq<Populator>, ys: seq<Populator>)
    requires forall j :: 0 <= j < |xs| ==> !InstanceOf(xs[j], SNOW_POPULATOR)
    requires FirstSnow(ys).Some?
    ensures FirstSnow(xs + ys) == Some(|xs| + FirstSnow(ys).value)
    decreases |xs|
  {
    if |xs| == 0 {
      assert xs + ys == ys;
    } else {
      assert (xs + ys)[0] == xs[0];
      assert (xs + ys)[1..] == xs[1..] + ys;
      FirstSnowAfterNone(xs[1..], ys);
    }
  }

  /** The structure generator a recognised name refers to, and its setting. */
  function StructureGenerator(name: string): (p: Option<Populator>)
    ensures p.Some? <==> StructureClass(name).Some?
    ensures p.Some? ==> InstanceOf(p.value, StructureClass(name).value)
  {
    if name == "Mineshaft" then Some(MINESHAFT)
    else if name == "Village" then Some(VILLAGE)
    else if name == "Stronghold" then Some(STRONGHOLD)
    else if name == "Temple" then Some(TEMPLE)
    else if name == "Monument" then Some(MONUMENT)
    else if name == "Mansion" then Some(MANSION)
    else None
  }

  /**
   * A structure query on a generator set up by `addPopulators` alone is
   * answered by that structure's own generator when it is enabled, and by
   * nobody when it is not (the base is the vanilla generator).
   */
  lemma StructureQueryFindsOwnGenerator(name: string, s: Settings, mapFeatures: bool)
    requires StructureClass(name).Some?
    ensures var d := StructureDispatch(name, AddedGenerationPopulators(s, mapFeatures), false);
      var g := AddedGenerationPopulators(s, mapFeatures);
      (d.GenerationPopulatorAt? ==> d.index < |g| && g[d.index] == StructureGenerator(name).value) &&
      (d.GenerationPopulatorAt? <==> StructureGenerator(name).value in g)
  {
    var carvers, st := Enabled(CaveTable(s)), Structures(s, mapFeatures);
    var g := carvers + st;
    var c := StructureClass(name).value;
    EnabledMembers(CaveTable(s));
    EnabledMembers(StructureTable(s, mapFeatures));
    forall j | 0 <= j < |g| && InstanceOf(g[j], c)
      ensures g[j] == StructureGenerator(name).value
    {
      var x := g[j];
      if x in carvers {
        assert (true, x) in CaveTable(s);
      } else {
        assert x in st;
        assert (true, x) in StructureTable(s, mapFeatures);
      }
      OnlyOwnGeneratorIsOfItsClass(name, x);
    }
  }

  /** Among the overworld's carvers and structures, only a structure's own generator is of its class. */
  lemma OnlyOwnGeneratorIsOfItsClass(name: string, x: Populator)
    requires StructureClass(name).Some?
    requires x in {CAVES, RAVINES, MINESHAFT, VILLAGE, STRONGHOLD, TEMPLE, MONUMENT, MANSION}
    requires InstanceOf(x, StructureClass(name).value)
    ensures x == StructureGenerator(name).value
  {
  }

  // The bedrock floor.

  /** The `nextInt(5)` draw that decides column (x, z), layer y: draws go x, then z, then y. */
  function DrawIndex(x: nat, z: nat, y: nat): (k: nat)
    requires x < 16 && z < 16 && y < 6
    ensures k < 1536
  {
    assert x * 16 + z <= 255;
    (x * 16 + z) * 6 + y
  }

  /** Whether the block at offset (x, y, z) is bedrock after the floor is laid. */
  function Bedrocked(was: bool, x: nat, y: nat, z: nat, draws: seq<int>): bool
    requires x < 16 && z < 16 && |draws| == 1536
  {
    if y < 6 && y <= draws[DrawIndex(x, z, y)] then true else was
  }

  predicate Before(i: int, k: int, j: int, x: int, z: int, y: int) {
    i < x || (i == x && (k < z || (k == z && j < y)))
  }

  /**
   * `setBedrock`: layer y of each column becomes bedrock when y is at most
   * the draw for it. `bedrock[x, y, z]` says whether the block at that offset
   * from the buffer's minimum is bedrock; `draws` are the generator's
   * `nextInt(5)` results in the order they are drawn.
   */
  method SetBedrock(bedrock: array3<bool>, draws: seq<int>)
    requires bedrock.Length0 == 16 && bedrock.Length1 >= 6 && bedrock.Length2 == 16
    requires |draws| == 1536 && forall k :: 0 <= k < 1536 ==> 0 <= draws[k] < 5
    modifies bedrock
    ensures forall x, y, z :: 0 <= x < 16 && 0 <= y < bedrock.Length1 && 0 <= z < 16 ==>
      bedrock[x, y, z] == Bedrocked(old(bedrock[x, y, z]), x, y, z, draws)
    ensures forall x, z :: 0 <= x < 16 && 0 <= z < 16 ==> bedrock[x, 0, z]
    ensures forall x, y, z :: 0 <= x < 16 && 5 <= y < bedrock.Length1 && 0 <= z < 16 ==> bedrock[x, y, z] == old(bedrock[x, y, z])
  {
    for x := 0 to 16
      invariant forall i, j, k :: 0 <= i < 16 && 0 <= j < bedrock.Length1 && 0 <= k < 16 ==>
        bedrock[i, j, k] == if Before(i, k, j, x, 0, 0) then Bedrocked(old(bedrock[i, j, k]), i, j, k, draws) else old(bedrock[i, j, k])
    {
      for z := 0 to 16
        invariant forall i, j, k :: 0 <= i < 16 && 0 <= j < bedrock.Length1 && 0 <= k < 16 ==>
          bedrock[i, j, k] == if Before(i, k, j, x, z, 0) then Bedrocked(old(bedrock[i, j, k]), i, j, k, draws) else old(bedrock[i, j, k])
      {
        for y := 0 to 6
          invariant forall i, j, k :: 0 <= i < 16 && 0 <= j < bedrock.Length1 && 0 <= k < 16 ==>
            bedrock[i, j, k] == if Before(i, k, j, x, z, y) then Bedrocked(old(bedrock[i, j, k]), i, j, k, draws) else old(bedrock[i, j, k])
        {
          if y <= draws[DrawIndex(x, z, y)] {
            bedrock[x, y, z] := true;
          }
        }
      }
    }
  }

  // The zoomed-out biome grid.

  /** The biome read for cell (p, q) of the 10x10 grid of chunk (x, z): every fourth block from 6 before the chunk. */
  function CellBiome(biomeAt: (int, int) -> Biome, x: int, z: int, p: nat, q: nat): Biome {
    biomeAt(4 * p + x * 16 - 6, 4 * q + z * 16 - 6)
  }

  /** Where cell (p, q) of the grid is stored. */
  function CellIndex(p: nat, q: nat): nat {
    p + q * 10
  }

  function Column(i: nat): nat { i % 10 }

  function Row(i: nat): nat { i / 10 }

  /** Every index under 100 stores exactly one cell of the 10x10 grid. */
  lemma CellIndexIsBijective()
    ensures forall p, q, p', q' :: 0 <= p < 10 && 0 <= p' < 10 && CellIndex(p, q) == CellIndex(p', q') ==> p == p' && q == q'
    ensures forall i :: 0 <= i < 100 ==> CellIndex(Column(i), Row(i)) == i && Column(i) < 10 && Row(i) < 10
    ensures forall p, q :: 0 <= p < 10 && 0 <= q < 10 ==> CellIndex(p, q) < 100
  {
  }

  lemma CellOfIndex(p: nat, q: nat)
    requires p < 10 && q < 10
    ensures CellIndex(p, q) < 100 && Column(CellIndex(p, q)) == p && Row(CellIndex(p, q)) == q
  {
  }

  lemma GridBounds()
    ensures forall i :: 0 <= i < 100 ==> Column(i) < 10 && Row(i) < 10
  {
  }

  class OverworldGenerator {
    var settings: Settings
    var mapFeaturesEnabled: bool
    var biomesForGeneration: array?<Biome>

    /** Settings the world did not supply are the settings factory's defaults. */
    constructor (settings: Option<Settings>, factoryDefaults: Settings, mapFeaturesEnabled: bool)
      ensures this.settings == (if settings.Some? then settings.value else factoryDefaults)
      ensures this.mapFeaturesEnabled == mapFeaturesEnabled && biomesForGeneration == null
    {
      this.settings := if settings.Some? then settings.value else factoryDefaults;
      this.mapFeaturesEnabled := mapFeaturesEnabled;
      biomesForGeneration := null;
    }

    /** `addPopulators`: the generator's own populators are appended to the world generator's two lists. */
    method AddPopulators(generator: SpongeChunkGenerator)
      modifies generator`genpop, generator`pop
      ensures generator.genpop == old(generator.genpop) + AddedGenerationPopulators(settings, mapFeaturesEnabled)
      ensures generator.pop == old(generator.pop) + AddedPopulators(settings, mapFeaturesEnabled)
    {
      ghost var g0, p0 := generator.genpop, generator.pop;
      AddCarvers(generator);
      AddStructures(generator);
      Regroup(g0, Enabled(CaveTable(settings)), Structures(settings, mapFeaturesEnabled), []);
      AddLakesAndDungeons(generator);
      generator.pop := generator.pop + [ANIMALS, SNOW];
      Regroup(p0, Structures(settings, mapFeaturesEnabled), Enabled(LakeTable(settings)), [ANIMALS, SNOW]);
    }

    /** Caves, then ravines, into the generation populators. */
    method AddCarvers(generator: SpongeChunkGenerator)
      modifies generator`genpop
      ensures generator.genpop == old(generator.genpop) + Enabled(CaveTable(settings))
    {
      ghost var g0 := generator.genpop;
      var carvers := CaveTable(settings);
      EnabledPrefix(carvers, 0);
      AddToGenerationIfEnabled(generator, carvers, 0, g0);
      AddToGenerationIfEnabled(generator, carvers, 1, g0);
      assert carvers[..2] == carvers;
    }

    /** The structures, into both lists. */
    method AddStructures(generator: SpongeChunkGenerator)
      modifies generator`genpop, generator`pop
      ensures generator.genpop == old(generator.genpop) + Structures(settings, mapFeaturesEnabled)
      ensures generator.pop == old(generator.pop) + Structures(settings, mapFeaturesEnabled)
    {
      ghost var g0, p0 := generator.genpop, generator.pop;
      var structures := StructureTable(settings, mapFeaturesEnabled);
      EnabledPrefix(structures, 0);
      AddToBothIfEnabled(generator, structures, 0, g0, p0);
      AddToBothIfEnabled(generator, structures, 1, g0, p0);
      AddToBothIfEnabled(generator, structures, 2, g0, p0);
      AddToBothIfEnabled(generator, structures, 3, g0, p0);
      AddToBothIfEnabled(generator, structures, 4, g0, p0);
      AddToBothIfEnabled(generator, structures, 5, g0, p0);
      assert structures[..6] == structures;
    }

    /** The water lake, the lava lake and the dungeons, into the populators. */
    method AddLakesAndDungeons(generator: SpongeChunkGenerator)
      modifies generator`pop
      ensures generator.pop == old(generator.pop) + Enabled(LakeTable(settings))
    {
      ghost var p0 := generator.pop;
      var lakes := LakeTable(settings);
      EnabledPrefix(lakes, 0);
      AddToPopulationIfEnabled(generator, lakes, 0, p0);
      AddToPopulationIfEnabled(generator, lakes, 1, p0);
      AddToPopulationIfEnabled(generator, lakes, 2, p0);
      assert lakes[..3] == lakes;
    }

    /** One structure block of `addPopulators`: entry k of the table, when switched on, goes into both lists. */
    method AddToBothIfEnabled(generator: SpongeChunkGenerator, table: seq<(bool, Populator)>, k: nat,
                              ghost g0: seq<Populator>, ghost p0: seq<Populator>)
      requires k < |table|
      requires generator.genpop == g0 + Enabled(table[..k]) && generator.pop == p0 + Enabled(table[..k])
      modifies generator`genpop, generator`pop
      ensures generator.genpop == g0 + Enabled(table[..k + 1]) && generator.pop == p0 + Enabled(table[..k + 1])
    {
      EnabledPrefix(table, k);
      if table[k].0 {
        generator.genpop, generator.pop := generator.genpop + [table[k].1], generator.pop + [table[k].1];
      }
    }

    /** One carver block: entry k, when switched on, goes into the generation populators. */
    method AddToGenerationIfEnabled(generator: SpongeChunkGenerator, table: seq<(bool, Populator)>, k: nat, ghost g0: seq<Populator>)
      requires k < |table|
      requires generator.genpop == g0 + Enabled(table[..k])
      modifies generator`genpop
      ensures generator.genpop == g0 + Enabled(table[..k + 1])
    {
      EnabledPrefix(table, k);
      if table[k].0 {
        generator.genpop := generator.genpop + [table[k].1];
      }
    }

    /** One lake or dungeon block: entry k, when switched on, goes into the populators. */
    method AddToPopulationIfEnabled(generator: SpongeChunkGenerator, table: seq<(bool, Populator)>, k: nat, ghost p0: seq<Populator>)
      requires k < |table|
      requires generator.pop == p0 + Enabled(table[..k])
      modifies generator`pop
      ensures generator.pop == p0 + Enabled(table[..k + 1])
    {
      EnabledPrefix(table, k);
      if table[k].0 {
        generator.pop := generator.pop + [table[k].1];
      }
    }

    /**
     * `getBiomesFromGenerator` for a biome generator that is not a vanilla
     * biome provider: the grid array is reused when it holds at least 100
     * biomes and replaced otherwise; cell (p, q) is stored at p + 10q.
     */
    method GetBiomesFromGenerator(x: int, z: int, biomeAt: (int, int) -> Biome) returns (r: array<Biome>)
      modifies this`biomesForGeneration, biomesForGeneration
      ensures r == biomesForGeneration && r.Length >= 100
      ensures old(biomesForGeneration) != null && old(biomesForGeneration.Length) >= 100 ==> r == old(biomesForGeneration)
      ensures old(biomesForGeneration) == null || old(biomesForGeneration.Length) < 100 ==> fresh(r) && r.Length == 100
      ensures forall p, q :: 0 <= p < 10 && 0 <= q < 10 ==> r[CellIndex(p, q)] == CellBiome(biomeAt, x, z, p, q)
      ensures forall i :: 0 <= i < 100 ==> r[i] == CellBiome(biomeAt, x, z, Column(i), Row(i))
      ensures r == old(biomesForGeneration) ==> forall i :: 100 <= i < r.Length ==> r[i] == old(r[i])
    {
      if biomesForGeneration == null || biomesForGeneration.Length < 100 {
        biomesForGeneration := new Biome[100];
      }
      r := biomesForGeneration;
      var bx := 0;
      ghost var p := 0;
      while bx < 40
        invariant bx == 4 * p && 0 <= p <= 10
        invariant r == biomesForGeneration
        invariant forall i :: 0 <= i < 100 && Column(i) < p ==> r[i] == CellBiome(biomeAt, x, z, Column(i), Row(i))
        invariant forall i :: 100 <= i < r.Length ==> r[i] == old(r[i])
      {
        var bz := 0;
        ghost var q := 0;
        while bz < 40
          invariant bz == 4 * q && 0 <= q <= 10
          invariant r == biomesForGeneration
          invariant forall i :: 0 <= i < 100 && (Column(i) < p || (Column(i) == p && Row(i) < q)) ==>
            r[i] == CellBiome(biomeAt, x, z, Column(i), Row(i))
          invariant forall i :: 100 <= i < r.Length ==> r[i] == old(r[i])
        {
          var absX := bx + x * 16 - 6;
          var absZ := bz + z * 16 - 6;
          assert bx / 4 == p && bz / 4 == q;
          CellOfIndex(p, q);
          r[(bx / 4) + (bz / 4) * 10] := biomeAt(absX, absZ);
          bz, q := bz + 4, q + 1;
        }
        GridBounds();
        bx, p := bx + 4, p + 1;
      }
      GridBounds();
      forall p, q | 0 <= p < 10 && 0 <= q < 10
        ensures r[CellIndex(p, q)] == CellBiome(biomeAt, x, z, p, q)
      {
        CellOfIndex(p, q);
      }
    }
  }
}
