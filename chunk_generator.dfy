// SpongeChunkGenerator: the bookkeeping around world generation that needs
// no engine semantics: the chunk seed, the per-biome settings cache, the
// biomes of a chunk in first-seen order, the order in which populators run,
// the structure names it understands and its typed populator filters.
module ChunkGenerator {
  import opened Common
  import opened JavaLang

  /** The classes populators are tested against; any other class is known by its name. */
  datatype JavaClass =
    | GenerationPopulatorClass | PopulatorClass | SnowPopulatorClass
    | MapGenBase | MapGenStructure | MapGenCaves | MapGenRavine
    | MapGenStronghold | WoodlandMansion | StructureOceanMonument
    | MapGenVillage | MapGenMineshaft | MapGenScatteredFeature
    | FilteredPopulatorClass | DungeonClass | AnimalPopulatorClass
    | OtherClass(name: string)

  /** A (generation) populator: the object it is, by number, and the classes it is an instance of. */
  datatype Populator = Populator(id: nat, classes: set<JavaClass>)

  predicate InstanceOf(p: Populator, className: JavaClass) {
    className in p.classes
  }

  /** A biome's generation settings: its own generation populators and populators. */
  datatype BiomeSettings = BiomeSettings(id: nat, generationPopulators: seq<Populator>, populators: seq<Populator>)

  type Biome = nat

  // The chunk seed.

  /** `chunkX * 341873128712L + chunkZ * 132897987541L` in `long` arithmetic. */
  function ChunkSeed(chunkX: int, chunkZ: int): (r: int)
    requires IsInt(chunkX) && IsInt(chunkZ)
    ensures IsLong(r)
  {
    Wrap64(Wrap64(chunkX * 341873128712) + Wrap64(chunkZ * 132897987541))
  }

  /** Wrapping the products and the sum is wrapping the exact value. */
  lemma ChunkSeedIsExactValueWrapped(chunkX: int, chunkZ: int)
    requires IsInt(chunkX) && IsInt(chunkZ)
    ensures ChunkSeed(chunkX, chunkZ) == Wrap64(chunkX * 341873128712 + chunkZ * 132897987541)
    ensures ChunkSeed(0, 0) == 0
  {
    var a, b := chunkX * 341873128712, chunkZ * 132897987541;
    WrapSum(a, b);
  }

  lemma WrapSum(a: int, b: int)
    ensures Wrap64(Wrap64(a) + Wrap64(b)) == Wrap64(a + b)
  {
    var ra, rb := Wrap64(a), Wrap64(b);
    var qa, qb := (a - ra) / TWO_64, (b - rb) / TWO_64;
    assert a - ra == qa * TWO_64;
    assert b - rb == qb * TWO_64;
    assert ra + rb == (a + b) - (qa + qb) * TWO_64;
    ShiftByMultiple(a + b, qa + qb);
  }

  lemma ShiftByMultiple(x: int, q: int)
    ensures (x - q * TWO_64) % TWO_64 == x % TWO_64
  {
  }

  /** Chunks along one axis do not collide in seed near the origin. */
  lemma NeighbouringChunksDiffer()
    ensures ChunkSeed(1, 0) != ChunkSeed(0, 1)
  {
  }

  // The typed filters.

  /** `stream().filter(type.isAssignableFrom(p.getClass()))`: the instances of a class, in order. */
  function Filter(ps: seq<Populator>, className: JavaClass): (r: seq<Populator>)
    ensures forall p :: p in r <==> p in ps && InstanceOf(p, className)
    decreases |ps|
  {
    if |ps| == 0 then []
    else
      var init := Filter(ps[..|ps| - 1], className);
      var last := ps[|ps| - 1];
      assert ps == ps[..|ps| - 1] + [last];
      if InstanceOf(last, className) then init + [last] else init
  }

  /** Filtering keeps the order: filtering a concatenation is concatenating the filtered parts. */
  lemma {:induction false} FilterKeepsOrder(xs: seq<Populator>, ys: seq<Populator>, className: JavaClass)
    ensures Filter(xs + ys, className) == Filter(xs, className) + Filter(ys, className)
    decreases |ys|
  {
    if |ys| == 0 {
      assert xs + ys == xs;
    } else {
      var init := ys[..|ys| - 1];
      assert (xs + ys)[..|xs + ys| - 1] == xs + init;
      assert ys == init + [ys[|ys| - 1]];
      FilterKeepsOrder(xs, init, className);
    }
  }

  // The unique biomes.

  /** The 16x16 biomes of a chunk in scan order, x outer and z inner. */
  function Grid(biomeAt: (int, int) -> Biome): (r: seq<Biome>)
    ensures |r| == 256
    ensures forall i :: 0 <= i < 256 ==> r[i] == biomeAt(i / 16, i % 16)
  {
    seq(256, i requires 0 <= i < 256 => biomeAt(i / 16, i % 16))
  }

  /** The elements of a sequence in first-occurrence order, each once. */
  function Dedup(s: seq<Biome>): seq<Biome>
    decreases |s|
  {
    if |s| == 0 then []
    else
      var init := Dedup(s[..|s| - 1]);
      if s[|s| - 1] in init then init else init + [s[|s| - 1]]
  }

  predicate NoDuplicates(s: seq<Biome>) {
    forall i, j :: 0 <= i < j < |s| ==> s[i] != s[j]
  }

  /** The first position of an element. */
  function FirstIndex(s: seq<Biome>, b: Biome): (k: nat)
    requires b in s
    ensures k < |s| && s[k] == b && forall j :: 0 <= j < k ==> s[j] != b
  {
    if s[0] == b then 0 else assert b in s[1..]; 1 + FirstIndex(s[1..], b)
  }

  /**
   * The de-duplicated list holds each element once, exactly the elements of
   * the input, and in the order of their first occurrences.
   */
  lemma {:induction false} DedupMeaning(s: seq<Biome>)
    ensures NoDuplicates(Dedup(s))
    ensures forall b :: b in Dedup(s) <==> b in s
    ensures forall i, j :: 0 <= i < j < |Dedup(s)| ==> FirstIndex(s, Dedup(s)[i]) < FirstIndex(s, Dedup(s)[j])
    decreases |s|
  {
    if |s| > 0 {
      var n := |s| - 1;
      var init := s[..n];
      DedupMeaning(init);
      assert s == init + [s[n]];
      forall b | b in init
        ensures FirstIndex(s, b) == FirstIndex(init, b)
      {
        FirstIndexOfPrefix(init, [s[n]], b);
      }
      if s[n] !in init {
        forall b | b in init
          ensures FirstIndex(s, b) < FirstIndex(s, s[n])
        {
          assert forall j :: 0 <= j < n ==> s[j] == init[j];
          assert FirstIndex(s, s[n]) == n;
        }
      }
    }
  }

  lemma FirstIndexOfPrefix(xs: seq<Biome>, ys: seq<Biome>, b: Biome)
    requires b in xs
    ensures b in xs + ys && FirstIndex(xs + ys, b) == FirstIndex(xs, b)
  {
    var k := FirstIndex(xs, b);
    assert (xs + ys)[k] == b;
    assert forall j :: 0 <= j < |xs| ==> (xs + ys)[j] == xs[j];
  }

  /** The biomes `generateChunk` runs the biome generation populators for: the chunk's biomes, each once, in first-seen order. */
  method UniqueBiomes(biomeAt: (int, int) -> Biome) returns (unique: seq<Biome>)
    ensures unique == Dedup(Grid(biomeAt))
  {
    ghost var grid := Grid(biomeAt);
    unique := [];
    for x := 0 to 16
      invariant unique == Dedup(grid[..16 * x])
    {
      for z := 0 to 16
        invariant unique == Dedup(grid[..16 * x + z])
      {
        var biome := biomeAt(x, z);
        GridAt(biomeAt, x, z);
        DedupStep(grid, 16 * x + z);
        if biome !in unique {
          unique := unique + [biome];
        }
      }
      assert 16 * x + 16 == 16 * (x + 1);
    }
    assert grid[..256] == grid;
  }

  lemma GridAt(biomeAt: (int, int) -> Biome, x: int, z: int)
    requires 0 <= x < 16 && 0 <= z < 16
    ensures 16 * x + z < 256 && Grid(biomeAt)[16 * x + z] == biomeAt(x, z)
  {
    var n := 16 * x + z;
    assert n / 16 == x && n % 16 == z;
  }

  lemma DedupStep(s: seq<Biome>, n: nat)
    requires n < |s|
    ensures Dedup(s[..n + 1]) == if s[n] in Dedup(s[..n]) then Dedup(s[..n]) else Dedup(s[..n]) + [s[n]]
  {
    assert s[..n + 1][..n] == s[..n];
  }

  // The populators of `populate`.

  const SNOW_POPULATOR: JavaClass := SnowPopulatorClass

  /** The position of the first snow populator, if any. */
  function FirstSnow(ps: seq<Populator>): (r: Option<nat>)
    ensures r.Some? ==> (r.value < |ps| && InstanceOf(ps[r.value], SNOW_POPULATOR) &&
      forall j :: 0 <= j < r.value ==> !InstanceOf(ps[j], SNOW_POPULATOR))
    ensures r.None? ==> forall j :: 0 <= j < |ps| ==> !InstanceOf(ps[j], SNOW_POPULATOR)
    decreases |ps|
  {
    if |ps| == 0 then None
    else if InstanceOf(ps[0], SNOW_POPULATOR) then Some(0)
    else
      match FirstSnow(ps[1..])
      case None => None
      case Some(k) => Some(k + 1)
  }

  /**
   * The run order: the world's populators without the first snow populator,
   * then the biome's populators, then that snow populator.
   */
  function RunOrder(pop: seq<Populator>, biomePopulators: seq<Populator>): seq<Populator> {
    match FirstSnow(pop)
    case None => pop + biomePopulators
    case Some(k) => pop[..k] + pop[k + 1..] + biomePopulators + [pop[k]]
  }

  /** The run order is a rearrangement of both lists; it ends with the first snow populator when there is one. */
  lemma RunOrderMeaning(pop: seq<Populator>, biomePopulators: seq<Populator>)
    ensures multiset(RunOrder(pop, biomePopulators)) == multiset(pop) + multiset(biomePopulators)
    ensures FirstSnow(pop).Some? ==> RunOrder(pop, biomePopulators)[|RunOrder(pop, biomePopulators)| - 1] == pop[FirstSnow(pop).value]
    ensures FirstSnow(pop).None? ==> RunOrder(pop, biomePopulators) == pop + biomePopulators
  {
    if FirstSnow(pop).Some? {
      var k := FirstSnow(pop).value;
      var before, snow, after := pop[..k], pop[k], pop[k + 1..];
      assert pop == before + [snow] + after;
      assert RunOrder(pop, biomePopulators) == before + after + biomePopulators + [snow];
      calc {
        multiset(RunOrder(pop, biomePopulators));
        multiset(before) + multiset(after) + multiset(biomePopulators) + multiset{snow};
        multiset(before + [snow] + after) + multiset(biomePopulators);
      }
    }
  }

  /** Only the first snow populator moves: a later one keeps its place among the world's populators. */
  lemma OnlyFirstSnowMoves(pop: seq<Populator>, biomePopulators: seq<Populator>, j: nat)
    requires FirstSnow(pop).Some? && FirstSnow(pop).value < j < |pop|
    ensures RunOrder(pop, biomePopulators)[j - 1] == pop[j]
  {
  }

  // Structures.

  /** The structure class a name stands for; any other name has none. */
  function StructureClass(structureName: string): (r: Option<JavaClass>)
    ensures r.Some? <==> structureName in {"Stronghold", "Mansion", "Monument", "Village", "Mineshaft", "Temple"}
  {
    if structureName == "Stronghold" then Some(MapGenStronghold)
    else if structureName == "Mansion" then Some(WoodlandMansion)
    else if structureName == "Monument" then Some(StructureOceanMonument)
    else if structureName == "Village" then Some(MapGenVillage)
    else if structureName == "Mineshaft" then Some(MapGenMineshaft)
    else if structureName == "Temple" then Some(MapGenScatteredFeature)
    else None
  }

  /** Who answers a structure query: the first matching generation populator, the wrapped mod generator, or nobody. */
  datatype StructureAnswerer = GenerationPopulatorAt(index: nat) | WrappedGenerator | Nobody

  function FirstInstance(ps: seq<Populator>, className: JavaClass): (r: Option<nat>)
    ensures r.Some? ==> (r.value < |ps| && InstanceOf(ps[r.value], className) &&
      forall j :: 0 <= j < r.value ==> !InstanceOf(ps[j], className))
    ensures r.None? ==> forall j :: 0 <= j < |ps| ==> !InstanceOf(ps[j], className)
    decreases |ps|
  {
    if |ps| == 0 then None
    else if InstanceOf(ps[0], className) then Some(0)
    else
      match FirstInstance(ps[1..], className)
      case None => None
      case Some(k) => Some(k + 1)
  }

  /** The dispatch shared by `getNearestStructurePos` and `isInsideStructure`. */
  function StructureDispatch(structureName: string, genpop: seq<Populator>, baseIsModGenerator: bool): (r: StructureAnswerer)
    ensures StructureClass(structureName).None? ==> r == Nobody
  {
    match StructureClass(structureName)
    case None => Nobody
    case Some(target) =>
      match FirstInstance(genpop, target)
      case Some(k) => GenerationPopulatorAt(k)
      case None => if baseIsModGenerator then WrappedGenerator else Nobody
  }

  /** `getNearestStructurePos`: the answerer's position, or null. */
  function NearestStructurePos<Pos>(structureName: string, genpop: seq<Populator>, baseIsModGenerator: bool,
                                    nearestOf: nat -> Option<Pos>, wrappedNearest: Option<Pos>): (r: Option<Pos>)
    ensures StructureClass(structureName).None? ==> r.None?
  {
    match StructureDispatch(structureName, genpop, baseIsModGenerator)
    case GenerationPopulatorAt(k) => nearestOf(k)
    case WrappedGenerator => wrappedNearest
    case Nobody => None
  }

  /** `isInsideStructure`: the answerer's answer, or false. */
  function IsInsideStructure(structureName: string, genpop: seq<Populator>, baseIsModGenerator: bool,
                             insideOf: nat -> bool, wrappedInside: bool): (r: bool)
    ensures StructureClass(structureName).None? ==> !r
  {
    match StructureDispatch(structureName, genpop, baseIsModGenerator)
    case GenerationPopulatorAt(k) => insideOf(k)
    case WrappedGenerator => wrappedInside
    case Nobody => false
  }

  /** A recognised structure is answered by the first generation populator of its class when there is one. */
  lemma FirstMatchingPopulatorAnswers(structureName: string, genpop: seq<Populator>, baseIsModGenerator: bool, j: nat)
    requires StructureClass(structureName).Some? && j < |genpop| && InstanceOf(genpop[j], StructureClass(structureName).value)
    ensures StructureDispatch(structureName, genpop, baseIsModGenerator).GenerationPopulatorAt?
    ensures StructureDispatch(structureName, genpop, baseIsModGenerator).index <= j
  {
  }

  // The generator's state.

  /** The biome-settings cache: the cached settings, or the fresh ones stored under the biome. */
  function CachedSettings(cache: map<Biome, BiomeSettings>, biome: Biome, created: BiomeSettings): (r: (BiomeSettings, map<Biome, BiomeSettings>))
    ensures biome in cache ==> r == (cache[biome], cache)
    ensures biome !in cache ==> r == (created, cache[biome := created])
  {
    if biome in cache then (cache[biome], cache) else (created, cache[biome := created])
  }

  /** A second lookup returns the settings of the first and leaves the cache as the first left it. */
  lemma CacheIsMemo(cache: map<Biome, BiomeSettings>, biome: Biome, created: BiomeSettings, created2: BiomeSettings)
    ensures var (s1, c1) := CachedSettings(cache, biome, created);
      CachedSettings(c1, biome, created2) == (s1, c1)
    ensures var (_, c1) := CachedSettings(cache, biome, created);
      c1.Keys == cache.Keys + {biome} && forall b :: b in cache ==> c1[b] == cache[b]
  {
  }

  class SpongeChunkGenerator {
    var genpop: seq<Populator>
    var pop: seq<Populator>
    var biomeSettings: map<Biome, BiomeSettings>
    /** Whether the base generator is a wrapped mod generator (a SpongeGenerationPopulator). */
    var baseIsModGenerator: bool

    constructor (baseIsModGenerator: bool)
      ensures genpop == [] && pop == [] && biomeSettings == map[] && this.baseIsModGenerator == baseIsModGenerator
    {
      genpop, pop, biomeSettings := [], [], map[];
      this.baseIsModGenerator := baseIsModGenerator;
    }

    /** The setters keep a copy of the list or map they are given. */
    method SetGenerationPopulators(ps: seq<Populator>)
      modifies this`genpop
      ensures genpop == ps
    {
      genpop := ps;
    }

    method SetPopulators(ps: seq<Populator>)
      modifies this`pop
      ensures pop == ps
    {
      pop := ps;
    }

    method SetBiomeOverrides(overrides: map<Biome, BiomeSettings>)
      modifies this`biomeSettings
      ensures biomeSettings == overrides
    {
      biomeSettings := overrides;
    }

    /**
     * `getBiomeSettings`: null is refused; an uncached biome gets empty
     * settings under a mod generator and the biome's default settings
     * otherwise, and keeps them.
     */
    method GetBiomeSettings(biome: Option<Biome>, emptySettings: BiomeSettings, defaultSettings: BiomeSettings)
      returns (r: Result<BiomeSettings>)
      modifies this`biomeSettings
      ensures biome.None? ==> r == Err(NullThrown) && biomeSettings == old(biomeSettings)
      ensures biome.Some? ==>
        var (s, cache) := CachedSettings(old(biomeSettings), biome.value, if baseIsModGenerator then emptySettings else defaultSettings);
        r == Ok(s) && biomeSettings == cache
    {
      if biome.None? {
        return Err(NullThrown);
      }
      if biome.value in biomeSettings {
        return Ok(biomeSettings[biome.value]);
      }
      var settings := if baseIsModGenerator then emptySettings else defaultSettings;
      biomeSettings := biomeSettings[biome.value := settings];
      r := Ok(settings);
    }

    /** The typed getters. */
    function GetGenerationPopulators(className: JavaClass): (r: seq<Populator>)
      reads this
      ensures forall p :: p in r <==> p in genpop && InstanceOf(p, className)
    {
      Filter(genpop, className)
    }

    function GetPopulators(className: JavaClass): (r: seq<Populator>)
      reads this
      ensures forall p :: p in r <==> p in pop && InstanceOf(p, className)
    {
      Filter(pop, className)
    }

    /** The list `populate` runs: its own copy of the world's populators, rearranged. */
    method PopulatorsToRun(settings: BiomeSettings) returns (populators: seq<Populator>)
      ensures populators == RunOrder(pop, settings.populators)
    {
      populators := pop;
      var snow: Option<Populator> := None;
      var i := 0;
      while i < |populators|
        invariant i <= |populators| && populators == pop
        invariant forall j :: 0 <= j < i ==> !InstanceOf(pop[j], SNOW_POPULATOR)
      {
        if InstanceOf(populators[i], SNOW_POPULATOR) {
          snow := Some(populators[i]);
          populators := populators[..i] + populators[i + 1..];
          assert FirstSnow(pop) == Some(i);
          break;
        }
        i := i + 1;
      }
      populators := populators + settings.populators;
      if snow.Some? {
        populators := populators + [snow.value];
      }
    }
  }
}
