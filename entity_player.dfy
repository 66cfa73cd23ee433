// A player's experience: the total experience needed to reach a level, the
// experience accessors built on it, flying, and whether the player counts
// for mob spawning.
module EntityPlayer {
  import opened JavaLang

  /** `Math.pow(level, 2)`, exact for the levels a game reaches. */
  function Squared(level: int): real {
    (level * level) as real
  }

  /** `xpAtLevel`: the piecewise quadratic, computed in doubles and cast back to an `int`. */
  function XpAtLevel(level: int): int {
    if level > 30 then IntCast(4.5 * Squared(level) - 162.5 * level as real + 2220.0)
    else if level > 15 then IntCast(2.5 * Squared(level) - 40.5 * level as real + 360.0)
    else IntCast(Squared(level) + 6.0 * level as real)
  }

  /** The engine's `xpBarCap()` at a level: the experience from that level to the next. */
  function XpBarCap(level: int): int {
    if level >= 30 then 112 + (level - 30) * 9
    else if level >= 15 then 37 + (level - 15) * 5
    else 7 + level * 2
  }

  /** The experience of all the bars below a level. */
  function TotalBarCaps(level: nat): int {
    if level == 0 then 0 else TotalBarCaps(level - 1) + XpBarCap(level - 1)
  }

  /** An exact value forced into the `int` range, as a saturating cast does. */
  function Clamp(x: int): int {
    if x > INT_MAX then INT_MAX else if x < INT_MIN then INT_MIN else x
  }

  /** The value of the quadratic in exact integers: the two halves always cancel. */
  function ExactXp(level: int): int {
    if level > 30 then 9 * Triangle(level) - 158 * level + 2220
    else if level > 15 then 5 * Triangle(level) - 38 * level + 360
    else level * level + 6 * level
  }

  /** `level * (level - 1) / 2`, a whole number for every level. */
  function Triangle(level: int): int {
    (level * level - level) / 2
  }

  lemma TriangleIsExact(level: int)
    ensures 2 * Triangle(level) == level * level - level
  {
    var q := level / 2;
    if level % 2 == 0 {
      assert level == 2 * q;
      assert level * level - level == 2 * (2 * q * q - q);
    } else {
      assert level == 2 * q + 1;
      assert level * level - level == 2 * (q * (2 * q + 1));
    }
  }

  lemma IntCastOfWhole(m: int)
    ensures IntCast(m as real) == Clamp(m)
  {
  }

  /**
   * The double arithmetic is exact: `xpAtLevel` is `level² + 6·level` up to
   * 15, `(5·level² − 81·level + 720) / 2` from 16 to 30 and
   * `(9·level² − 325·level + 4440) / 2` above, with nothing lost to the
   * truncating cast (both numerators are even), and saturated to the `int` range.
   */
  lemma XpAtLevelIsExact(level: int)
    ensures XpAtLevel(level) == Clamp(ExactXp(level))
    ensures level <= 15 ==> ExactXp(level) == level * level + 6 * level
    ensures 15 < level <= 30 ==> 2 * ExactXp(level) == 5 * (level * level) - 81 * level + 720
    ensures 30 < level ==> 2 * ExactXp(level) == 9 * (level * level) - 325 * level + 4440
  {
    TriangleIsExact(level);
    if level > 30 {
      HalvesCancel(level, 4.5, 162.5, 2220.0, 9, 158, 2220);
    } else if level > 15 {
      HalvesCancel(level, 2.5, 40.5, 360.0, 5, 38, 360);
    } else {
      assert Squared(level) + 6.0 * level as real == (level * level + 6 * level) as real;
    }
    IntCastOfWhole(ExactXp(level));
  }

  /** `a·level² − b·level + c` in reals, with `a = m/2` and `b = a + n`, is the whole number `m·T − n·level + c`. */
  lemma HalvesCancel(level: int, a: real, b: real, c: real, m: int, n: int, whole: int)
    requires a == m as real / 2.0 && b == a + n as real && c == whole as real
    ensures a * Squared(level) - b * level as real + c == (m * Triangle(level) - n * level + whole) as real
  {
    TriangleIsExact(level);
    var t := Triangle(level);
    assert Squared(level) == 2.0 * t as real + level as real;
    calc {
      a * Squared(level) - b * level as real + c;
      a * (2.0 * t as real + level as real) - (a + n as real) * level as real + c;
      (m as real) * (t as real) - (n as real) * (level as real) + c;
    }
  }

  /** One level more costs exactly one bar: the quadratic is the running total of `xpBarCap`. */
  lemma ExactXpStep(level: int)
    requires level >= 0
    ensures ExactXp(level + 1) == ExactXp(level) + XpBarCap(level)
  {
    var n := level + 1;
    TriangleIsExact(level);
    TriangleIsExact(n);
    assert n * n == level * level + 2 * level + 1;
  }

  lemma {:induction false} ExactXpIsTotal(level: nat)
    ensures ExactXp(level) == TotalBarCaps(level)
  {
    if level > 0 {
      ExactXpIsTotal(level - 1);
      ExactXpStep(level - 1);
    }
  }

  lemma {:induction false} TotalBarCapsIsNonNegative(level: nat)
    ensures TotalBarCaps(level) >= 0
  {
    if level > 0 {
      TotalBarCapsIsNonNegative(level - 1);
    }
  }

  /** Up to level 21001 the total fits in an `int`, so no saturation happens. */
  lemma ExactXpFits(level: nat)
    requires level <= 21001
    ensures 0 <= ExactXp(level) <= INT_MAX
  {
    ExactXpIsTotal(level);
    TotalBarCapsIsNonNegative(level);
    TriangleIsExact(level);
    if level > 30 {
      SquareIsMonotone(level, 21001);
    } else {
      SquareIsMonotone(level, 30);
    }
  }

  lemma SquareIsMonotone(x: nat, bound: nat)
    requires x <= bound
    ensures x * x <= bound * bound
  {
    assert x * x <= x * bound;
  }

  /**
   * From level 0, where it is 0, up to level 21001, `xpAtLevel` is the sum of
   * the bars of the levels below, and each step up adds that level's bar.
   */
  lemma XpAtLevelSumsBarCaps(level: nat)
    requires level <= 21000
    ensures XpAtLevel(0) == 0
    ensures XpAtLevel(level) == TotalBarCaps(level)
    ensures XpAtLevel(level + 1) == XpAtLevel(level) + XpBarCap(level)
  {
    XpAtLevelIsExact(0);
    XpAtLevelIsExact(level);
    XpAtLevelIsExact(level + 1);
    ExactXpFits(level);
    ExactXpFits(level + 1);
    ExactXpIsTotal(level);
    ExactXpStep(level);
  }

  /** Shifting by a whole number of 2^32 does not change the wrapped `int`. */
  lemma WrapShift(x: int, k: int)
    ensures Wrap32(x + k * TWO_32) == Wrap32(x)
  {
    assert (x + k * TWO_32) % TWO_32 == x % TWO_32;
  }

  /**
   * `setExperienceSinceLevel(e)` then `getExperienceSinceLevel()` gives `e`
   * back at the same level, even when the total wraps around.
   */
  lemma SinceLevelRoundTrip(level: int, experience: int)
    requires IsInt(experience)
    ensures Wrap32(Wrap32(XpAtLevel(level) + experience) - XpAtLevel(level)) == experience
  {
    var a := XpAtLevel(level);
    var t := Wrap32(a + experience);
    var q := (a + experience - t) / TWO_32;
    assert a + experience - t == q * TWO_32;
    WrapShift(experience, -q);
    assert t - a == experience + (-q) * TWO_32;
  }

  datatype PlayerFields = PlayerFields(
    experienceLevel: int,
    experienceTotal: int,
    flying: bool,              // `capabilities.isFlying`
    affectsSpawning: bool,
    spectator: bool)           // the game mode's `isSpectator()`

  class Player {
    var experienceLevel: int
    var experienceTotal: int
    var flying: bool
    var affectsSpawning: bool
    var spectator: bool

    /** A player as the engine makes one; the spawning flag starts set. */
    constructor (level: int, total: int, flying: bool, spectator: bool)
      ensures Fields() == PlayerFields(level, total, flying, true, spectator)
    {
      experienceLevel := level;
      experienceTotal := total;
      this.flying := flying;
      affectsSpawning := true;
      this.spectator := spectator;
    }

    function Fields(): PlayerFields
      reads this
    {
      PlayerFields(experienceLevel, experienceTotal, flying, affectsSpawning, spectator)
    }

    function GetExperienceSinceLevel(): int
      reads this
    {
      Wrap32(experienceTotal - XpAtLevel(experienceLevel))
    }

    method SetExperienceSinceLevel(experience: int)
      requires IsInt(experience)
      modifies this
      ensures Fields() == old(Fields()).(experienceTotal := Wrap32(XpAtLevel(experienceLevel) + experience))
      ensures GetExperienceSinceLevel() == experience
    {
      experienceTotal := Wrap32(XpAtLevel(experienceLevel) + experience);
      SinceLevelRoundTrip(experienceLevel, experience);
    }

    function GetExperienceBetweenLevels(): int
      reads this
    {
      XpBarCap(experienceLevel)
    }

    function GetLevel(): int
      reads this
    {
      experienceLevel
    }

    method SetLevel(level: int)
      modifies this
      ensures Fields() == old(Fields()).(experienceLevel := level)
      ensures GetLevel() == level
    {
      experienceLevel := level;
    }

    function GetTotalExperience(): int
      reads this
    {
      experienceTotal
    }

    method SetTotalExperience(exp: int)
      modifies this
      ensures Fields() == old(Fields()).(experienceTotal := exp)
      ensures GetTotalExperience() == exp
    {
      experienceTotal := exp;
    }

    function IsFlying(): bool
      reads this
    {
      flying
    }

    method SetFlying(flying: bool)
      modifies this
      ensures Fields() == old(Fields()).(flying := flying)
      ensures IsFlying() == flying
    {
      this.flying := flying;
    }

    /** A spectator never counts for spawning, whatever its flag says. */
    function AffectsSpawning(): bool
      reads this
    {
      affectsSpawning && !spectator
    }

    method SetAffectsSpawning(affectsSpawning: bool)
      modifies this
      ensures Fields() == old(Fields()).(affectsSpawning := affectsSpawning)
      ensures AffectsSpawning() == (affectsSpawning && !spectator)
    {
      this.affectsSpawning := affectsSpawning;
    }
  }
}
