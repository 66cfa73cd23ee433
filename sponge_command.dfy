// SpongeCommand: the mean of recorded tick times, and how the config
// commands count the targets they reported on.
module SpongeCommand {
  import opened Common
  import opened JavaLang
  import opened ResultBuilder

  function Sum(values: seq<int>): int
    decreases |values|
  {
    if |values| == 0 then 0 else Sum(values[..|values| - 1]) + values[|values| - 1]
  }

  /** `long` addition wraps, and wrapping each partial sum is wrapping the whole sum. */
  lemma WrapAdd(a: int, b: int)
    ensures Wrap64(Wrap64(a) + b) == Wrap64(a + b)
  {
    var r := Wrap64(a);
    var q := (a - r) / TWO_64;
    assert a - r == q * TWO_64;
    assert (r + b) % TWO_64 == (a + b - q * TWO_64) % TWO_64 == (a + b) % TWO_64 by {
      ModOfMultipleShift(a + b, q);
    }
  }

  lemma ModOfMultipleShift(x: int, q: int)
    ensures (x - q * TWO_64) % TWO_64 == x % TWO_64
  {
  }

  /** The mean the source computes: 0 for no values, else the wrapped sum divided by the count, toward zero. */
  function MeanOf(values: seq<int>): (r: int)
    ensures |values| == 0 ==> r == 0
  {
    if |values| == 0 then 0 else TruncDiv(Wrap64(Sum(values)), |values|)
  }

  /** `mean(long[])`: the values are summed in a `long`, then divided by their number. */
  method Mean(values: array<int>) returns (mean: int)
    requires forall i :: 0 <= i < values.Length ==> IsLong(values[i])
    ensures mean == MeanOf(values[..])
    ensures IsLong(mean)
  {
    mean := 0;
    if values.Length > 0 {
      for i := 0 to values.Length
        invariant mean == Wrap64(Sum(values[..i]))
      {
        assert values[..i + 1][..i] == values[..i];
        WrapAdd(Sum(values[..i]), values[i]);
        mean := Wrap64(mean + values[i]);
      }
      assert values[..values.Length] == values[..];
      mean := TruncDiv(mean, values.Length);
      MeanIsLong(values[..]);
    }
  }

  /** The quotient never leaves the `long` range. */
  lemma MeanIsLong(values: seq<int>)
    ensures IsLong(MeanOf(values))
  {
    if |values| > 0 {
      var s := Wrap64(Sum(values));
      var n := if s < 0 then -s else s;
      DivShrinks(n, |values|);
    }
  }

  lemma DivShrinks(n: nat, d: nat)
    requires d >= 1
    ensures 0 <= n / d <= n
  {
    assert n == d * (n / d) + n % d;
  }

  /** For values whose sum fits in a `long`, the mean is the exact sum divided toward zero. */
  lemma MeanOfSmallSum(values: seq<int>)
    requires |values| > 0 && IsLong(Sum(values))
    ensures MeanOf(values) == TruncDiv(Sum(values), |values|)
  {
  }

  // ConfigUsingExecutor.execute.

  /** A world named by the `world` flag, and whether it is loaded. */
  datatype WorldTarget = WorldTarget(name: string, loaded: bool)

  const NoTarget: Failure := Crash("CommandException")

  /** The success count: one for the global config, one per dimension, one per world. */
  function SuccessCount(global: bool, dimensions: nat, worlds: nat): (r: nat)
    ensures r == 0 <==> !global && dimensions == 0 && worlds == 0
  {
    (if global then 1 else 0) + dimensions + worlds
  }

  /**
   * The counting of `execute`: an unloaded world stops the command when the
   * executor needs loaded worlds; no target at all is an error.
   */
  method Execute(global: bool, dimensions: seq<nat>, worlds: seq<WorldTarget>, requireWorldLoaded: bool)
    returns (r: Result<CommandResult>)
    ensures r.Err? <==> (requireWorldLoaded && exists w :: w in worlds && !w.loaded) || SuccessCount(global, |dimensions|, |worlds|) == 0
    ensures r.Err? ==> r.failure == NoTarget
    ensures r.Ok? ==> r.value == EMPTY_RESULT.(successCount := Some(SuccessCount(global, |dimensions|, |worlds|)))
  {
    var successes := 0;
    if global {
      successes := successes + 1;
    }
    for k := 0 to |dimensions|
      invariant successes == (if global then 1 else 0) + k
    {
      successes := successes + 1;
    }
    for k := 0 to |worlds|
      invariant successes == (if global then 1 else 0) + |dimensions| + k
      invariant requireWorldLoaded ==> forall j :: 0 <= j < k ==> worlds[j].loaded
    {
      if !worlds[k].loaded && requireWorldLoaded {
        return Err(NoTarget);
      }
      successes := successes + 1;
    }
    if successes == 0 {
      return Err(NoTarget);
    }
    r := Ok(EMPTY_RESULT.(successCount := Some(successes)));
  }
}
