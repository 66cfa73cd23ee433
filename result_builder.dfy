// SpongeResultBuilder: the five optional counts reported by a command.
module ResultBuilder {
  import opened Common
  import opened JavaLang

  /** A command's result: each count may be absent (a null Integer). */
  datatype CommandResult = CommandResult(
    successCount: Option<int>,
    affectedBlocks: Option<int>,
    affectedEntities: Option<int>,
    affectedItems: Option<int>,
    queryResult: Option<int>)

  const EMPTY_RESULT: CommandResult := CommandResult(None, None, None, None, None)

  class SpongeResultBuilder {
    var successCount: Option<int>
    var affectedBlocks: Option<int>
    var affectedEntities: Option<int>
    var affectedItems: Option<int>
    var queryResult: Option<int>

    function Fields(): CommandResult
      reads this
    {
      CommandResult(successCount, affectedBlocks, affectedEntities, affectedItems, queryResult)
    }

    constructor ()
      ensures Fields() == EMPTY_RESULT
    {
      successCount, affectedBlocks, affectedEntities, affectedItems, queryResult := None, None, None, None, None;
    }

    /** `from`: the builder is reset, then each count present in `value` is copied. */
    method From(value: CommandResult)
      modifies this
      ensures Fields() == value
    {
      Reset();
      if value.successCount.Some? {
        successCount := value.successCount;
      }
      if value.affectedBlocks.Some? {
        affectedBlocks := value.affectedBlocks;
      }
      if value.affectedEntities.Some? {
        affectedEntities := value.affectedEntities;
      }
      if value.affectedItems.Some? {
        affectedItems := value.affectedItems;
      }
      if value.queryResult.Some? {
        queryResult := value.queryResult;
      }
    }

    method Reset()
      modifies this
      ensures Fields() == EMPTY_RESULT
    {
      successCount, affectedBlocks, affectedEntities, affectedItems, queryResult := None, None, None, None, None;
    }

    method SuccessCount(n: Option<int>)
      modifies this
      ensures Fields() == old(Fields()).(successCount := n)
    {
      successCount := n;
    }

    method AffectedBlocks(n: Option<int>)
      modifies this
      ensures Fields() == old(Fields()).(affectedBlocks := n)
    {
      affectedBlocks := n;
    }

    method AffectedEntities(n: Option<int>)
      modifies this
      ensures Fields() == old(Fields()).(affectedEntities := n)
    {
      affectedEntities := n;
    }

    method AffectedItems(n: Option<int>)
      modifies this
      ensures Fields() == old(Fields()).(affectedItems := n)
    {
      affectedItems := n;
    }

    method QueryResult(n: Option<int>)
      modifies this
      ensures Fields() == old(Fields()).(queryResult := n)
    {
      queryResult := n;
    }

    /** `build` passes the five counts through. */
    method Build() returns (r: CommandResult)
      ensures r == Fields()
    {
      r := CommandResult(successCount, affectedBlocks, affectedEntities, affectedItems, queryResult);
    }
  }

  /** Copying a result into a builder and building again gives the same result, whatever the builder held. */
  method FromThenBuild(b: SpongeResultBuilder, value: CommandResult) returns (r: CommandResult)
    modifies b
    ensures r == value
  {
    b.From(value);
    r := b.Build();
  }
}
