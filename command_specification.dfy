// SpongeCommandSpecification: a command's parameters, children, tokenizer,
// flags and permission, and the order in which `process` checks the
// permission and splits the arguments.
module CommandSpecification {
  import opened Common
  import opened Tokenizer
  import opened Parsing
  import opened ResultBuilder

  /** ChildExceptionBehaviors: RETHROW, or another behaviour known by number. */
  datatype ChildExceptionBehavior = Rethrow | OtherBehavior(id: nat)

  /** InputTokenizers.LENIENT_QUOTED_STRING: quoted strings honoured, unterminated quotes allowed, trailing space kept. */
  const LENIENT_QUOTED_STRING: TokenizerConfig := TokenizerConfig(true, true, false)

  /** A child command and an executor are known by number. */
  datatype Specification = Specification(
    parameters: seq<Parameter>,
    children: map<string, nat>,
    behavior: ChildExceptionBehavior,
    inputTokenizer: TokenizerConfig,
    flags: Option<Flags>,
    permission: Option<string>,
    shortDescription: Option<string>,
    extendedDescription: Option<string>,
    requirePermissionForChildren: bool)

  /** CommandPermissionException. */
  const PermissionDenied: Failure := Crash("CommandPermissionException")

  /** `testPermission`: no permission, or one the source holds. */
  predicate TestPermission(spec: Specification, src: Source) {
    spec.permission.None? || HasPermission(src, spec.permission.value)
  }

  function CheckPermission(spec: Specification, src: Source): (o: Outcome)
    ensures o.Fail? <==> !TestPermission(spec, src)
    ensures o.Fail? ==> o.failure == PermissionDenied
  {
    if TestPermission(spec, src) then Pass else Fail(PermissionDenied)
  }

  /**
   * `process`: the permission is checked before the arguments are split
   * when children need the permission, and after otherwise; the arguments
   * are split leniently. A permitted call answers null (`None`).
   */
  function Process(spec: Specification, src: Source, arguments: string): (r: Result<Option<CommandResult>>)
  {
    if spec.requirePermissionForChildren && !TestPermission(spec, src) then Err(PermissionDenied)
    else
      match Tokenization(spec.inputTokenizer, arguments, true)
      case Err(f) => Err(f)
      case Ok(_) =>
        if !spec.requirePermissionForChildren && !TestPermission(spec, src) then Err(PermissionDenied)
        else Ok(None)
  }

  /** `getShortDescription`. */
  function GetShortDescription(spec: Specification): (r: Option<string>)
    ensures r == spec.shortDescription
  {
    spec.shortDescription
  }

  // Properties.

  /** A call succeeds exactly when the source is permitted and the arguments split, and it answers nothing. */
  lemma ProcessSucceedsWhenPermitted(spec: Specification, src: Source, arguments: string)
    ensures Process(spec, src, arguments).Ok? <==>
      TestPermission(spec, src) && Tokenization(spec.inputTokenizer, arguments, true).Ok?
    ensures Process(spec, src, arguments).Ok? ==> Process(spec, src, arguments).value.None?
  {
  }

  /**
   * The order of the checks decides which failure is reported for a source
   * without permission and arguments that do not split: when children need
   * the permission it is the permission failure, otherwise the tokenizer's.
   */
  lemma PermissionOrder(spec: Specification, src: Source, arguments: string)
    requires !TestPermission(spec, src)
    ensures spec.requirePermissionForChildren ==> Process(spec, src, arguments) == Err(PermissionDenied)
    ensures !spec.requirePermissionForChildren ==>
      Process(spec, src, arguments) ==
        if Tokenization(spec.inputTokenizer, arguments, true).Err? then Err(Tokenization(spec.inputTokenizer, arguments, true).failure)
        else Err(PermissionDenied)
  {
  }

  /**
   * Splitting is lenient, so the only failure other than the permission is
   * a backslash at the very end of the arguments.
   */
  lemma ProcessFailures(spec: Specification, src: Source, arguments: string)
    ensures Process(spec, src, arguments).Err? ==>
      Process(spec, src, arguments).failure == PermissionDenied
      || (Process(spec, src, arguments).failure == BufferOverrun && EndsWithBackslash(arguments))
  {
    TokenizeFailures(spec.inputTokenizer, arguments, true);
  }
}
