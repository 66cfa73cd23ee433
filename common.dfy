// Values shared by every part of the command model: optional values, the two
// ways a Java call can end abnormally, command sources and the objects that
// parsers store in an execution context.
module Common {

  datatype Option<T> = None | Some(value: T)

  /** How a call ends abnormally. */
  datatype Failure =
    | ParseError(message: string)   // a ParameterParseException: first-of alternatives catch it
    | Crash(reason: string)         // any other runtime exception (NullPointerException, IllegalStateException, ...)

  datatype Result<T> = Ok(value: T) | Err(failure: Failure)

  /** The result of a call that returns nothing (`void`). */
  datatype Outcome = Pass | Fail(failure: Failure)

  /** A Java `throw createError(...)` where `createError` returns null: `throw null`. */
  const NullThrown := Crash("NullPointerException")

  datatype Tristate = True | False | Undefined

  predicate AsBoolean(t: Tristate) { t == True }

  datatype Vec3 = Vec3(x: real, y: real, z: real)

  /** The objects parsers put into an execution context (Java `Object`). */
  datatype Value =
    | TextValue(text: string)
    | BoolValue(b: bool)
    | VectorValue(v: Vec3)
    | ObjectValue(id: nat)     // any other object, identified

  /**
   * A command source, reduced to what the parsers ask of it: its permissions,
   * its position when it is Locatable, whether it is an Entity, and the block
   * a ray cast from its eyes would hit.
   */
  datatype Source = Source(
    permissions: set<string>,
    location: Option<Vec3>,
    isEntity: bool,
    targetBlock: Option<Vec3>)

  predicate HasPermission(src: Source, permission: string) {
    permission in src.permissions
  }

  /** The contents of an ArrayListMultimap<String, Object>: a key is present only with a non-empty list. */
  type Entries = map<string, seq<Value>>

  /**
   * The objects handed to `setState(Object)`: a token-cursor state, an
   * execution-context state, or some other object.
   */
  datatype StateObject =
    | ArgsState(index: int, argsOwner: object)
    | ContextState(contextOwner: object, saved: Entries)
    | OtherObject
}
