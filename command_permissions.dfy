// CommandPermissions: which permission decides whether a source may run a
// command, and the two non-command permissions granted from the vanilla
// operator levels.
module CommandPermissions {
  import opened Common

  const COMMAND_BLOCK_COMMAND: string := ""
  const COMMAND_BLOCK_PERMISSION: string := "minecraft.commandblock"
  const COMMAND_BLOCK_LEVEL: int := 2
  const SELECTOR_COMMAND: string := "@"
  const SELECTOR_PERMISSION: string := "minecraft.selector"
  const SELECTOR_LEVEL: int := 2

  /** The callable of a registered command: a wrapped vanilla command, or any other callable, known by number. */
  datatype Callable = MinecraftCommandWrapper(commandPermission: string) | OtherCallable(id: nat)

  /**
   * `testPermission`. The command manager's lookup is `registered`; an
   * other callable's own `testPermission` for this source is `callablePermits`.
   */
  function TestPermission(src: Source, commandName: string, registered: string -> Option<Callable>,
                          callablePermits: nat -> bool): (r: bool)
    ensures commandName == SELECTOR_COMMAND ==> r == HasPermission(src, SELECTOR_PERMISSION)
    ensures commandName != SELECTOR_COMMAND && commandName == COMMAND_BLOCK_COMMAND ==> r == HasPermission(src, COMMAND_BLOCK_PERMISSION)
  {
    if commandName == SELECTOR_COMMAND then HasPermission(src, SELECTOR_PERMISSION)
    else if commandName == COMMAND_BLOCK_COMMAND then HasPermission(src, COMMAND_BLOCK_PERMISSION)
    else
      match registered(commandName)
      case Some(MinecraftCommandWrapper(permission)) => HasPermission(src, permission)
      case Some(OtherCallable(id)) => callablePermits(id)
      case None => HasPermission(src, commandName)
  }

  /** The permissions a subject holds in the global context. */
  class SubjectData {
    var globalPermissions: map<string, Tristate>

    constructor ()
      ensures globalPermissions == map[]
    {
      globalPermissions := map[];
    }

    method SetPermission(permission: string, value: Tristate)
      modifies this
      ensures globalPermissions == old(globalPermissions)[permission := value]
    {
      globalPermissions := globalPermissions[permission := value];
    }
  }

  /**
   * `populateNonCommandPermissions`: passing the level test for the
   * command-block command grants the selector permission, and passing it
   * for the selector command grants the permission named "" (the two are
   * crossed over); nothing else changes.
   */
  method PopulateNonCommandPermissions(data: SubjectData, testAtLevel: (int, string) -> bool)
    modifies data
    ensures testAtLevel(COMMAND_BLOCK_LEVEL, COMMAND_BLOCK_COMMAND) ==> SELECTOR_PERMISSION in data.globalPermissions && data.globalPermissions[SELECTOR_PERMISSION] == True
    ensures testAtLevel(SELECTOR_LEVEL, SELECTOR_COMMAND) ==> COMMAND_BLOCK_COMMAND in data.globalPermissions && data.globalPermissions[COMMAND_BLOCK_COMMAND] == True
    ensures !testAtLevel(COMMAND_BLOCK_LEVEL, COMMAND_BLOCK_COMMAND) ==>
      (SELECTOR_PERMISSION in data.globalPermissions <==> SELECTOR_PERMISSION in old(data.globalPermissions))
    ensures !testAtLevel(SELECTOR_LEVEL, SELECTOR_COMMAND) ==>
      (COMMAND_BLOCK_COMMAND in data.globalPermissions <==> COMMAND_BLOCK_COMMAND in old(data.globalPermissions))
    ensures COMMAND_BLOCK_PERMISSION in data.globalPermissions <==> COMMAND_BLOCK_PERMISSION in old(data.globalPermissions)
    ensures forall p :: (p in old(data.globalPermissions) &&
        (p != SELECTOR_PERMISSION || !testAtLevel(COMMAND_BLOCK_LEVEL, COMMAND_BLOCK_COMMAND)) &&
        (p != COMMAND_BLOCK_COMMAND || !testAtLevel(SELECTOR_LEVEL, SELECTOR_COMMAND))) ==>
      p in data.globalPermissions && data.globalPermissions[p] == old(data.globalPermissions)[p]
    ensures data.globalPermissions.Keys <= old(data.globalPermissions).Keys + {SELECTOR_PERMISSION, COMMAND_BLOCK_COMMAND}
  {
    if testAtLevel(COMMAND_BLOCK_LEVEL, COMMAND_BLOCK_COMMAND) {
      data.SetPermission(SELECTOR_PERMISSION, True);
    }
    if testAtLevel(SELECTOR_LEVEL, SELECTOR_COMMAND) {
      data.SetPermission(COMMAND_BLOCK_COMMAND, True);
    }
  }

  // Properties. SpecialNamesIgnoreRegistry and OrdinaryNameRouting are
  // TestPermission's specification case by case, stated from the caller's
  // side; they follow from its definition without further proof.

  /** The selector and command-block names are decided by their own permission alone, whatever is registered. */
  lemma SpecialNamesIgnoreRegistry(src: Source, r1: string -> Option<Callable>, p1: nat -> bool,
                                   r2: string -> Option<Callable>, p2: nat -> bool)
    ensures TestPermission(src, SELECTOR_COMMAND, r1, p1) == TestPermission(src, SELECTOR_COMMAND, r2, p2)
    ensures TestPermission(src, COMMAND_BLOCK_COMMAND, r1, p1) == TestPermission(src, COMMAND_BLOCK_COMMAND, r2, p2)
  {
  }

  /**
   * Any other name is decided by the wrapped command's permission, by the
   * callable itself, or, when nothing is registered under it, by the
   * permission of that very name.
   */
  lemma OrdinaryNameRouting(src: Source, name: string, registered: string -> Option<Callable>, callablePermits: nat -> bool)
    requires name != SELECTOR_COMMAND && name != COMMAND_BLOCK_COMMAND
    ensures registered(name).None? ==> TestPermission(src, name, registered, callablePermits) == HasPermission(src, name)
    ensures registered(name).Some? && registered(name).value.MinecraftCommandWrapper? ==>
      TestPermission(src, name, registered, callablePermits) == HasPermission(src, registered(name).value.commandPermission)
    ensures registered(name).Some? && registered(name).value.OtherCallable? ==>
      TestPermission(src, name, registered, callablePermits) == callablePermits(registered(name).value.id)
  {
  }
}
