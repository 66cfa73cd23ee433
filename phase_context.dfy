// PhaseContext: the bookkeeping of one tracked phase. A completion latch
// closes it to new objects; owner and notifier are written at most once;
// each capture supplier is installed at most once, in the groups the
// `add*Captures` methods install together.
module PhaseContext {
  import opened Common

  /** The capture suppliers; the objects they capture stay opaque. */
  datatype Supplier =
    | CapturedBlocks | BlockItemDrops | BlockItemEntityDrops | CapturedItems | CapturedEntities
    | CapturedItemStack | EntityItemDrops | EntityItemEntityDrops | BlockEntitySpawn
    | CaptureBlockPos | CapturePlayer

  /** An object in the context: its identity and the classes it is an instance of. */
  datatype Obj = Obj(id: nat, classes: set<string>)

  predicate IsInstance(className: string, o: Option<Obj>) {
    o.Some? && className in o.value.classes
  }

  /** Users (owner, notifier) are known by number; `None` is null. */
  type User = Option<nat>

  /** The suppliers `checkBlockSuppliers` demands absent, which `addBlockCaptures` installs. */
  const BLOCK_GROUP: set<Supplier> := {CapturedBlocks, BlockItemEntityDrops, BlockItemDrops, BlockEntitySpawn, CaptureBlockPos}
  /** The suppliers `addEntityCaptures` demands absent and installs. */
  const ENTITY_GROUP: set<Supplier> := {CapturedItems, CapturedEntities, CapturedItemStack}
  /** The suppliers `addEntityDropCaptures` demands absent and installs. */
  const ENTITY_DROP_GROUP: set<Supplier> := {EntityItemDrops, EntityItemEntityDrops}
  /** What `addCaptures` installs: the block group without the block position, and the entity group. */
  const CAPTURES_GROUP: set<Supplier> := {CapturedBlocks, BlockItemEntityDrops, BlockItemDrops, CapturedItems,
                                         CapturedEntities, CapturedItemStack, BlockEntitySpawn}

  const StateError: Failure := Crash("IllegalStateException")

  datatype PhaseFields = PhaseFields(
    isCompleted: bool,
    suppliers: set<Supplier>,
    owner: User,
    notifier: User,
    extraContext: map<string, Obj>,
    processImmediately: bool,
    source: Option<Obj>)

  const START: PhaseFields := PhaseFields(false, {}, None, None, map[], false, None)

  /** `source(o)`: refused once completed; otherwise replaces the source, even by null. */
  function SetSource(f: PhaseFields, o: Option<Obj>): (r: Result<PhaseFields>)
    ensures r.Err? <==> f.isCompleted
  {
    if f.isCompleted then Err(StateError) else Ok(f.(source := o))
  }

  /** `owner(u)`: refused once completed, then when already set, then for null. */
  function SetOwner(f: PhaseFields, u: User): (r: Result<PhaseFields>)
    ensures r.Err? <==> f.isCompleted || f.owner.Some? || u.None?
    ensures r.Err? && (f.isCompleted || f.owner.Some?) ==> r.failure == StateError
    ensures r.Err? && !f.isCompleted && f.owner.None? ==> r.failure == Crash("NullPointerException")
    ensures r.Ok? ==> r.value == f.(owner := u)
  {
    if f.isCompleted || f.owner.Some? then Err(StateError)
    else if u.None? then Err(Crash("NullPointerException"))
    else Ok(f.(owner := u))
  }

  /** `notifier(u)`: as `owner`, for the notifier. */
  function SetNotifier(f: PhaseFields, u: User): (r: Result<PhaseFields>)
    ensures r.Err? <==> f.isCompleted || f.notifier.Some? || u.None?
    ensures r.Err? && (f.isCompleted || f.notifier.Some?) ==> r.failure == StateError
    ensures r.Err? && !f.isCompleted && f.notifier.None? ==> r.failure == Crash("NullPointerException")
    ensures r.Ok? ==> r.value == f.(notifier := u)
  {
    if f.isCompleted || f.notifier.Some? then Err(StateError)
    else if u.None? then Err(Crash("NullPointerException"))
    else Ok(f.(notifier := u))
  }

  /** Installs a group of suppliers when the context is open and none of `absent` is installed. */
  function Install(f: PhaseFields, absent: set<Supplier>, group: set<Supplier>): (r: Result<PhaseFields>)
    ensures r.Err? <==> f.isCompleted || absent * f.suppliers != {}
    ensures r.Err? ==> r.failure == StateError
    ensures r.Ok? ==> r.value == f.(suppliers := f.suppliers + group)
  {
    if f.isCompleted || absent * f.suppliers != {} then Err(StateError) else Ok(f.(suppliers := f.suppliers + group))
  }

  function AfterBlockCaptures(f: PhaseFields): Result<PhaseFields> {
    Install(f, BLOCK_GROUP, BLOCK_GROUP)
  }

  function AfterCaptures(f: PhaseFields): Result<PhaseFields> {
    Install(f, BLOCK_GROUP + ENTITY_GROUP, CAPTURES_GROUP)
  }

  function AfterEntityCaptures(f: PhaseFields): Result<PhaseFields> {
    Install(f, ENTITY_GROUP, ENTITY_GROUP)
  }

  function AfterEntityDropCaptures(f: PhaseFields): Result<PhaseFields> {
    Install(f, ENTITY_DROP_GROUP, ENTITY_DROP_GROUP)
  }

  /** A supplier getter: the supplier when installed, else the exception of `throwWithContext`. */
  function GetSupplier(f: PhaseFields, s: Supplier): (r: Result<Supplier>)
    ensures r.Ok? <==> s in f.suppliers
    ensures r.Ok? ==> r.value == s
    ensures r.Err? ==> r.failure == StateError
  {
    if s in f.suppliers then Ok(s) else Err(StateError)
  }

  /** `getCapturedEntities` and `getCapturedBlocks` read their supplier unchecked: a null one is a NullPointerException. */
  function GetCapturedUnchecked(f: PhaseFields, s: Supplier): (r: Result<Supplier>)
    ensures r.Ok? <==> s in f.suppliers
    ensures r.Err? ==> r.failure == Crash("NullPointerException")
  {
    if s in f.suppliers then Ok(s) else Err(Crash("NullPointerException"))
  }

  /** `getSource(c)`: the source when it is an instance of c. */
  function GetSource(f: PhaseFields, className: string): (r: Option<Obj>)
    ensures r.Some? <==> IsInstance(className, f.source)
    ensures r.Some? ==> r == f.source
  {
    if f.source.None? then None
    else if className in f.source.value.classes then f.source
    else None
  }

  function Lookup(m: map<string, Obj>, key: string): Option<Obj> {
    if key in m then Some(m[key]) else None
  }

  /** `getExtra(key, c)`: the extra under key when it is an instance of c. */
  function GetExtra(f: PhaseFields, key: string, className: string): (r: Option<Obj>)
    ensures r.Some? <==> key in f.extraContext && className in f.extraContext[key].classes
    ensures r.Some? ==> r.value == f.extraContext[key]
  {
    var o := Lookup(f.extraContext, key);
    if IsInstance(className, o) then o else None
  }

  /** `getRequiredExtra(key, c)`: as `getExtra`, failing instead of answering null. */
  function GetRequiredExtra(f: PhaseFields, key: string, className: string): (r: Result<Obj>)
    ensures r.Ok? <==> GetExtra(f, key, className).Some?
    ensures r.Ok? ==> r.value == GetExtra(f, key, className).value
    ensures r.Err? ==> r.failure == StateError
  {
    var o := Lookup(f.extraContext, key);
    if IsInstance(className, o) then Ok(o.value) else Err(StateError)
  }

  /** `hashCode`: `Objects.hash(isCompleted)`, that is 31 + `Boolean.hashCode`. */
  function HashCode(f: PhaseFields): int {
    31 + (if f.isCompleted then 1231 else 1237)
  }

  /** `equals` between two contexts of the same class (the `getClass` check is not modelled): the latch alone decides. */
  predicate Equal(f: PhaseFields, g: PhaseFields) {
    f.isCompleted == g.isCompleted
  }

  class PhaseContext {
    var isCompleted: bool
    var suppliers: set<Supplier>
    var owner: User
    var notifier: User
    var extraContext: map<string, Obj>
    var processImmediately: bool
    var source: Option<Obj>

    function Fields(): PhaseFields
      reads this
    {
      PhaseFields(isCompleted, suppliers, owner, notifier, extraContext, processImmediately, source)
    }

    /** Nothing ever installs the player capture. */
    ghost predicate Valid()
      reads this
    {
      CapturePlayer !in suppliers
    }

    /** `PhaseContext.start()`. */
    constructor ()
      ensures Fields() == START && Valid()
    {
      isCompleted, suppliers, owner, notifier := false, {}, None, None;
      extraContext, processImmediately, source := map[], false, None;
    }

    /** `addExtra` is allowed even after completion. */
    method AddExtra(key: string, val: Obj)
      modifies this
      ensures Fields() == old(Fields()).(extraContext := old(extraContext)[key := val])
    {
      extraContext := extraContext[key := val];
    }

    method Source(o: Option<Obj>) returns (r: Outcome)
      modifies this
      ensures var s := SetSource(old(Fields()), o);
        (r.Pass? <==> s.Ok?) && (s.Ok? ==> Fields() == s.value) && (s.Err? ==> r.failure == s.failure && Fields() == old(Fields()))
    {
      if isCompleted {
        return Fail(StateError);
      }
      source := o;
      r := Pass;
    }

    method Owner(u: User) returns (r: Outcome)
      modifies this
      ensures var s := SetOwner(old(Fields()), u);
        (r.Pass? <==> s.Ok?) && (s.Ok? ==> Fields() == s.value) && (s.Err? ==> r.failure == s.failure && Fields() == old(Fields()))
    {
      if isCompleted || owner.Some? {
        return Fail(StateError);
      }
      if u.None? {
        return Fail(Crash("NullPointerException"));
      }
      owner := u;
      r := Pass;
    }

    method Notifier(u: User) returns (r: Outcome)
      modifies this
      ensures var s := SetNotifier(old(Fields()), u);
        (r.Pass? <==> s.Ok?) && (s.Ok? ==> Fields() == s.value) && (s.Err? ==> r.failure == s.failure && Fields() == old(Fields()))
    {
      if isCompleted || notifier.Some? {
        return Fail(StateError);
      }
      if u.None? {
        return Fail(Crash("NullPointerException"));
      }
      notifier := u;
      r := Pass;
    }

    /** The checks and installation every `add*Captures` method makes. */
    method InstallGroup(absent: set<Supplier>, group: set<Supplier>) returns (r: Outcome)
      requires Valid() && CapturePlayer !in group
      modifies this
      ensures Valid()
      ensures var s := Install(old(Fields()), absent, group);
        (r.Pass? <==> s.Ok?) && (s.Ok? ==> Fields() == s.value) && (s.Err? ==> r.failure == s.failure && Fields() == old(Fields()))
    {
      if isCompleted || absent * suppliers != {} {
        return Fail(StateError);
      }
      suppliers := suppliers + group;
      r := Pass;
    }

    method AddBlockCaptures() returns (r: Outcome)
      requires Valid()
      modifies this
      ensures Valid()
      ensures var s := AfterBlockCaptures(old(Fields()));
        (r.Pass? <==> s.Ok?) && (s.Ok? ==> Fields() == s.value) && (s.Err? ==> Fields() == old(Fields()))
    {
      r := InstallGroup(BLOCK_GROUP, BLOCK_GROUP);
    }

    method AddCaptures() returns (r: Outcome)
      requires Valid()
      modifies this
      ensures Valid()
      ensures var s := AfterCaptures(old(Fields()));
        (r.Pass? <==> s.Ok?) && (s.Ok? ==> Fields() == s.value) && (s.Err? ==> Fields() == old(Fields()))
    {
      r := InstallGroup(BLOCK_GROUP + ENTITY_GROUP, CAPTURES_GROUP);
    }

    method AddEntityCaptures() returns (r: Outcome)
      requires Valid()
      modifies this
      ensures Valid()
      ensures var s := AfterEntityCaptures(old(Fields()));
        (r.Pass? <==> s.Ok?) && (s.Ok? ==> Fields() == s.value) && (s.Err? ==> Fields() == old(Fields()))
    {
      r := InstallGroup(ENTITY_GROUP, ENTITY_GROUP);
    }

    method AddEntityDropCaptures() returns (r: Outcome)
      requires Valid()
      modifies this
      ensures Valid()
      ensures var s := AfterEntityDropCaptures(old(Fields()));
        (r.Pass? <==> s.Ok?) && (s.Ok? ==> Fields() == s.value) && (s.Err? ==> Fields() == old(Fields()))
    {
      r := InstallGroup(ENTITY_DROP_GROUP, ENTITY_DROP_GROUP);
    }

    method Complete()
      modifies this
      ensures Fields() == old(Fields()).(isCompleted := true)
    {
      isCompleted := true;
    }

    method SetProcessImmediately(state: bool)
      modifies this
      ensures Fields() == old(Fields()).(processImmediately := state)
    {
      processImmediately := state;
    }

    /** `getCapturedPlayerSupplier` fails on every context. */
    method GetCapturedPlayerSupplier() returns (r: Result<Supplier>)
      requires Valid()
      ensures r == Err(StateError)
    {
      if CapturePlayer in suppliers {
        return Ok(CapturePlayer);
      }
      r := Err(StateError);
    }
  }

  // Properties.

  /** After completion only `addExtra` (and the latch-free setters) can still change the context. */
  lemma CompletedRefusesNewObjects(f: PhaseFields, o: Option<Obj>, u: User)
    requires f.isCompleted
    ensures SetSource(f, o).Err? && SetOwner(f, u).Err? && SetNotifier(f, u).Err?
    ensures AfterBlockCaptures(f).Err? && AfterCaptures(f).Err? && AfterEntityCaptures(f).Err? && AfterEntityDropCaptures(f).Err?
  {
  }

  /** An owner, once set, stays: a second `owner` call fails whatever it passes. */
  lemma OwnerIsWriteOnce(f: PhaseFields, u: User, u2: User)
    requires SetOwner(f, u).Ok?
    ensures SetOwner(f, u).value.owner == u && u.Some?
    ensures SetOwner(SetOwner(f, u).value, u2) == Err(StateError)
  {
  }

  lemma NotifierIsWriteOnce(f: PhaseFields, u: User, u2: User)
    requires SetNotifier(f, u).Ok?
    ensures SetNotifier(f, u).value.notifier == u && u.Some?
    ensures SetNotifier(SetNotifier(f, u).value, u2) == Err(StateError)
  {
  }

  /** `addBlockCaptures` makes all five block-group getters succeed, and can only be called once. */
  lemma BlockCapturesInstallFive(f: PhaseFields)
    requires AfterBlockCaptures(f).Ok?
    ensures forall s :: s in BLOCK_GROUP ==> GetSupplier(AfterBlockCaptures(f).value, s).Ok?
    ensures AfterBlockCaptures(AfterBlockCaptures(f).value).Err?
  {
    var f1 := AfterBlockCaptures(f).value;
    assert CapturedBlocks in BLOCK_GROUP * f1.suppliers;
  }

  /** `addCaptures` leaves the block position uncaptured, and rules out a later `addEntityCaptures`. */
  lemma CapturesLeaveBlockPos(f: PhaseFields)
    requires AfterCaptures(f).Ok?
    ensures GetSupplier(AfterCaptures(f).value, CaptureBlockPos).Err?
    ensures AfterEntityCaptures(AfterCaptures(f).value).Err?
  {
    assert CapturedItems in AfterCaptures(f).value.suppliers * ENTITY_GROUP;
  }

  /** Block captures, then entity captures, then entity drop captures all succeed on a fresh context. */
  lemma BlockEntityDropSequence()
    ensures AfterBlockCaptures(START).Ok?
    ensures AfterEntityCaptures(AfterBlockCaptures(START).value).Ok?
    ensures AfterEntityDropCaptures(AfterEntityCaptures(AfterBlockCaptures(START).value).value).Ok?
  {
    var f1 := AfterBlockCaptures(START).value;
    assert ENTITY_GROUP * f1.suppliers == {};
    var f2 := AfterEntityCaptures(f1).value;
    assert ENTITY_DROP_GROUP * f2.suppliers == {};
  }

  /** The typed lookups answer only on a class match, and the required lookup fails exactly when the plain one answers null. */
  lemma TypedLookups(f: PhaseFields, key: string, className: string)
    ensures GetSource(f, className).Some? ==> className in f.source.value.classes
    ensures GetRequiredExtra(f, key, className).Err? <==> GetExtra(f, key, className).None?
  {
  }

  /** Equal contexts have equal hash codes, and unequal ones differ in hash code. */
  lemma EqualsAgreesWithHashCode(f: PhaseFields, g: PhaseFields)
    ensures Equal(f, g) <==> HashCode(f) == HashCode(g)
  {
  }
}
