// SpongeCommandExecutionContext: the multimap that parameters store their
// parsed values in, its queries, and save and restore of its contents.
module ExecutionContext {
  import opened Common

  /** An ArrayListMultimap never keeps a key with an empty list of values. */
  ghost predicate WellFormed(m: Entries) {
    forall k :: k in m ==> |m[k]| > 0
  }

  /** `get(key)`: the values under `key`, in insertion order; none when the key is absent. */
  function ValuesOf(m: Entries, key: string): seq<Value> {
    if key in m then m[key] else []
  }

  /** `put(key, value)`: `value` is appended to the values under `key`. */
  function Put(m: Entries, key: string, value: Value): (r: Entries)
    ensures ValuesOf(r, key) == ValuesOf(m, key) + [value]
    ensures forall k :: k != key ==> ValuesOf(r, k) == ValuesOf(m, k)
    ensures WellFormed(m) ==> WellFormed(r)
  {
    m[key := ValuesOf(m, key) + [value]]
  }

  /** `getOne(key)`: the value under `key` when there is exactly one. */
  function OneOf(m: Entries, key: string): (r: Option<Value>)
    ensures r.Some? <==> |ValuesOf(m, key)| == 1
    ensures r.Some? ==> r.value == ValuesOf(m, key)[0]
  {
    var vs := ValuesOf(m, key);
    if |vs| != 1 then None else Some(vs[0])
  }

  /** `clear()` then `putAll(saved)`: the saved multimap, which holds no empty lists. */
  function Restored(saved: Entries): (r: Entries)
    ensures WellFormed(r)
    ensures forall k :: ValuesOf(r, k) == ValuesOf(saved, k)
  {
    map k | k in saved && |saved[k]| > 0 :: saved[k]
  }

  /**
   * `setState(state)` on the context `self` holding `m`: the object must be a
   * context state of this very context; the contents are replaced by it.
   */
  function RestoreEntries(m: Entries, state: StateObject, self: object): (r: (Entries, Outcome))
    ensures r.1.Pass? <==> state.ContextState? && state.contextOwner == self
    ensures r.1.Pass? ==> r.0 == Restored(state.saved)
    ensures r.1.Fail? ==> r.0 == m && r.1.failure.Crash?
  {
    if !state.ContextState? then (m, Fail(Crash("IllegalArgumentException: This is not a state obtained from getState")))
    else if state.contextOwner != self then (m, Fail(Crash("IllegalArgumentException: This is not a state from this object")))
    else (Restored(state.saved), Pass)
  }

  class SpongeCommandExecutionContext {
    const isCompletion: bool
    const targetBlock: Option<Vec3>
    var parsedArgs: Entries

    ghost predicate Valid()
      reads this
    {
      WellFormed(parsedArgs)
    }

    /** The context of a fresh parse: no entries. */
    constructor (isCompletion: bool, targetBlock: Option<Vec3>)
      ensures Valid() && parsedArgs == map[]
      ensures this.isCompletion == isCompletion && this.targetBlock == targetBlock
    {
      this.isCompletion := isCompletion;
      this.targetBlock := targetBlock;
      parsedArgs := map[];
    }

    function GetTargetBlock(): (r: Option<Vec3>)
      ensures r == targetBlock
    {
      targetBlock
    }

    function IsCompletion(): (r: bool)
      ensures r == isCompletion
    {
      isCompletion
    }

    function HasAny(key: string): (r: bool)
      requires Valid()
      reads this
      ensures r <==> |ValuesOf(parsedArgs, key)| > 0
    {
      key in parsedArgs
    }

    function GetOne(key: string): (r: Option<Value>)
      reads this
      ensures r == OneOf(parsedArgs, key)
    {
      OneOf(parsedArgs, key)
    }

    function GetAll(key: string): (r: seq<Value>)
      reads this
      ensures r == ValuesOf(parsedArgs, key)
    {
      ValuesOf(parsedArgs, key)
    }

    /** `putEntry(key, value)`; a null value fails the not-null check. */
    method PutEntry(key: string, value: Option<Value>) returns (o: Outcome)
      requires Valid()
      modifies this
      ensures Valid()
      ensures value.None? ==> o == Fail(Crash("NullPointerException: value")) && parsedArgs == old(parsedArgs)
      ensures value.Some? ==> o == Pass && parsedArgs == Put(old(parsedArgs), key, value.value)
    {
      if value.None? {
        return Fail(Crash("NullPointerException: value"));
      }
      parsedArgs := Put(parsedArgs, key, value.value);
      o := Pass;
    }

    /** `getState()`: an immutable copy of the contents, tagged with this context. */
    function GetState(): (s: StateObject)
      reads this
      ensures s == ContextState(this, parsedArgs)
    {
      ContextState(this, parsedArgs)
    }

    method SetState(state: StateObject) returns (o: Outcome)
      requires Valid()
      modifies this
      ensures Valid()
      ensures (parsedArgs, o) == RestoreEntries(old(parsedArgs), state, this)
    {
      if !state.ContextState? {
        return Fail(Crash("IllegalArgumentException: This is not a state obtained from getState"));
      }
      if state.contextOwner != this {
        return Fail(Crash("IllegalArgumentException: This is not a state from this object"));
      }
      parsedArgs := Restored(state.saved);
      o := Pass;
    }
  }

  // Properties of the entries.

  /** In a well-formed multimap a key is present exactly when it has values. */
  lemma PresentIffValues(m: Entries, key: string)
    requires WellFormed(m)
    ensures key in m <==> |ValuesOf(m, key)| > 0
  {
  }

  /** The first value stored under a key is what `getOne` gives; a second one hides both. */
  lemma OneThenTwo(m: Entries, key: string, v: Value, w: Value)
    requires ValuesOf(m, key) == []
    ensures OneOf(Put(m, key, v), key) == Some(v)
    ensures OneOf(Put(Put(m, key, v), key, w), key) == None
    ensures ValuesOf(Put(Put(m, key, v), key, w), key) == [v, w]
  {
  }

  /** Restoring a well-formed snapshot gives it back unchanged. */
  lemma RestoreSnapshot(m: Entries)
    requires WellFormed(m)
    ensures Restored(m) == m
  {
  }

  /** Saving, storing more values, and restoring returns the contents to the snapshot. */
  lemma {:induction false} RestoreUndoesPuts(m: Entries, puts: seq<(string, Value)>, self: object)
    requires WellFormed(m)
    ensures RestoreEntries(PutAll(m, puts), ContextState(self, m), self) == (m, Pass)
  {
    RestoreSnapshot(m);
  }

  /** The contents after a series of `putEntry` calls. */
  function PutAll(m: Entries, puts: seq<(string, Value)>): (r: Entries)
    ensures forall k :: ValuesOf(m, k) <= ValuesOf(r, k)
    decreases |puts|
  {
    if |puts| == 0 then m
    else PutAll(Put(m, puts[0].0, puts[0].1), puts[1..])
  }
}
