// The token cursor that parameters read from: SpongeTokenizedArgs, a list
// iterator over the tokens of one command line, with save and restore.
module TokenizedArgs {
  import opened Common
  import opened Tokenizer

  /**
   * The abstract state of a SpongeTokenizedArgs: the tokens, the raw command
   * line, and the iterator's next index (`ListIterator.nextIndex()`).
   */
  datatype Cursor = Cursor(args: seq<SingleArg>, raw: string, index: nat)
  {
    ghost predicate Valid() { index <= |args| }
  }

  predicate HasNextToken(c: Cursor) { c.index < |c.args| }

  predicate HasPreviousToken(c: Cursor) { c.index > 0 }

  /** The message of the `Not enough arguments` error; `createError` returns null, so the throw is a NullPointerException. */
  const NotEnoughArguments: Failure := NullThrown

  /** `next()`: the token under the iterator, which moves one to the right. */
  function CursorNext(c: Cursor): (r: (Cursor, Result<string>))
    requires c.Valid()
    ensures r.0.Valid() && r.0.args == c.args && r.0.raw == c.raw
    ensures HasNextToken(c) ==> r.0.index == c.index + 1 && r.1 == Ok(c.args[c.index].arg)
    ensures !HasNextToken(c) ==> r.0 == c && r.1 == Err(NullThrown)
  {
    if HasNextToken(c) then (c.(index := c.index + 1), Ok(c.args[c.index].arg))
    else (c, Err(NotEnoughArguments))
  }

  /**
   * `nextIfPresent()`: it calls `next()` when there is a token and catches
   * only parameter parse exceptions, so at the end the null throw escapes.
   */
  function CursorNextIfPresent(c: Cursor): (r: (Cursor, Result<Option<string>>))
    requires c.Valid()
    ensures r.0 == CursorNext(c).0
    ensures r.1.Ok? <==> CursorNext(c).1.Ok?
    ensures r.1.Ok? ==> r.1.value == Some(CursorNext(c).1.value)
  {
    var (c', t) := CursorNext(c);
    match t
    case Ok(s) => (c', Ok(Some(s)))
    case Err(f) => (c', Err(f))
  }

  /** `peek()`: the token `next()` would return, without moving. */
  function CursorPeek(c: Cursor): (r: Result<string>)
    requires c.Valid()
    ensures HasNextToken(c) <==> r.Ok?
    ensures r.Ok? ==> r.value == c.args[c.index].arg
  {
    if HasNextToken(c) then Ok(c.args[c.index].arg) else Err(NotEnoughArguments)
  }

  /** `previous()`: the token left of the iterator, which moves one to the left. */
  function CursorPrevious(c: Cursor): (r: (Cursor, Result<string>))
    requires c.Valid()
    ensures r.0.Valid() && r.0.args == c.args && r.0.raw == c.raw
    ensures HasPreviousToken(c) ==> r.0.index == c.index - 1 && r.1 == Ok(c.args[c.index - 1].arg)
    ensures !HasPreviousToken(c) ==> r.0 == c && r.1 == Err(NullThrown)
  {
    if HasPreviousToken(c) then (c.(index := c.index - 1), Ok(c.args[c.index - 1].arg))
    else (c, Err(NullThrown))
  }

  /** `getAll()`: the text of every token, in order. */
  function AllTokens(c: Cursor): (r: seq<string>)
    ensures |r| == |c.args|
    ensures forall i :: 0 <= i < |r| ==> r[i] == c.args[i].arg
  {
    seq(|c.args|, i requires 0 <= i < |c.args| => c.args[i].arg)
  }

  /** `getCurrentRawPosition()`: where the next token starts in the raw line, or the line's length at the end. */
  function RawPosition(c: Cursor): (r: int)
    requires c.Valid()
    ensures HasNextToken(c) ==> r == c.args[c.index].startIndex
    ensures !HasNextToken(c) ==> r == |c.raw|
  {
    if HasNextToken(c) then c.args[c.index].startIndex else |c.raw|
  }

  /** The state `getState()` hands out: the iterator's `previousIndex()` and the owner's identity. */
  function SavedState(c: Cursor, owner: object): (r: StateObject)
    ensures r.ArgsState? && r.argsOwner == owner && r.index + 1 == c.index
  {
    ArgsState(c.index as int - 1, owner)
  }

  /**
   * `setState(state)` on the cursor owned by `self`: the object must be a state
   * of a cursor, of this very cursor, and its index must lie within the list
   * for `listIterator(index)`; then the iterator is recreated at that index.
   */
  function CursorRestore(c: Cursor, state: StateObject, self: object): (r: (Cursor, Outcome))
    requires c.Valid()
    ensures r.0.Valid() && r.0.args == c.args && r.0.raw == c.raw
    ensures r.1.Pass? <==> state.ArgsState? && state.argsOwner == self && 0 <= state.index <= |c.args|
    ensures r.1.Pass? ==> r.0.index == state.index
    ensures r.1.Fail? ==> r.0 == c && r.1.failure.Crash?
  {
    if !state.ArgsState? then (c, Fail(Crash("IllegalArgumentException: This is not a state obtained from getState")))
    else if state.argsOwner != self then (c, Fail(Crash("IllegalArgumentException: This is not a state from this object")))
    else if !(0 <= state.index <= |c.args|) then (c, Fail(Crash("IndexOutOfBoundsException")))
    else (c.(index := state.index), Pass)
  }

  /** SpongeTokenizedArgs: the tokens of one command line and a list iterator over them. */
  class SpongeTokenizedArgs {
    const args: seq<SingleArg>
    const raw: string
    var iteratorIndex: nat

    ghost predicate Valid()
      reads this
    {
      iteratorIndex <= |args|
    }

    function Model(): (c: Cursor)
      reads this
      ensures c.args == args && c.raw == raw && c.index == iteratorIndex
    {
      Cursor(args, raw, iteratorIndex)
    }

    constructor (args: seq<SingleArg>, raw: string)
      ensures Valid() && Model() == Cursor(args, raw, 0)
    {
      this.args := args;
      this.raw := raw;
      iteratorIndex := 0;
    }

    function HasNext(): (b: bool)
      reads this
      ensures b <==> HasNextToken(Model())
    {
      iteratorIndex < |args|
    }

    method Next() returns (r: Result<string>)
      requires Valid()
      modifies this
      ensures Valid()
      ensures (Model(), r) == CursorNext(old(Model()))
    {
      if !HasNext() {
        return Err(NotEnoughArguments);
      }
      r := Ok(args[iteratorIndex].arg);
      iteratorIndex := iteratorIndex + 1;
    }

    method NextIfPresent() returns (r: Result<Option<string>>)
      requires Valid()
      modifies this
      ensures Valid()
      ensures (Model(), r) == CursorNextIfPresent(old(Model()))
    {
      var t := Next();
      match t
      case Ok(s) => r := Ok(Some(s));
      case Err(f) => r := Err(f);
    }

    method Peek() returns (r: Result<string>)
      requires Valid()
      ensures r == CursorPeek(Model())
    {
      if !HasNext() {
        return Err(NotEnoughArguments);
      }
      r := Ok(args[iteratorIndex].arg);
    }

    function HasPrevious(): (b: bool)
      reads this
      ensures b <==> HasPreviousToken(Model())
    {
      iteratorIndex > 0
    }

    method Previous() returns (r: Result<string>)
      requires Valid()
      modifies this
      ensures Valid()
      ensures (Model(), r) == CursorPrevious(old(Model()))
    {
      if !HasPrevious() {
        return Err(NullThrown);
      }
      iteratorIndex := iteratorIndex - 1;
      r := Ok(args[iteratorIndex].arg);
    }

    function GetAll(): (r: seq<string>)
      reads this
      ensures r == AllTokens(Model())
    {
      AllTokens(Model())
    }

    function GetCurrentRawPosition(): (r: int)
      requires Valid()
      reads this
      ensures r == RawPosition(Model())
    {
      if HasNext() then args[iteratorIndex].startIndex else |raw|
    }

    function GetRaw(): (r: string)
      ensures r == raw
    {
      raw
    }

    function GetState(): (s: StateObject)
      reads this
      ensures s == SavedState(Model(), this)
    {
      ArgsState(iteratorIndex as int - 1, this)
    }

    method SetState(state: StateObject) returns (o: Outcome)
      requires Valid()
      modifies this
      ensures Valid()
      ensures (Model(), o) == CursorRestore(old(Model()), state, this)
    {
      if !state.ArgsState? {
        return Fail(Crash("IllegalArgumentException: This is not a state obtained from getState"));
      }
      if state.argsOwner != this {
        return Fail(Crash("IllegalArgumentException: This is not a state from this object"));
      }
      if !(0 <= state.index <= |args|) {
        return Fail(Crash("IndexOutOfBoundsException"));
      }
      iteratorIndex := state.index;
      o := Pass;
    }
  }

  // Properties of the cursor.

  /** Peeking shows exactly the token the next `next()` returns. */
  lemma PeekIsNext(c: Cursor)
    requires c.Valid()
    ensures CursorPeek(c) == CursorNext(c).1
  {
  }

  /** `previous()` right after a successful `next()` gives the same token back and undoes the move. */
  lemma PreviousUndoesNext(c: Cursor)
    requires c.Valid() && HasNextToken(c)
    ensures CursorPrevious(CursorNext(c).0) == (c, CursorNext(c).1)
  {
  }

  /**
   * Handing a saved state back to the cursor that produced it does not return
   * to where the cursor was: the state records `previousIndex()` and the
   * restore recreates the iterator at that index, one token earlier. A state
   * saved before the first token cannot be restored at all.
   */
  lemma RestoreLandsOneEarlier(saved: Cursor, now: Cursor, self: object)
    requires saved.Valid() && now.Valid() && now.args == saved.args
    ensures HasPreviousToken(saved) ==>
      CursorRestore(now, SavedState(saved, self), self) == (now.(index := saved.index - 1), Pass)
    ensures !HasPreviousToken(saved) ==>
      CursorRestore(now, SavedState(saved, self), self) == (now, Fail(Crash("IndexOutOfBoundsException")))
  {
  }

  /** Restoring and then reading: the token read after the restore is the one before the saved position. */
  lemma RestoreThenNextRereads(saved: Cursor, now: Cursor, self: object)
    requires saved.Valid() && now.Valid() && now.args == saved.args && HasPreviousToken(saved)
    ensures var (c, _) := CursorRestore(now, SavedState(saved, self), self);
      CursorNext(c).1 == Ok(saved.args[saved.index - 1].arg)
  {
  }

  /** A state from another cursor, or an object that is not a cursor state, is refused and changes nothing. */
  lemma ForeignStateRejected(c: Cursor, state: StateObject, self: object)
    requires c.Valid()
    requires !state.ArgsState? || state.argsOwner != self
    ensures CursorRestore(c, state, self).0 == c && CursorRestore(c, state, self).1.Fail?
  {
  }

  /** Reading every token one by one yields `getAll()`. */
  lemma {:induction false} NextsReadAll(c: Cursor, n: nat)
    requires c.Valid() && c.index + n <= |c.args|
    ensures ReadN(c, n) == AllTokens(c)[c.index..c.index + n]
    decreases n
  {
    if n > 0 {
      var c' := CursorNext(c).0;
      NextsReadAll(c', n - 1);
      assert AllTokens(c')[c'.index..c'.index + (n - 1)] == AllTokens(c)[c.index + 1..c.index + n];
    }
  }

  /** The tokens `n` successive `next()` calls return. */
  function ReadN(c: Cursor, n: nat): (r: seq<string>)
    requires c.Valid() && c.index + n <= |c.args|
    ensures |r| == n
    decreases n
  {
    if n == 0 then []
    else
      var (c', t) := CursorNext(c);
      [t.value] + ReadN(c', n - 1)
  }

  /**
   * For the tokens the tokenizer produces, the raw position never passes the
   * end of the line and never moves backwards as the cursor advances.
   */
  lemma RawPositionWithinLine(c: Cursor)
    requires c.Valid() && InOrder(c.args, |c.raw|)
    ensures 0 <= RawPosition(c) <= |c.raw|
    ensures HasNextToken(c) ==> RawPosition(c) <= RawPosition(CursorNext(c).0)
  {
  }
}
