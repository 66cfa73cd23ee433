# SpongeCommon: command parsing, phase contexts and engine rules

This project models, in Dafny, the parts of SpongeCommon whose logic can be
stated without the Minecraft server underneath. SpongeCommon implements the
Sponge plugin API on top of that server. The model covers four areas.

1. **The command-argument parsing stack.** It has these parts:
   - the quoted-string tokenizer;
   - the token cursor over its arguments, with its saved states;
   - the command execution context: an insertion-ordered multimap of parsed
     values, with snapshots;
   - the parsing context's modifier chain and the parameter built on it;
   - the all-in-order sequence and the first-of combinator with rollback;
   - flags and the two behaviours for unknown flags;
   - the concrete value parameters: choices, alternative choices, literal,
     raw joined string and 3D vector;
   - the parameter, sequence, flags, command-specification and result
     builders;
   - the value-parameter factory and the two catalog registries;
   - command permission routing;
   - the tick-time mean and the success count of `SpongeCommand`.
2. **`PhaseContext` bookkeeping.** It has a completion latch, a write-once
   owner and notifier, and capture suppliers that may each be installed once.
3. **World-generation rules.** These are:
   - the chunk seed;
   - the typed populator filters;
   - the unique-biome scan;
   - the order in which populators run, with the snow populator moved last;
   - the structure-name lookup;
   - the biome-settings cache;
   - the overworld's populator lists;
   - the bedrock floor;
   - the zoomed-out biome grid.
4. **Entity rules.** These are the dragon fight's `tick()`, the fishing hook's
   shooter and retraction result, and the player's experience accessors.

## How the model is built

- **Classes with state.** A Java object whose fields change becomes a
  `class` with those fields. Each of its methods promises that its new state
  (`Fields()`, `Model()` or `Snapshot()`) is a function of the old one. The
  properties hold as lemmas about those functions.
- **Pure code.** Code that only computes stays datatypes and functions.
- **Exceptions.** A Java exception is a `Failure`, which is one of two kinds:
  - `ParseError`: a `ParameterParseException`, the only kind that the
    first-of combinator and `nextIfPresent` catch;
  - `Crash`: anything else, such as a `NullPointerException` or an
    `IllegalStateException`.
- **Null errors.** `createError` on the token cursor returns null. So every
  `throw createError(…)` is a `NullPointerException` (`NullThrown`), not a
  parse error.
- **Java arithmetic.** `int` and `long` arithmetic is written out in
  `JavaLang`: `Wrap32`/`Wrap64` wrap-around, division that truncates toward
  zero, and the saturating double-to-`int` cast.
- **Code the model cannot see.** Plugin parsers, modifiers, event listeners
  and the game engine's answers are parameters of the operations:
  - the `Env` of the parsing stack;
  - the `Engine` record of the dragon fight;
  - the event function of the fishing hook;
  - the biome function of the generators.
- **Strings.** A string is a `seq<char>`, one Unicode scalar value per element. Case folding is ASCII only (see Left out).

The model follows the code as written where it does something other than its
names suggest:

- **Token-cursor state.** `SpongeTokenizedArgs.getState` records the index
  *before* the cursor, so restoring a saved state lands one token earlier. A
  state saved at the start cannot be restored at all. The first-of combinator
  and the unknown-flag behaviours inherit this.
- **`nextIfPresent` at the end of input.** It does not answer empty, because
  the null error is not a parse exception and escapes.
- **Completion at the end of input.** The literal and vector parameters crash
  there rather than offering nothing, and so does the value-accepting
  unknown-flag behaviour.
- **Crossed flag setters.** `setUnknownLongFlagBehavior` sets the short-flag
  behaviour, and `setUnknownShortFlagBehavior` sets the long one.
- **Crossed permission grants.** `populateNonCommandPermissions` does this:
  - passing the command-block level grants the selector permission;
  - passing the selector level grants the permission named "".
- **Catalog ids.** `registerAdditionalCatalog` checks for the lower-cased id
  but stores the id as written. A mixed-case id added this way is never found
  by `getById`.
- **`process`.** `SpongeCommandSpecification.process` answers null when it
  succeeds.
- **A dropped respawn stage.** In the dragon fight,
  `respawnState.process(…, respawnStateTicks++, …)` raises the counter before
  it throws on a stage that `respawnDragon()` did not restart.

## Model

| member | source | states |
|---|---|---|
| TokenizedArgs.CursorNext | src/main/java/org/spongepowered/common/command/parameters/tokenized/SpongeTokenizedArgs.java:61-68 | With a token left it returns that token and advances one; at the end `createError` yields null, so the throw is a NullPointerException and the cursor stays put. |
| TokenizedArgs.CursorNextIfPresent | src/main/java/org/spongepowered/common/command/parameters/tokenized/SpongeTokenizedArgs.java:70-77 | Moves as `next()` does and returns the token wrapped exactly when `next()` succeeds; at the end the null throw is not a parse exception and escapes. |
| TokenizedArgs.CursorPeek | src/main/java/org/spongepowered/common/command/parameters/tokenized/SpongeTokenizedArgs.java:79-87 | Succeeds exactly when a token is left, and returns that token. |
| TokenizedArgs.CursorPrevious | src/main/java/org/spongepowered/common/command/parameters/tokenized/SpongeTokenizedArgs.java:94-101 | With a token to the left it returns it and moves back one; at the start it throws the null error and stays put. |
| TokenizedArgs.AllTokens | src/main/java/org/spongepowered/common/command/parameters/tokenized/SpongeTokenizedArgs.java:103-106 | The text of every token, same length and same order as the token list. |
| TokenizedArgs.RawPosition | src/main/java/org/spongepowered/common/command/parameters/tokenized/SpongeTokenizedArgs.java:108-118 | The start index of the next token, or the raw line's length when none is left. |
| TokenizedArgs.SavedState | src/main/java/org/spongepowered/common/command/parameters/tokenized/SpongeTokenizedArgs.java:125-128 | A state of this owner whose index is the iterator's previous index, one below its next index. |
| TokenizedArgs.CursorRestore | src/main/java/org/spongepowered/common/command/parameters/tokenized/SpongeTokenizedArgs.java:130-138 | Passes exactly for a state of this very object whose index lies in `[0, size]`, and then puts the iterator there; otherwise the cursor is unchanged and the failure is a crash. |
| TokenizedArgs.SpongeTokenizedArgs.constructor | src/main/java/org/spongepowered/common/command/parameters/tokenized/SpongeTokenizedArgs.java:50-54 | The iterator starts before the first token. |
| TokenizedArgs.SpongeTokenizedArgs.HasNext | src/main/java/org/spongepowered/common/command/parameters/tokenized/SpongeTokenizedArgs.java:56-59 | True exactly when a token is left. |
| TokenizedArgs.SpongeTokenizedArgs.Next | src/main/java/org/spongepowered/common/command/parameters/tokenized/SpongeTokenizedArgs.java:61-68 | The new cursor and the result are those of `CursorNext` on the old cursor. |
| TokenizedArgs.SpongeTokenizedArgs.NextIfPresent | src/main/java/org/spongepowered/common/command/parameters/tokenized/SpongeTokenizedArgs.java:70-77 | The new cursor and the result are those of `CursorNextIfPresent`. |
| TokenizedArgs.SpongeTokenizedArgs.Peek | src/main/java/org/spongepowered/common/command/parameters/tokenized/SpongeTokenizedArgs.java:79-87 | Returns `CursorPeek` of the cursor; the iterator goes forward and back, so the position does not change. |
| TokenizedArgs.SpongeTokenizedArgs.HasPrevious | src/main/java/org/spongepowered/common/command/parameters/tokenized/SpongeTokenizedArgs.java:89-92 | True exactly when a token lies to the left. |
| TokenizedArgs.SpongeTokenizedArgs.Previous | src/main/java/org/spongepowered/common/command/parameters/tokenized/SpongeTokenizedArgs.java:94-101 | The new cursor and the result are those of `CursorPrevious`. |
| TokenizedArgs.SpongeTokenizedArgs.GetAll | src/main/java/org/spongepowered/common/command/parameters/tokenized/SpongeTokenizedArgs.java:103-106 | Equals `AllTokens` of the cursor. |
| TokenizedArgs.SpongeTokenizedArgs.GetCurrentRawPosition | src/main/java/org/spongepowered/common/command/parameters/tokenized/SpongeTokenizedArgs.java:108-118 | Equals `RawPosition` of the cursor. |
| TokenizedArgs.SpongeTokenizedArgs.GetRaw | src/main/java/org/spongepowered/common/command/parameters/tokenized/SpongeTokenizedArgs.java:120-123 | The raw line given at construction. |
| TokenizedArgs.SpongeTokenizedArgs.GetState | src/main/java/org/spongepowered/common/command/parameters/tokenized/SpongeTokenizedArgs.java:125-128 | Equals `SavedState` of the cursor with this object as owner. |
| TokenizedArgs.SpongeTokenizedArgs.SetState | src/main/java/org/spongepowered/common/command/parameters/tokenized/SpongeTokenizedArgs.java:130-138 | The new cursor and the outcome are those of `CursorRestore` with this object as owner. |
| TokenizedArgs.PeekIsNext | src/main/java/org/spongepowered/common/command/parameters/tokenized/SpongeTokenizedArgs.java:79-87 | Peeking gives exactly the result the next `next()` returns. |
| TokenizedArgs.PreviousUndoesNext | src/main/java/org/spongepowered/common/command/parameters/tokenized/SpongeTokenizedArgs.java:61-101 | After a successful `next()`, `previous()` returns the same token and restores the old cursor. |
| TokenizedArgs.RestoreLandsOneEarlier | src/main/java/org/spongepowered/common/command/parameters/tokenized/SpongeTokenizedArgs.java:125-138 | Restoring a saved state lands one token before the saved position; a state saved before the first token fails to restore with an index error. |
| TokenizedArgs.RestoreThenNextRereads | src/main/java/org/spongepowered/common/command/parameters/tokenized/SpongeTokenizedArgs.java:125-138 | After restoring a saved state, `next()` returns the token just before the saved position. |
| TokenizedArgs.ForeignStateRejected | src/main/java/org/spongepowered/common/command/parameters/tokenized/SpongeTokenizedArgs.java:130-135 | A state of another object, or an object that is not a state, is refused and leaves the cursor unchanged. |
| TokenizedArgs.NextsReadAll | src/main/java/org/spongepowered/common/command/parameters/tokenized/SpongeTokenizedArgs.java:61-106 | `n` successive `next()` calls return the matching slice of `getAll()`. |
| TokenizedArgs.RawPositionWithinLine | src/main/java/org/spongepowered/common/command/parameters/tokenized/SpongeTokenizedArgs.java:108-118 | For tokens in order, the raw position lies in `[0, length]` and does not decrease when the cursor advances. |
| TokenizedArgs.HasNextToken | src/main/java/org/spongepowered/common/command/parameters/tokenized/SpongeTokenizedArgs.java:57-59 | `hasNext()`: a token is under the iterator. |
| TokenizedArgs.HasPreviousToken | src/main/java/org/spongepowered/common/command/parameters/tokenized/SpongeTokenizedArgs.java:90-92 | `hasPrevious()`: a token lies before the iterator. |
| TokenizedArgs.ReadN | src/main/java/org/spongepowered/common/command/parameters/tokenized/SpongeTokenizedArgs.java:62-67 | The tokens `n` successive `next()` calls return (NextsReadAll: the next `n` tokens). |
| TokenizedArgs.SpongeTokenizedArgs.Model | src/main/java/org/spongepowered/common/command/parameters/tokenized/SpongeTokenizedArgs.java:46-48 | The tokens, the raw string and the iterator's position, as a cursor value. |
| Tokenizer.SkipWhiteSpaceFrom | src/main/java/org/spongepowered/common/command/parameters/tokenized/tokenizers/QuotedStringTokenizer.java:97-104 | The first position at or after `p` that is not whitespace: everything skipped is whitespace, and what it stops at is not. |
| Tokenizer.UnquotedFrom | src/main/java/org/spongepowered/common/command/parameters/tokenized/tokenizers/QuotedStringTokenizer.java:147-158 | An unquoted argument ends at the end of the input or just before a whitespace character; the text built so far is kept as a prefix and grows by at most one character per character read. |
| Tokenizer.QuotedFrom | src/main/java/org/spongepowered/common/command/parameters/tokenized/tokenizers/QuotedStringTokenizer.java:128-145 | A quoted body ends just after a closing quote character, or at the end of the input only when lenient; without leniency and with no quote character left it fails; the text built so far is kept as a prefix and grows by at most one character per character read. |
| Tokenizer.ParseQuotedFrom | src/main/java/org/spongepowered/common/command/parameters/tokenized/tokenizers/QuotedStringTokenizer.java:120-145 | A quoted string that parses starts with the expected quote and consumes at least it. |
| Tokenizer.NextArgFrom | src/main/java/org/spongepowered/common/command/parameters/tokenized/tokenizers/QuotedStringTokenizer.java:106-118 | An argument read from a non-whitespace character consumes at least one character; at whitespace it is the empty argument and consumes nothing. |
| Tokenizer.NextTokenFrom | src/main/java/org/spongepowered/common/command/parameters/tokenized/tokenizers/QuotedStringTokenizer.java:81-91 | One turn of the loop always moves forward, and the argument's start and end positions lie between the old and new positions. |
| Tokenizer.TokenizerState.Peek | src/main/java/org/spongepowered/common/command/parameters/tokenized/tokenizers/QuotedStringTokenizer.java:109-109 | The next unread character, or the buffer-overrun parse error when none is left. |
| Tokenizer.TokenizerState.Next | src/main/java/org/spongepowered/common/command/parameters/tokenized/tokenizers/QuotedStringTokenizer.java:122-122 | Consumes and returns the next character, or fails with buffer overrun and does not move. |
| Tokenizer.StringBuilder.AppendCodePoint | src/main/java/org/spongepowered/common/command/parameters/tokenized/tokenizers/QuotedStringTokenizer.java:142-142 | Appends exactly one character. |
| Tokenizer.QuotedStringTokenizer.constructor | src/main/java/org/spongepowered/common/command/parameters/tokenized/tokenizers/QuotedStringTokenizer.java:61-67 | Keeps the three switches, the id and the name. |
| Tokenizer.QuotedStringTokenizer.GetName | src/main/java/org/spongepowered/common/command/parameters/tokenized/tokenizers/QuotedStringTokenizer.java:170-173 | `getName()` answers null, whatever name was given. |
| Tokenizer.QuotedStringTokenizer.Tokenize | src/main/java/org/spongepowered/common/command/parameters/tokenized/tokenizers/QuotedStringTokenizer.java:69-93 | Returns, or fails with, exactly `Tokenization` of the input under this tokenizer's switches. |
| Tokenizer.QuotedStringTokenizer.NextToken | src/main/java/org/spongepowered/common/command/parameters/tokenized/tokenizers/QuotedStringTokenizer.java:82-90 | One turn of the loop does what `NextTokenFrom` says: the argument, and the state's index just before the next turn's start. |
| Tokenizer.QuotedStringTokenizer.SkipWhiteSpace | src/main/java/org/spongepowered/common/command/parameters/tokenized/tokenizers/QuotedStringTokenizer.java:97-104 | Leaves the state just before `SkipWhiteSpaceFrom` of the next unread position. |
| Tokenizer.QuotedStringTokenizer.NextArg | src/main/java/org/spongepowered/common/command/parameters/tokenized/tokenizers/QuotedStringTokenizer.java:106-118 | Returns `NextArgFrom`'s text and leaves the state just before its next position, or fails as it does. |
| Tokenizer.QuotedStringTokenizer.ParseQuotedString | src/main/java/org/spongepowered/common/command/parameters/tokenized/tokenizers/QuotedStringTokenizer.java:120-145 | The builder ends as `ParseQuotedFrom` says, with leniency from the state or the tokenizer, and the state where it says; or it fails with the same error. |
| Tokenizer.QuotedStringTokenizer.ParseUnquotedString | src/main/java/org/spongepowered/common/command/parameters/tokenized/tokenizers/QuotedStringTokenizer.java:147-158 | The builder and state end as `UnquotedFrom` says, or it fails with the same error. |
| Tokenizer.QuotedStringTokenizer.ParseEscape | src/main/java/org/spongepowered/common/command/parameters/tokenized/tokenizers/QuotedStringTokenizer.java:160-163 | With two characters left it skips the backslash and appends the next character; otherwise it fails with buffer overrun. |
| Tokenizer.UnquotedWord | src/main/java/org/spongepowered/common/command/parameters/tokenized/tokenizers/QuotedStringTokenizer.java:147-158 | Without backslashes, an unquoted argument is the slice of the input up to the next whitespace. |
| Tokenizer.WordEnd | src/main/java/org/spongepowered/common/command/parameters/tokenized/tokenizers/QuotedStringTokenizer.java:148-151 | The first whitespace position at or after `p`, or the end; nothing skipped is whitespace. |
| Tokenizer.AppendWord | src/main/java/org/spongepowered/common/command/parameters/tokenized/tokenizers/QuotedStringTokenizer.java:81-91 | Appending a word that follows whitespace keeps the arguments a whitespace split of the input read so far. |
| Tokenizer.PlainNextToken | src/main/java/org/spongepowered/common/command/parameters/tokenized/tokenizers/QuotedStringTokenizer.java:81-91 | For input without backslashes (and without quotes when they are handled), one turn reads a whitespace-free slice, with only whitespace before and after it. The argument is empty only at a whitespace end when trailing space is kept. |
| Tokenizer.PlainSplitStep | src/main/java/org/spongepowered/common/command/parameters/tokenized/tokenizers/QuotedStringTokenizer.java:81-91 | One turn keeps the running split property and leaves the remaining tokenization unchanged. |
| Tokenizer.PlainInputSplitsAtWhitespace | src/main/java/org/spongepowered/common/command/parameters/tokenized/tokenizers/QuotedStringTokenizer.java:69-93 | Plain input always tokenizes, into its whitespace-separated words. An argument is empty only when it is last, the input ends in whitespace and trailing space is not trimmed. Without trimming, a non-empty input ends with an argument that reaches its last character. |
| Tokenizer.ArgumentsInOrder | src/main/java/org/spongepowered/common/command/parameters/tokenized/tokenizers/QuotedStringTokenizer.java:81-91 | Every argument lies inside the input and starts after the previous one ends. |
| Tokenizer.OneTurn | src/main/java/org/spongepowered/common/command/parameters/tokenized/tokenizers/QuotedStringTokenizer.java:69-93 | An input the loop reads in one turn yields exactly that one argument. |
| Tokenizer.EmptyInputHasNoArguments | src/main/java/org/spongepowered/common/command/parameters/tokenized/tokenizers/QuotedStringTokenizer.java:71-73 | The empty input gives the empty list. |
| Tokenizer.WhitespaceOnlyInput | src/main/java/org/spongepowered/common/command/parameters/tokenized/tokenizers/QuotedStringTokenizer.java:78-91 | Input of only whitespace gives no arguments when trailing space is trimmed, and otherwise one empty argument at the end. |
| Tokenizer.QuotedArgumentAt | src/main/java/org/spongepowered/common/command/parameters/tokenized/tokenizers/QuotedStringTokenizer.java:110-145 | A quote, a body without that quote or a backslash, and the quote again: the argument is the body and reading ends just after the closing quote. |
| Tokenizer.QuotedArgumentThenRest | src/main/java/org/spongepowered/common/command/parameters/tokenized/tokenizers/QuotedStringTokenizer.java:81-91 | One turn at a quoted argument gives the body, spanning both quotes, and tokenizing goes on just after the closing quote (after the whitespace that follows, when trailing space is trimmed) with that argument appended. |
| Tokenizer.QuotedStart | src/main/java/org/spongepowered/common/command/parameters/tokenized/tokenizers/QuotedStringTokenizer.java:108-112 | An argument that starts with a quote character, when quotes are handled, is read as a quoted string closed by that same character. |
| Tokenizer.QuotedWord | src/main/java/org/spongepowered/common/command/parameters/tokenized/tokenizers/QuotedStringTokenizer.java:141-143 | Inside quotes, characters other than the quote and a backslash are appended one by one. |
| Tokenizer.QuotedClose | src/main/java/org/spongepowered/common/command/parameters/tokenized/tokenizers/QuotedStringTokenizer.java:135-138 | Inside quotes, the quote character ends the body and is consumed. |
| Tokenizer.QuotedBackslash | src/main/java/org/spongepowered/common/command/parameters/tokenized/tokenizers/QuotedStringTokenizer.java:139-140 | Inside quotes, a backslash with a character after it appends that character. |
| Tokenizer.QuotedEscape | src/main/java/org/spongepowered/common/command/parameters/tokenized/tokenizers/QuotedStringTokenizer.java:139-140 | Inside quotes a backslash makes the next character part of the body, even the quote character that would close it. |
| Tokenizer.QuotedArgument | src/main/java/org/spongepowered/common/command/parameters/tokenized/tokenizers/QuotedStringTokenizer.java:110-112 | A body between two matching quotes is one argument, whitespace and the other quote character included, spanning the whole input. |
| Tokenizer.UnterminatedQuotedArgument | src/main/java/org/spongepowered/common/command/parameters/tokenized/tokenizers/QuotedStringTokenizer.java:128-134 | An unclosed quote gives the rest of the input as the argument when lenient (state or tokenizer), and the unterminated-string error otherwise. |
| Tokenizer.EscapedCharacter | src/main/java/org/spongepowered/common/command/parameters/tokenized/tokenizers/QuotedStringTokenizer.java:160-163 | A backslash makes the next character part of the word, even whitespace, a quote or a backslash. |
| Tokenizer.DanglingEscape | src/main/java/org/spongepowered/common/command/parameters/tokenized/tokenizers/QuotedStringTokenizer.java:160-163 | A backslash at the end of the input fails with buffer overrun. |
| Tokenizer.TokenizeFailures | src/main/java/org/spongepowered/common/command/parameters/tokenized/tokenizers/QuotedStringTokenizer.java:69-163 | Tokenizing fails only with buffer overrun when the input's last character is a backslash, or with the unterminated-string error when not lenient. |
| Tokenizer.NextArgFailures | src/main/java/org/spongepowered/common/command/parameters/tokenized/tokenizers/QuotedStringTokenizer.java:106-163 | Reading one argument fails only in those two ways: buffer overrun when the input's last character is a backslash, or an unclosed quote when not lenient. |
| Tokenizer.QuoteMismatch | src/main/java/org/spongepowered/common/command/parameters/tokenized/tokenizers/QuotedStringTokenizer.java:123-126 | The parse error raised when the character read does not match the expected quotation character, naming both. |
| Tokenizer.IsQuote | src/main/java/org/spongepowered/common/command/parameters/tokenized/tokenizers/QuotedStringTokenizer.java:110 | The two quotation characters, the double and the single quote. |
| Tokenizer.EscapeFrom | src/main/java/org/spongepowered/common/command/parameters/tokenized/tokenizers/QuotedStringTokenizer.java:160-163 | `parseEscape` on the input: the character after the backslash, or buffer overrun when the backslash is the last character. |
| Tokenizer.TokenizeFrom | src/main/java/org/spongepowered/common/command/parameters/tokenized/tokenizers/QuotedStringTokenizer.java:81-91 | The turns of the `while (state.hasMore())` loop from position `p`, appending each turn's argument; TokenizeFromSplits, TokenizeFromInOrder and TokenizeFromFailures state what the loop produces. |
| Tokenizer.Tokenization | src/main/java/org/spongepowered/common/command/parameters/tokenized/tokenizers/QuotedStringTokenizer.java:69-93 | What `tokenize(arguments, lenient)` returns or throws: the empty list for empty input, and otherwise the loop from the first position, after the leading whitespace when trailing space is trimmed; its properties are the lemmas from PlainInputSplitsAtWhitespace to TokenizeFailures, and QuotedStringTokenizer.Tokenize is tied to it. |
| Tokenizer.TokenizerState.constructor | src/main/java/org/spongepowered/common/command/parameters/tokenized/tokenizers/QuotedStringTokenizer.java:75-76 | A new state keeps the input and the leniency and has consumed nothing. |
| Tokenizer.TokenizerState.HasMore | src/main/java/org/spongepowered/common/command/parameters/tokenized/tokenizers/QuotedStringTokenizer.java:81 | True exactly when a character follows the last consumed one. |
| Tokenizer.TokenizerState.GetIndex | src/main/java/org/spongepowered/common/command/parameters/tokenized/tokenizers/QuotedStringTokenizer.java:85-87 | The position of the last consumed character, -1 before the first. |
| Tokenizer.TokenizerState.IsLenient | src/main/java/org/spongepowered/common/command/parameters/tokenized/tokenizers/QuotedStringTokenizer.java:130 | The leniency the state was created with. |
| Tokenizer.StringBuilder.constructor | src/main/java/org/spongepowered/common/command/parameters/tokenized/tokenizers/QuotedStringTokenizer.java:107 | A new builder is empty. |
| Tokenizer.QuotedStringTokenizer.GetId | src/main/java/org/spongepowered/common/command/parameters/tokenized/tokenizers/QuotedStringTokenizer.java:165-168 | The id given at construction. |
| Tokenizer.TokenizeFromSplits | src/main/java/org/spongepowered/common/command/parameters/tokenized/tokenizers/QuotedStringTokenizer.java:81-91 | On input without backslashes (and without quotes when they are handled), the loop from any point that keeps the running split always succeeds and yields a whitespace split of the input. |
| Tokenizer.TokenizeFromInOrder | src/main/java/org/spongepowered/common/command/parameters/tokenized/tokenizers/QuotedStringTokenizer.java:81-91 | Arguments already in order stay in order as the loop appends more, each inside the input. |
| Tokenizer.TokenizeFromFailures | src/main/java/org/spongepowered/common/command/parameters/tokenized/tokenizers/QuotedStringTokenizer.java:81-163 | The loop fails only with buffer overrun when the input's last character is a backslash, or with the unterminated-string error when not lenient. |
| Tokenizer.UnquotedFailures | src/main/java/org/spongepowered/common/command/parameters/tokenized/tokenizers/QuotedStringTokenizer.java:147-163 | An unquoted argument fails only with buffer overrun, and only when the input's last character is a backslash. |
| Tokenizer.QuotedFailures | src/main/java/org/spongepowered/common/command/parameters/tokenized/tokenizers/QuotedStringTokenizer.java:128-163 | A quoted body fails only with buffer overrun when the input's last character is a backslash, or with the unterminated-string error when not lenient. |
| JavaLang.ToLower | src/main/java/org/spongepowered/common/command/parameters/valueparameters/ChoicesValueParameter.java:68 | `toLowerCase(Locale.ENGLISH)` keeps the length and folds each character on its own. |
| JavaLang.LowerIsIdempotent | src/main/java/org/spongepowered/common/registry/type/command/CatalogedValueParametersRegistryModule.java:70-72 | Lower-casing twice is lower-casing once, so `getById` folds an already lower-case id to itself. |
| JavaLang.IndexOf | src/main/java/org/spongepowered/common/command/parameters/valueparameters/Vector3dValueParameter.java:70 | The first occurrence of the delimiter: it is there, and no earlier character is the delimiter. |
| JavaLang.DropTrailingEmpty | src/main/java/org/spongepowered/common/command/parameters/valueparameters/Vector3dValueParameter.java:70 | `split` drops exactly the trailing empty pieces: what remains is a prefix that does not end in an empty piece, and everything dropped is empty. |
| JavaLang.SplitAllJoins | src/main/java/org/spongepowered/common/command/parameters/valueparameters/Vector3dValueParameter.java:70 | Splitting at every delimiter and joining the pieces with it gives the string back, and no piece holds the delimiter. |
| JavaLang.Insert | src/main/java/org/spongepowered/common/command/parameters/valueparameters/ChoicesValueParameter.java:83 | Inserting into a sorted list keeps it sorted and adds exactly that element. |
| JavaLang.Sort | src/main/java/org/spongepowered/common/command/parameters/valueparameters/ChoicesValueParameter.java:83 | `.sorted()` returns a sorted permutation of its input. |
| JavaLang.Wrap32 | src/main/java/org/spongepowered/common/mixin/core/entity/player/MixinEntityPlayer.java:179-185 | Java `int` arithmetic: the result is an `int` congruent to the exact value modulo 2^32, and the exact value itself when it fits. |
| JavaLang.Wrap64 | src/main/java/org/spongepowered/common/command/SpongeCommand.java:675-686 | Java `long` arithmetic: the result is a `long` congruent to the exact value modulo 2^64, and the exact value itself when it fits. |
| JavaLang.TruncDiv | src/main/java/org/spongepowered/common/command/SpongeCommand.java:683 | Java `/`: the remainder has the sign of the dividend and is smaller in magnitude than the divisor. |
| JavaLang.IntCast | src/main/java/org/spongepowered/common/mixin/core/entity/player/MixinEntityPlayer.java:169-177 | An `(int)` cast of a double is an `int`; inside the `int` range it truncates toward zero. |
| JavaLang.IsWhitespace | src/main/java/org/spongepowered/common/command/parameters/tokenized/tokenizers/QuotedStringTokenizer.java:150 | `Character.isWhitespace`: the space and the ASCII controls from tab to carriage return and from U+001C to U+001F, and the Unicode space, line and paragraph separators other than the no-break spaces. |
| JavaLang.ToLowerChar | src/main/java/org/spongepowered/common/command/parameters/valueparameters/ChoicesValueParameter.java:68 | Lower-casing of one character, folding the ASCII capitals only (see Strings and case under Left out). |
| JavaLang.EqualsIgnoreCase | src/main/java/org/spongepowered/common/command/parameters/valueparameters/ChoicesValueParameter.java:66 | `equalsIgnoreCase`: the two strings lower-case alike (ASCII folding). |
| JavaLang.StartsWith | src/main/java/org/spongepowered/common/command/parameters/valueparameters/ChoicesValueParameter.java:77 | `startsWith`: the prefix is no longer than the string and equals its first characters. |
| JavaLang.Join | src/main/java/org/spongepowered/common/command/parameters/valueparameters/ChoicesValueParameter.java:85 | `String.join`: the parts with the separator between each two; SplitAllJoins proves it undoes splitting. |
| JavaLang.SplitAll | src/main/java/org/spongepowered/common/command/parameters/valueparameters/Vector3dValueParameter.java:70 | The pieces between every two occurrences of the delimiter; there is always at least one, no piece holds the delimiter, and joining them gives the string back (SplitAllJoins). |
| JavaLang.JavaSplit | src/main/java/org/spongepowered/common/command/parameters/valueparameters/Vector3dValueParameter.java:70 | `String.split` on a one-character pattern: the string itself when the delimiter is absent, and otherwise every piece with the trailing empty ones dropped (DropTrailingEmpty). |
| JavaLang.StrLe | src/main/java/org/spongepowered/common/command/parameters/valueparameters/ChoicesValueParameter.java:83 | The natural order of strings that `.sorted()` uses, character by character, with a prefix first (see Strings and case under Left out); StrLeTotal proves it total. |
| JavaLang.StrLeTotal | src/main/java/org/spongepowered/common/command/parameters/valueparameters/ChoicesValueParameter.java:83 | Any two strings are comparable, so sorting is well defined. |
| SpongeCommand.WrapAdd | src/main/java/org/spongepowered/common/command/SpongeCommand.java:678-680 | Wrapping every partial sum of a `long` accumulation equals wrapping the exact sum once. |
| SpongeCommand.MeanOf | src/main/java/org/spongepowered/common/command/SpongeCommand.java:675-686 | No values give a mean of 0. |
| SpongeCommand.Mean | src/main/java/org/spongepowered/common/command/SpongeCommand.java:675-686 | `mean(long[])` returns the wrapped sum divided toward zero by the number of values, and 0 for an empty array. |
| SpongeCommand.MeanIsLong | src/main/java/org/spongepowered/common/command/SpongeCommand.java:683 | The quotient of a `long` by a positive count is itself a `long`. |
| SpongeCommand.MeanOfSmallSum | src/main/java/org/spongepowered/common/command/SpongeCommand.java:675-686 | When the sum does not overflow, the mean is the exact sum divided toward zero by the count. |
| SpongeCommand.SuccessCount | src/main/java/org/spongepowered/common/command/SpongeCommand.java:165-193 | The success count is zero exactly when no target flag was given. |
| SpongeCommand.Execute | src/main/java/org/spongepowered/common/command/SpongeCommand.java:165-193 | `execute` fails exactly when an unloaded world is named while the executor needs loaded worlds, or no target was given; otherwise the result's success count is one for the global config, one per dimension and one per world. |
| SpongeCommand.Sum | src/main/java/org/spongepowered/common/command/SpongeCommand.java:676-680 | The sum `mean` accumulates over the values. |
| ExecutionContext.Put | src/main/java/org/spongepowered/common/command/specification/SpongeCommandExecutionContext.java:138-141 | `put` appends the value to the values under its key, leaves every other key alone, and never creates an empty list. |
| ExecutionContext.OneOf | src/main/java/org/spongepowered/common/command/specification/SpongeCommandExecutionContext.java:114-120 | `getOne` gives a value exactly when the key holds exactly one, and then that value. |
| ExecutionContext.Restored | src/main/java/org/spongepowered/common/command/specification/SpongeCommandExecutionContext.java:155-156 | `clear` then `putAll` yields the saved contents, with no empty lists. |
| ExecutionContext.RestoreEntries | src/main/java/org/spongepowered/common/command/specification/SpongeCommandExecutionContext.java:150-158 | `setState` succeeds exactly for a state taken from this very context; the contents become the saved ones, and a refused state leaves the contents unchanged and throws. |
| ExecutionContext.SpongeCommandExecutionContext.constructor | src/main/java/org/spongepowered/common/command/specification/SpongeCommandExecutionContext.java:69-73 | A fresh context has no entries and keeps its completion flag and target block. |
| ExecutionContext.SpongeCommandExecutionContext.GetTargetBlock | src/main/java/org/spongepowered/common/command/specification/SpongeCommandExecutionContext.java:87-90 | The target block the context was made with, or none. |
| ExecutionContext.SpongeCommandExecutionContext.IsCompletion | src/main/java/org/spongepowered/common/command/specification/SpongeCommandExecutionContext.java:92-95 | The completion flag the context was made with. |
| ExecutionContext.SpongeCommandExecutionContext.HasAny | src/main/java/org/spongepowered/common/command/specification/SpongeCommandExecutionContext.java:102-105 | A key is present exactly when it holds at least one value. |
| ExecutionContext.SpongeCommandExecutionContext.GetOne | src/main/java/org/spongepowered/common/command/specification/SpongeCommandExecutionContext.java:112-120 | The single value under the key, or none when there are zero or several. |
| ExecutionContext.SpongeCommandExecutionContext.GetAll | src/main/java/org/spongepowered/common/command/specification/SpongeCommandExecutionContext.java:127-131 | All values under the key, in the order they were put. |
| ExecutionContext.SpongeCommandExecutionContext.PutEntry | src/main/java/org/spongepowered/common/command/specification/SpongeCommandExecutionContext.java:137-141 | A null value is refused and nothing changes; otherwise the value is appended under the key. |
| ExecutionContext.SpongeCommandExecutionContext.GetState | src/main/java/org/spongepowered/common/command/specification/SpongeCommandExecutionContext.java:143-146 | A snapshot of the contents, tagged with this context. |
| ExecutionContext.SpongeCommandExecutionContext.SetState | src/main/java/org/spongepowered/common/command/specification/SpongeCommandExecutionContext.java:148-158 | The contents and outcome are those of restoring the given state. |
| ExecutionContext.PresentIffValues | src/main/java/org/spongepowered/common/command/specification/SpongeCommandExecutionContext.java:102-105 | In a multimap a key is present exactly when it has values. |
| ExecutionContext.OneThenTwo | src/main/java/org/spongepowered/common/command/specification/SpongeCommandExecutionContext.java:112-120 | After one value under a fresh key `getOne` returns it; after a second, `getOne` returns nothing and `getAll` returns both in order. |
| ExecutionContext.RestoreSnapshot | src/main/java/org/spongepowered/common/command/specification/SpongeCommandExecutionContext.java:143-158 | Restoring a snapshot of the current contents changes nothing. |
| ExecutionContext.RestoreUndoesPuts | src/main/java/org/spongepowered/common/command/specification/SpongeCommandExecutionContext.java:143-158 | Taking a state, putting any further entries and restoring the state gives the snapshot back and succeeds. |
| ExecutionContext.PutAll | src/main/java/org/spongepowered/common/command/specification/SpongeCommandExecutionContext.java:137-141 | A series of `putEntry` calls only ever extends the values under each key. |
| ExecutionContext.ValuesOf | src/main/java/org/spongepowered/common/command/specification/SpongeCommandExecutionContext.java:115 | The values the multimap holds under a key, in insertion order; none for an absent key. |
| ChoiceParameters.Names | src/main/java/org/spongepowered/common/command/parameters/valueparameters/ChoicesValueParameter.java:66 | The names of the choices map, one per entry, in iteration order. |
| ChoiceParameters.FirstIgnoringCase | src/main/java/org/spongepowered/common/command/parameters/valueparameters/ChoicesValueParameter.java:66 | `findFirst` over `equalsIgnoreCase`: a found position matches and no earlier one does; none found means no name matches. |
| ChoiceParameters.PrefixMatches | src/main/java/org/spongepowered/common/command/parameters/valueparameters/ChoicesValueParameter.java:76-77 | A name is kept exactly when its lower-case form starts with the lower-cased token; nothing else is added. |
| ChoiceParameters.CompleteNames | src/main/java/org/spongepowered/common/command/parameters/valueparameters/ChoicesValueParameter.java:74-78 | Completion succeeds exactly when there is a token to peek at, and then lists, sorted, exactly the names that start with it ignoring case. |
| ChoiceParameters.ChoicesUsage | src/main/java/org/spongepowered/common/command/parameters/valueparameters/ChoicesValueParameter.java:80-89 | The usage is the key when listing is off, the sorted names in angle brackets separated by `\|` when it is on, and when undecided the names only below the cutoff of 5. |
| ChoiceParameters.LowerAll | src/main/java/org/spongepowered/common/command/parameters/valueparameters/ChoicesValueParameter.java:68 | Each name lower-cased, in the same order. |
| ChoiceParameters.ChoicesValue | src/main/java/org/spongepowered/common/command/parameters/valueparameters/ChoicesValueParameter.java:57-71 | One token is consumed; a missing token or a token that matches no name ends in `throw null`; otherwise the value of the first name equal to it ignoring case. |
| ChoiceParameters.ChoicesGetValue | src/main/java/org/spongepowered/common/command/parameters/valueparameters/ChoicesValueParameter.java:57-71 | The cursor and the result are those of `ChoicesValue`. |
| ChoiceParameters.ChoicesComplete | src/main/java/org/spongepowered/common/command/parameters/valueparameters/ChoicesValueParameter.java:73-78 | The completions of the choices map, cursor unchanged. |
| ChoiceParameters.AlternativeValue | src/main/java/org/spongepowered/common/command/parameters/valueparameters/AlternativeChoicesValueParameter.java:61-75 | One token is consumed; a missing or unmatched token ends in `throw null`; otherwise the value function is applied to the first matching name as declared. |
| ChoiceParameters.AlternativeGetValue | src/main/java/org/spongepowered/common/command/parameters/valueparameters/AlternativeChoicesValueParameter.java:61-75 | The cursor and the result are those of `AlternativeValue`. |
| ChoiceParameters.AlternativeComplete | src/main/java/org/spongepowered/common/command/parameters/valueparameters/AlternativeChoicesValueParameter.java:77-82 | The completions of the name collection, cursor unchanged. |
| ChoiceParameters.ChoiceFoundInAnyCase | src/main/java/org/spongepowered/common/command/parameters/valueparameters/ChoicesValueParameter.java:64-71 | When names differ ignoring case, a token equal to one of them ignoring case selects exactly that name's value. |
| ChoiceParameters.NoChoiceRefused | src/main/java/org/spongepowered/common/command/parameters/valueparameters/ChoicesValueParameter.java:66-69 | A token that equals no name ignoring case is refused, and the token is consumed. |
| ChoiceParameters.AlternativeUsesDeclaredSpelling | src/main/java/org/spongepowered/common/command/parameters/valueparameters/AlternativeChoicesValueParameter.java:70-74 | The value function receives the declared spelling of the first matching name, not the typed token. |
| ChoiceParameters.MessageListsEveryName | src/main/java/org/spongepowered/common/command/parameters/valueparameters/ChoicesValueParameter.java:67-69 | The error text lists every name, lower-cased, each once, in sorted order. |
| ChoiceParameters.EmptyTokenCompletesAll | src/main/java/org/spongepowered/common/command/parameters/valueparameters/ChoicesValueParameter.java:74-78 | An empty token completes to every name. |
| ChoiceParameters.NotAChoiceMessage | src/main/java/org/spongepowered/common/command/parameters/valueparameters/ChoicesValueParameter.java:67-68 | The "not a valid choice" text: the names lower-cased, sorted and joined by ", ". |
| Common.AsBoolean | src/main/java/org/spongepowered/common/command/parameters/valueparameters/ChoicesValueParameter.java:84 | `Tristate.asBoolean()`: only `TRUE` is true. |
| LiteralParameter.MatchLiterals | src/main/java/org/spongepowered/common/command/parameters/valueparameters/LiteralValueParameter.java:54-60 | The loop only moves the cursor forward over the same line; success consumes one token per literal, and every failure is `throw null`. |
| LiteralParameter.LiteralValue | src/main/java/org/spongepowered/common/command/parameters/valueparameters/LiteralValueParameter.java:52-63 | `getValue` succeeds exactly when the literal loop does, with the cursor it leaves, and then returns the configured value. |
| LiteralParameter.LiteralGetValue | src/main/java/org/spongepowered/common/command/parameters/valueparameters/LiteralValueParameter.java:52-63 | The cursor and result are those of `LiteralValue`. |
| LiteralParameter.LiteralCompletion | src/main/java/org/spongepowered/common/command/parameters/valueparameters/LiteralValueParameter.java:65-82 | Completion keeps the line and offers at most one literal. |
| LiteralParameter.LiteralComplete | src/main/java/org/spongepowered/common/command/parameters/valueparameters/LiteralValueParameter.java:65-82 | The cursor and result are those of `LiteralCompletion`. |
| LiteralParameter.LiteralUsage | src/main/java/org/spongepowered/common/command/parameters/valueparameters/LiteralValueParameter.java:84-87 | The usage is the literals joined with single spaces. |
| LiteralParameter.MatchIffTyped | src/main/java/org/spongepowered/common/command/parameters/valueparameters/LiteralValueParameter.java:54-60 | `getValue` succeeds exactly when the next tokens equal the literals in order, ignoring case. |
| LiteralParameter.MismatchConsumesToken | src/main/java/org/spongepowered/common/command/parameters/valueparameters/LiteralValueParameter.java:55-58 | A mismatch after k matching tokens fails with the mismatching token consumed: the cursor is k + 1 tokens on. |
| LiteralParameter.CompletesCurrentLiteral | src/main/java/org/spongepowered/common/command/parameters/valueparameters/LiteralValueParameter.java:67-78 | When the last token prefixes literal k ignoring case after k matching tokens, that literal is the one completion. |
| LiteralParameter.EarlierMismatchCompletesNothing | src/main/java/org/spongepowered/common/command/parameters/valueparameters/LiteralValueParameter.java:71-74 | A whole token, not the last, that is not its literal ends the walk with no completions. |
| LiteralParameter.CompletingPastTheEndFails | src/main/java/org/spongepowered/common/command/parameters/valueparameters/LiteralValueParameter.java:68 | With literals left and no tokens, completion throws, since `nextIfPresent` only catches a parse exception and `createError` yields null. |
| RawJoinedParameter.RawJoinedValue | src/main/java/org/spongepowered/common/command/parameters/valueparameters/RawJoinedStringValueParameter.java:56-65 | No token means `throw null`; otherwise the line is kept and every remaining token is consumed. |
| RawJoinedParameter.RawJoinedGetValue | src/main/java/org/spongepowered/common/command/parameters/valueparameters/RawJoinedStringValueParameter.java:56-65 | The cursor and result are those of `RawJoinedValue`. |
| RawJoinedParameter.RawJoinedCompletion | src/main/java/org/spongepowered/common/command/parameters/valueparameters/RawJoinedStringValueParameter.java:51-54 | Completions are always empty. |
| RawJoinedParameter.RawJoinedUsage | src/main/java/org/spongepowered/common/command/parameters/valueparameters/RawJoinedStringValueParameter.java:67-70 | The usage is the key followed by an ellipsis. |
| RawJoinedParameter.RemainderOfTokenizedLine | src/main/java/org/spongepowered/common/command/parameters/valueparameters/RawJoinedStringValueParameter.java:59-64 | On a tokenized line the value is the raw text from the start of the token after the first one consumed, or empty when none follows, and all tokens are consumed. |
| RawJoinedParameter.FirstTokenExcluded | src/main/java/org/spongepowered/common/command/parameters/valueparameters/RawJoinedStringValueParameter.java:59-60 | The first consumed token ends before the returned remainder begins. |
| LiteralParameter.TypedInOrder | src/main/java/org/spongepowered/common/command/parameters/valueparameters/LiteralValueParameter.java:55-58 | The next tokens equal the literals, one by one and ignoring case. |
| Vector3dParameter.ParseRelative | src/main/java/org/spongepowered/common/command/parameters/valueparameters/Vector3dValueParameter.java:120-137 | A `~` without a source position is refused; `~` alone is the source's coordinate; `~n` adds the number to it; anything else is the number itself; an unreadable number is refused. |
| Vector3dParameter.Coordinates | src/main/java/org/spongepowered/common/command/parameters/valueparameters/Vector3dValueParameter.java:93-97 | The vector is produced exactly when all three coordinates parse, each relative to the matching coordinate of the source, and holds those three values. |
| Vector3dParameter.Vector3dValue | src/main/java/org/spongepowered/common/command/parameters/valueparameters/Vector3dValueParameter.java:62-98 | `getValue` only moves forward over the same line. |
| Vector3dParameter.Vector3dGetValue | src/main/java/org/spongepowered/common/command/parameters/valueparameters/Vector3dValueParameter.java:62-98 | The cursor and result are those of `Vector3dValue`, whose forms `ThreeTokenForm`, `CommaForm`, `TargetForm` and `MeIsSourcePosition` state. |
| Vector3dParameter.SpecialMatches | src/main/java/org/spongepowered/common/command/parameters/valueparameters/Vector3dValueParameter.java:106 | Exactly the special tokens the typed text starts, ignoring case. |
| Vector3dParameter.Vector3dCompletion | src/main/java/org/spongepowered/common/command/parameters/valueparameters/Vector3dValueParameter.java:100-118 | Completion keeps the line; with no token left it throws, because `nextIfPresent` does not catch the null `createError` gives. |
| Vector3dParameter.Vector3dComplete | src/main/java/org/spongepowered/common/command/parameters/valueparameters/Vector3dValueParameter.java:100-118 | The cursor and result are those of `Vector3dCompletion`, whose cases `CompletionOfSpecial`, `CompletionEchoesFirst` and `CompletionOfLaterToken` state. |
| Vector3dParameter.TokensConsumed | src/main/java/org/spongepowered/common/command/parameters/valueparameters/Vector3dValueParameter.java:68-92 | The comma form, `#target` from an entity and `#me` consume one token; the three-token form consumes three whether or not the coordinates parse, and with fewer than three left it ends at the end of the line with the null throw. |
| Vector3dParameter.ThreeTokenForm | src/main/java/org/spongepowered/common/command/parameters/valueparameters/Vector3dValueParameter.java:89-97 | With three tokens left and a plain first token, the result is the vector of those three tokens read as coordinates, and the cursor is three tokens on. |
| Vector3dParameter.CommaForm | src/main/java/org/spongepowered/common/command/parameters/valueparameters/Vector3dValueParameter.java:69-76 | A first token that splits at commas into three parts gives the vector of those parts, consuming only that token. |
| Vector3dParameter.TargetForm | src/main/java/org/spongepowered/common/command/parameters/valueparameters/Vector3dValueParameter.java:77-86 | `#target` from an entity is the position of the block it looks at, or the null throw when it looks at none; one token is consumed. |
| Vector3dParameter.CompletionOfSpecial | src/main/java/org/spongepowered/common/command/parameters/valueparameters/Vector3dValueParameter.java:102-106 | A first token starting with `#` completes to the special tokens it starts, ignoring case. |
| Vector3dParameter.CompletionEchoesFirst | src/main/java/org/spongepowered/common/command/parameters/valueparameters/Vector3dValueParameter.java:107-108 | A first token with a comma, or with nothing after it, is the only completion. |
| Vector3dParameter.CompletionOfLaterToken | src/main/java/org/spongepowered/common/command/parameters/valueparameters/Vector3dValueParameter.java:109-114 | Otherwise the completion is the third token when there is one (three consumed), else the second (two consumed). |
| Vector3dParameter.CommaFormNeedsThreeParts | src/main/java/org/spongepowered/common/command/parameters/valueparameters/Vector3dValueParameter.java:69-73 | A comma token that does not split into exactly three parts is refused. |
| Vector3dParameter.MeIsSourcePosition | src/main/java/org/spongepowered/common/command/parameters/valueparameters/Vector3dValueParameter.java:87-88 | `#me`, in any case, from a source with a position, is that position. |
| Vector3dParameter.RelativeNeedsPosition | src/main/java/org/spongepowered/common/command/parameters/valueparameters/Vector3dValueParameter.java:121-125 | A relative coordinate from a source without a position is refused. |
| Vector3dParameter.TildesAreSourcePosition | src/main/java/org/spongepowered/common/command/parameters/valueparameters/Vector3dValueParameter.java:93-97 | `~ ~ ~` is the source's own position. |
| Vector3dParameter.Coordinate | src/main/java/org/spongepowered/common/command/parameters/valueparameters/Vector3dValueParameter.java:93-95 | The source's coordinate on an axis when it is Locatable, none otherwise. |
| Vector3dParameter.AsVector | src/main/java/org/spongepowered/common/command/parameters/valueparameters/Vector3dValueParameter.java:97 | A parsed vector wrapped as the parameter's value; a failure passed on. |
| FlagBehaviors.AcceptValue | src/main/java/org/spongepowered/common/command/parameters/flags/behaviors/AcceptValueBehavior.java:35-56 | The behaviour stays on the same line; a failure is a crash that leaves the entries alone; success needs a token-cursor state and reads at least the re-read flag. |
| FlagBehaviors.AcceptNonValue | src/main/java/org/spongepowered/common/command/parameters/flags/behaviors/AcceptNonValueBehavior.java:37-54 | The behaviour stays on the same line; a failure is a crash that leaves the entries alone; success reads exactly the re-read flag. |
| FlagBehaviors.AcceptValueParse | src/main/java/org/spongepowered/common/command/parameters/flags/behaviors/AcceptValueBehavior.java:35-56 | The cursor, entries and outcome are those of `AcceptValue`, whose cases `LongValueFlagTakesFollowingToken` and `ShortValueFlag` state. |
| FlagBehaviors.AcceptNonValueParse | src/main/java/org/spongepowered/common/command/parameters/flags/behaviors/AcceptNonValueBehavior.java:37-54 | The cursor, entries and outcome are those of `AcceptNonValue`, whose cases `RereadsTokenBeforeSavedPosition` states. |
| FlagBehaviors.RereadsTokenBeforeSavedPosition | src/main/java/org/spongepowered/common/command/parameters/flags/behaviors/AcceptNonValueBehavior.java:41-53 | A state saved at the start cannot be rewound to; otherwise the re-read token is the one before the saved position: `--name` stores name -> true, a two-character short flag stores its letter -> true, and anything else is refused (a one-character token by `substring`). |
| FlagBehaviors.LongValueFlagTakesFollowingToken | src/main/java/org/spongepowered/common/command/parameters/flags/behaviors/AcceptValueBehavior.java:41-44 | A re-read `--name` stores the token after it under `name`; in last place the flag fails, since `nextIfPresent` throws before the fallback applies. |
| FlagBehaviors.NonValueConsumesOnlyTheFlag | src/main/java/org/spongepowered/common/command/parameters/flags/behaviors/AcceptNonValueBehavior.java:41-53 | A valueless behaviour that succeeds consumes only the flag it re-reads. |
| FlagBehaviors.ShortValueFlag | src/main/java/org/spongepowered/common/command/parameters/flags/behaviors/AcceptValueBehavior.java:47-54 | A re-read `-pVALUE` stores p -> VALUE and consumes only the flag; `-p` stores p -> the following token, and in last place fails with the null throw; a one-character token is refused by `charAt(1)`. |
| FlagBehaviors.ValuePassStoresOneValue | src/main/java/org/spongepowered/common/command/parameters/flags/behaviors/AcceptValueBehavior.java:39-54 | A value behaviour that succeeds appends exactly one text value under exactly one key and changes nothing else. |
| FlagBehaviors.NonValuePassStoresOneTrue | src/main/java/org/spongepowered/common/command/parameters/flags/behaviors/AcceptNonValueBehavior.java:41-53 | A valueless behaviour that succeeds appends exactly one `true` under exactly one key and changes nothing else. |
| Parsing.PluginValue | src/main/java/org/spongepowered/common/command/parameters/SpongeParameterBuilder.java:168-171 | A plugin's parser reads forward only, on the same line, never past its end. |
| Parsing.ValueOf | src/main/java/org/spongepowered/common/command/parameters/SpongeParameterBuilder.java:168-171 | `getValue` of any value parameter, including a builder-assembled one, reads forward only, on the same line. |
| Parsing.Chain | src/main/java/org/spongepowered/common/command/parameters/SpongeParsingContext.java:58-69 | The modifier chain keeps the line and, unless it crashed, never moves the cursor back. |
| Parsing.Parse | src/main/java/org/spongepowered/common/command/parameters/SpongeParameter.java:56-59 | Parsing any parameter keeps the line and, unless it crashed, never moves the cursor back. |
| Parsing.SequenceFrom | src/main/java/org/spongepowered/common/command/parameters/SpongeSequenceParameter.java:58-67 | The sequence parse keeps the line and, unless it crashed, never moves the cursor back. |
| Parsing.FirstOfFrom | src/main/java/org/spongepowered/common/command/parameters/SpongeParameterSequenceBuilder.java:110-126 | The first-of parse keeps the line and, unless it crashed, never moves the cursor back. |
| Parsing.FlagsParse | src/main/java/org/spongepowered/common/command/parameters/flags/SpongeFlags.java:60-97 | The flag parse keeps the line and, unless it crashed, never moves the cursor back. |
| Parsing.Unknown | src/main/java/org/spongepowered/common/command/parameters/flags/SpongeFlags.java:81-82 | An unknown flag's behaviour stays on the line; success reads at least the re-read flag; a catchable failure changes nothing. |
| Parsing.PluginCompletions | src/main/java/org/spongepowered/common/command/parameters/SpongeParameterBuilder.java:173-176 | A plugin's completer leaves the cursor where it was. |
| Parsing.ValueCompletions | src/main/java/org/spongepowered/common/command/parameters/SpongeParameter.java:62-63 | `complete` of a value parameter stays on the same line. |
| Parsing.Complete | src/main/java/org/spongepowered/common/command/parameters/SpongeParameter.java:61-69 | Completing any parameter stays on the same line. |
| Parsing.CompleteAfterFailure | src/main/java/org/spongepowered/common/command/parameters/SpongeSequenceParameter.java:88-91 | The restore and completion after a failed element stay on the same line. |
| Parsing.SequenceCompleteFrom | src/main/java/org/spongepowered/common/command/parameters/SpongeSequenceParameter.java:69-98 | The sequence's completion walk stays on the same line. |
| Parsing.SequenceCompleteNext | src/main/java/org/spongepowered/common/command/parameters/SpongeSequenceParameter.java:93-95 | The end of an element's turn stays on the same line. |
| Parsing.FirstOfCompleteFrom | src/main/java/org/spongepowered/common/command/parameters/SpongeParameterSequenceBuilder.java:128-141 | The first-of completion walk stays on the same line. |
| Parsing.NonEmpty | src/main/java/org/spongepowered/common/command/parameters/SpongeSequenceParameter.java:104 | The filter keeps exactly the usages that are not empty, and nothing else. |
| Parsing.Usages | src/main/java/org/spongepowered/common/command/parameters/SpongeSequenceParameter.java:102-103 | One usage per child. |
| Parsing.NonEmptyAppend | src/main/java/org/spongepowered/common/command/parameters/SpongeParameterSequenceBuilder.java:148-158 | Filtering one more usage appends it exactly when it is not empty. |
| Parsing.FlagsUsage | src/main/java/org/spongepowered/common/command/parameters/flags/SpongeFlags.java:99-103 | The flags' usage exists exactly when every primary alias has a parameter; otherwise the mapping dereferences null. |
| Parsing.Key | src/main/java/org/spongepowered/common/command/parameters/SpongeSequenceParameter.java:53-56 | A single parameter's key is its own; sequences and first-of parameters have the empty key. |
| ParsingProperties.ChainTouchesOnlyItsKey | src/main/java/org/spongepowered/common/command/parameters/SpongeParsingContext.java:58-69 | Whatever the outcome, the chain of a parameter changes the values of no key but its own. |
| ParsingProperties.DeniedPermissionReadsNothing | src/main/java/org/spongepowered/common/command/parameters/SpongeParameterBuilder.java:193-199 | A permission the source lacks stops the chain: no token is read, and when only default modifiers come first the parse succeeds. |
| ParsingProperties.DefaultLeavesAValue | src/main/java/org/spongepowered/common/command/parameters/modifiers/DefaultValueModifier.java:45-53 | After a default-value modifier succeeds, the key holds at least one value. |
| ParsingProperties.ChainDrop | src/main/java/org/spongepowered/common/command/parameters/SpongeParsingContext.java:58-69 | The chain from modifier i depends only on the modifiers from i on. |
| ParsingProperties.DefaultStandsInForDeniedPermission | src/main/java/org/spongepowered/common/command/parameters/modifiers/DefaultValueModifier.java:45-53 | A default in front of a permission the source lacks stores exactly the default and reads no token. |
| ParsingProperties.PlainParameterStoresItsValue | src/main/java/org/spongepowered/common/command/parameters/SpongeParsingContext.java:65-68 | Without modifiers, a parameter succeeds exactly when its value is present, keeps the cursor of the value parser, appends the value under its key, and changes no entry on failure. |
| ParsingProperties.FirstOfNeverFailsCatchably | src/main/java/org/spongepowered/common/command/parameters/SpongeParameterSequenceBuilder.java:123-125 | A first-of parameter that fails always crashes: it never throws a catchable parse error. |
| ParsingProperties.FirstSuccessWins | src/main/java/org/spongepowered/common/command/parameters/SpongeParameterSequenceBuilder.java:113-117 | The first alternative that parses is the answer; later ones are not tried. |
| ParsingProperties.UnanchoredFlagsInertAfterStart | src/main/java/org/spongepowered/common/command/parameters/flags/SpongeFlags.java:62-64 | Once a token has been read, unanchored flags parse nothing, so parsing is the same as with anchored flags. |
| ParsingProperties.SequenceInertAfterStart | src/main/java/org/spongepowered/common/command/parameters/SpongeSequenceParameter.java:60-66 | The same for the rest of a sequence. |
| ParsingProperties.FirstOfInertAfterStart | src/main/java/org/spongepowered/common/command/parameters/SpongeParameterSequenceBuilder.java:113-121 | The same for the rest of a first-of parameter. |
| ParsingProperties.KnownLongFlagParsesItsParameter | src/main/java/org/spongepowered/common/command/parameters/flags/SpongeFlags.java:88-97 | A known long flag, looked up lower-cased, consumes its token and then parses its own parameter. |
| ParsingProperties.UnknownFlagRereadsEarlierToken | src/main/java/org/spongepowered/common/command/parameters/flags/SpongeFlags.java:66-74 | An unknown flag handed to the valueless behaviour is re-read from a state that restores one token earlier: in first place it crashes, later the token before it is read as the flag. |
| ParsingProperties.SequencesFlatten | src/main/java/org/spongepowered/common/command/parameters/SpongeSequenceParameter.java:58-67 | With anchored flags, a sequence of two sequences parses like the sequence of all their elements. |
| ParsingProperties.SequenceSplits | src/main/java/org/spongepowered/common/command/parameters/SpongeSequenceParameter.java:61-66 | With anchored flags, a sequence of a + b parses a first and, unless it fails, then b. |
| ParsingProperties.SequenceTail | src/main/java/org/spongepowered/common/command/parameters/SpongeSequenceParameter.java:61-66 | With anchored flags, the elements of b after a parse as the sequence b alone. |
| ParsingProperties.SequenceStopsAtFailure | src/main/java/org/spongepowered/common/command/parameters/SpongeSequenceParameter.java:61-62 | A sequence stops at its first failing element, with that element's result. |
| ParsingProperties.PermissionEmptiesCompletions | src/main/java/org/spongepowered/common/command/parameters/SpongeParameterBuilder.java:201-205 | For modifiers whose plugin ones pass their completions on: any permission modifier among them empties the completions, whatever the source holds, and otherwise the completions pass unchanged. |
| ParsingProperties.EmptyStaysEmpty | src/main/java/org/spongepowered/common/command/parameters/SpongeParameter.java:64-66 | For modifiers whose plugin ones pass their completions on, empty completions stay empty. |
| ParsingProperties.FirstOfCompletionRestoresEntries | src/main/java/org/spongepowered/common/command/parameters/SpongeParameterSequenceBuilder.java:130-140 | Completing a first-of parameter puts the context's entries back as they were before it, and keeps the completions gathered so far in front. |
| ParsingProperties.FailedElementCompletesFromEarlierToken | src/main/java/org/spongepowered/common/command/parameters/SpongeSequenceParameter.java:88-91 | A sequence element that fails to parse is completed from one token before where it started; from the first token the restore crashes. |
| ParsingProperties.DeniedPermissionHidesUsage | src/main/java/org/spongepowered/common/command/parameters/SpongeParameterBuilder.java:207-214 | For modifiers whose plugin ones pass their usage on: a permission modifier the source lacks hides the usage, and otherwise it is unchanged. |
| ParsingProperties.ModifierUsageDrop | src/main/java/org/spongepowered/common/command/parameters/SpongeParameter.java:73-77 | The usage from modifier i depends only on the modifiers from i on. |
| ParsingProperties.HiddenStaysHidden | src/main/java/org/spongepowered/common/command/parameters/SpongeParameter.java:73-77 | For modifiers whose plugin ones pass their usage on, an empty usage stays empty. |
| ParsingProperties.SequenceUsageListsElements | src/main/java/org/spongepowered/common/command/parameters/SpongeSequenceParameter.java:100-106 | Every element with a usage appears in the sequence's usage. |
| ParsingProperties.EmptyAlternativesShowParentheses | src/main/java/org/spongepowered/common/command/parameters/SpongeParameterSequenceBuilder.java:143-160 | A first-of parameter whose alternatives have no usage shows `()`. |
| ParsingProperties.OnlyEmptyUsages | src/main/java/org/spongepowered/common/command/parameters/SpongeSequenceParameter.java:104 | Filtering only empty usages leaves nothing. |
| ParsingProperties.CompletionsRestartAfterPermission | src/main/java/org/spongepowered/common/command/parameters/SpongeParameterBuilder.java:201-205 | For any modifiers, plugin ones included: a permission modifier throws away the completions it is given, so the answer is what the modifiers after it make of no completions, unless a plugin modifier before it throws. |
| ParsingProperties.UsageRestartsAfterDeniedPermission | src/main/java/org/spongepowered/common/command/parameters/SpongeParameterBuilder.java:207-214 | For any modifiers, plugin ones included: a permission modifier the source lacks throws away the usage it is given, so the usage is what the modifiers after it make of the empty usage. |
| Parsing.ModifierCompletions | src/main/java/org/spongepowered/common/command/parameters/SpongeParameter.java:60-68 | Each modifier's `complete` in order: a permission modifier answers no completions, a default passes them on, and a plugin's modifier gives its own answer or throws; CompletionsRestartAfterPermission and PermissionEmptiesCompletions state its results, and ParsingEngine.CompleteParameter's loop is tied to it. |
| Parsing.ModifierStepUsage | src/main/java/org/spongepowered/common/command/parameters/SpongeParameterBuilder.java:207-214 | One modifier's `getUsage`: a permission modifier keeps the usage for a source with its permission and hides it otherwise, a default keeps it, and a plugin's modifier gives its own. |
| Parsing.ModifierUsage | src/main/java/org/spongepowered/common/command/parameters/SpongeParameter.java:72-78 | Each modifier's `getUsage` in order; UsageRestartsAfterDeniedPermission and DeniedPermissionHidesUsage state its results, and ParsingEngine.GetUsage's loop is tied to it. |
| Parsing.ValueUsage | src/main/java/org/spongepowered/common/command/parameters/SpongeParameter.java:73 | `getUsage(key, source)` of each value parameter: its own usage text, the plugin's, or the key. |
| Parsing.Usage | src/main/java/org/spongepowered/common/command/parameters/SpongeParameter.java:72-78 | `getUsage` of any parameter: the value parameter's usage through the modifiers, the non-empty child usages joined by spaces for a sequence, or in parentheses separated by `\|` for a first-of (SequenceUsageListsElements, EmptyAlternativesShowParentheses). |
| ParsingEngine.PluginGetValue | src/main/java/org/spongepowered/common/command/parameters/SpongeParameterBuilder.java:168-171 | The cursor and result are those of the plugin parser's model. |
| ParsingEngine.GetValue | src/main/java/org/spongepowered/common/command/parameters/SpongeParameterBuilder.java:168-171 | The cursor and result of `getValue` are those of `ValueOf`, for every kind of value parameter. |
| ParsingEngine.SpongeParsingContext.constructor | src/main/java/org/spongepowered/common/command/parameters/SpongeParsingContext.java:48-56 | A parsing context starts at the first modifier and keeps the key, cursor, context, modifiers and value parameter it is given. |
| ParsingEngine.SpongeParsingContext.Next | src/main/java/org/spongepowered/common/command/parameters/SpongeParsingContext.java:58-69 | `next()` leaves the cursor, entries and outcome of the chain from the iterator's position, and the iterator back where it was. |
| ParsingEngine.SpongeParsingContext.OnParse | src/main/java/org/spongepowered/common/command/parameters/SpongeParsingContext.java:61-63 | A modifier's `onParse` has the effect of the chain from that modifier, and the iterator is stepped back after it. |
| ParsingEngine.ParseParameter | src/main/java/org/spongepowered/common/command/parameters/SpongeParameter.java:56-59 | `parse` of any parameter has the effect of `Parse` on the cursor and the entries. |
| ParsingEngine.SequenceParse | src/main/java/org/spongepowered/common/command/parameters/SpongeSequenceParameter.java:58-67 | The sequence's loop has the effect of `SequenceFrom` from its first element. |
| ParsingEngine.FirstOfParse | src/main/java/org/spongepowered/common/command/parameters/SpongeParameterSequenceBuilder.java:110-126 | The first-of loop has the effect of `FirstOfFrom` from its first alternative. |
| ParsingEngine.FlagsParseMethod | src/main/java/org/spongepowered/common/command/parameters/flags/SpongeFlags.java:60-97 | `SpongeFlags.parse` has the effect of `FlagsParse`. |
| ParsingEngine.UnknownParse | src/main/java/org/spongepowered/common/command/parameters/flags/SpongeFlags.java:81-82 | An unknown-flag behaviour has the effect of `Unknown`. |
| ParsingEngine.ValueComplete | src/main/java/org/spongepowered/common/command/parameters/SpongeParameter.java:62-63 | `complete` of a value parameter has the effect of `ValueCompletions`. |
| ParsingEngine.CompleteParameter | src/main/java/org/spongepowered/common/command/parameters/SpongeParameter.java:61-69 | `complete` of any parameter has the effect of `Complete`. |
| ParsingEngine.CompleteElementAfterFailure | src/main/java/org/spongepowered/common/command/parameters/SpongeSequenceParameter.java:88-91 | The `catch` of the sequence's completion has the effect of `CompleteAfterFailure`. |
| ParsingEngine.SequenceComplete | src/main/java/org/spongepowered/common/command/parameters/SpongeSequenceParameter.java:69-98 | The sequence's completion loop has the effect of `SequenceCompleteFrom` from its first element. |
| ParsingEngine.FirstOfComplete | src/main/java/org/spongepowered/common/command/parameters/SpongeParameterSequenceBuilder.java:128-141 | The first-of completion loop has the effect of `FirstOfCompleteFrom`, starting with no completions. |
| ParsingEngine.GetUsage | src/main/java/org/spongepowered/common/command/parameters/SpongeParameter.java:71-78 | `getUsage` of any parameter is `Usage`. |
| ParsingEngine.SequenceUsage | src/main/java/org/spongepowered/common/command/parameters/SpongeSequenceParameter.java:100-106 | The sequence's usage is the usages that are not empty, joined with spaces. |
| ParsingEngine.FirstOfUsage | src/main/java/org/spongepowered/common/command/parameters/SpongeParameterSequenceBuilder.java:143-160 | The text builder yields `(`, the usages that are not empty separated by `\|`, then `)`. |
| ParsingEngine.BuilderStep | src/main/java/org/spongepowered/common/command/parameters/SpongeParameterSequenceBuilder.java:150-156 | Appending a usage, with a `\|` unless it is the first, extends the joined text by that usage. |
| ParameterBuilder.ModifiersToUse | src/main/java/org/spongepowered/common/command/parameters/SpongeParameterBuilder.java:109-112 | Without a permission the modifiers are the ones added; with one, its permission modifier comes first and the added ones follow unchanged. |
| ParameterBuilder.Built | src/main/java/org/spongepowered/common/command/parameters/SpongeParameterBuilder.java:104-133 | `build` succeeds exactly when a key and a parser were set, and then gives a parameter with that key and the modifiers to use; otherwise an IllegalStateException. |
| ParameterBuilder.NewDefaultValueModifier | src/main/java/org/spongepowered/common/command/parameters/modifiers/DefaultValueModifier.java:40-43 | A default-value modifier is made exactly for a non-null default, which it keeps; a null default is refused. |
| ParameterBuilder.SpongeParameterBuilder.constructor | src/main/java/org/spongepowered/common/command/parameters/SpongeParameterBuilder.java:46-52 | A new builder has every field unset and no modifiers. |
| ParameterBuilder.SpongeParameterBuilder.SetKey | src/main/java/org/spongepowered/common/command/parameters/SpongeParameterBuilder.java:54-59 | `key` sets the key and nothing else. |
| ParameterBuilder.SpongeParameterBuilder.SetParser | src/main/java/org/spongepowered/common/command/parameters/SpongeParameterBuilder.java:61-72 | A value parameter clears the plain parser and the other way round. |
| ParameterBuilder.SpongeParameterBuilder.OnComplete | src/main/java/org/spongepowered/common/command/parameters/SpongeParameterBuilder.java:74-78 | `onComplete` sets the completer and nothing else. |
| ParameterBuilder.SpongeParameterBuilder.SetUsage | src/main/java/org/spongepowered/common/command/parameters/SpongeParameterBuilder.java:80-84 | `usage` sets the usage function and nothing else. |
| ParameterBuilder.SpongeParameterBuilder.AddModifiers | src/main/java/org/spongepowered/common/command/parameters/SpongeParameterBuilder.java:86-90 | The modifiers are appended in order. |
| ParameterBuilder.SpongeParameterBuilder.AddModifierToBeginning | src/main/java/org/spongepowered/common/command/parameters/SpongeParameterBuilder.java:92-96 | The modifier is put in front of the others. |
| ParameterBuilder.SpongeParameterBuilder.SetPermission | src/main/java/org/spongepowered/common/command/parameters/SpongeParameterBuilder.java:98-102 | `permission` sets the permission and nothing else. |
| ParameterBuilder.SpongeParameterBuilder.Build | src/main/java/org/spongepowered/common/command/parameters/SpongeParameterBuilder.java:104-133 | `build` returns the built parameter of the current fields and leaves the builder unchanged. |
| ParameterBuilder.SpongeParameterBuilder.Reset | src/main/java/org/spongepowered/common/command/parameters/SpongeParameterBuilder.java:141-151 | `reset` returns every field to its initial state. |
| ParameterBuilder.WrappedValueParameterKeepsItsMeaning | src/main/java/org/spongepowered/common/command/parameters/SpongeParameterBuilder.java:122-125 | A wrapped value parameter parses as itself; it completes and describes itself with the given completer and usage, or else as itself. |
| ParameterBuilder.PlainParserDefaults | src/main/java/org/spongepowered/common/command/parameters/SpongeParameterBuilder.java:126-130 | A plain parser parses what the plugin parses; without a completer it completes to nothing and without a usage it shows the key. |
| ParameterBuilder.MissingPermissionSilencesParameter | src/main/java/org/spongepowered/common/command/parameters/SpongeParameterBuilder.java:185-215 | With a permission the source lacks, the built parameter reads nothing, stores nothing and succeeds. Its usage is what the later modifiers make of the empty usage, and its completions are what they make of no completions. When those modifiers pass their input on, it shows no usage and completes to nothing. |
| ParameterBuilder.HeldPermissionIsTransparent | src/main/java/org/spongepowered/common/command/parameters/SpongeParameterBuilder.java:193-214 | With a permission the source holds, parsing and usage are those of the same parameter built without a permission. |
| SequenceBuilder.ParameterList.constructor | src/main/java/org/spongepowered/common/command/parameters/SpongeParameterSequenceBuilder.java:47 | The builder's list starts empty. |
| SequenceBuilder.Current | src/main/java/org/spongepowered/common/command/parameters/SpongeParameterSequenceBuilder.java:97-103 | A built combinator stands for the sequence or first-of over the current contents of the list it shares. |
| SequenceBuilder.BuiltFrom | src/main/java/org/spongepowered/common/command/parameters/SpongeParameterSequenceBuilder.java:71-83 | `build` refuses an empty list with an IllegalStateException, returns a lone parameter itself, and otherwise a sequence when all are required or a first-of. |
| SequenceBuilder.SpongeParameterSequenceBuilder.constructor | src/main/java/org/spongepowered/common/command/parameters/SpongeParameterSequenceBuilder.java:47-49 | A new builder has an empty list of its own and requires all parameters. |
| SequenceBuilder.SpongeParameterSequenceBuilder.RequireAll | src/main/java/org/spongepowered/common/command/parameters/SpongeParameterSequenceBuilder.java:51-55 | `requireAll` sets the flag. |
| SequenceBuilder.SpongeParameterSequenceBuilder.Add | src/main/java/org/spongepowered/common/command/parameters/SpongeParameterSequenceBuilder.java:65-69 | The parameters are appended in order. |
| SequenceBuilder.SpongeParameterSequenceBuilder.AddEach | src/main/java/org/spongepowered/common/command/parameters/SpongeParameterSequenceBuilder.java:57-63 | The parameters are appended one at a time, in order. |
| SequenceBuilder.SpongeParameterSequenceBuilder.Build | src/main/java/org/spongepowered/common/command/parameters/SpongeParameterSequenceBuilder.java:71-83 | `build` has the outcome of `BuiltFrom`, and a combinator holds the builder's own list rather than a copy. |
| SequenceBuilder.SpongeParameterSequenceBuilder.Reset | src/main/java/org/spongepowered/common/command/parameters/SpongeParameterSequenceBuilder.java:91-95 | `reset` empties the list. |
| SequenceBuilder.ResetEmptiesBuiltCombinator | src/main/java/org/spongepowered/common/command/parameters/SpongeParameterSequenceBuilder.java:91-103 | Resetting a builder empties every combinator already built from it, since they share its list. |
| SequenceBuilder.OneElementSequenceIsItsElement | src/main/java/org/spongepowered/common/command/parameters/SpongeSequenceParameter.java:58-67 | With anchored flags, a sequence of one parameter parses as that parameter. |
| SequenceBuilder.OneAlternativeFirstOfDiffers | src/main/java/org/spongepowered/common/command/parameters/SpongeParameterSequenceBuilder.java:110-126 | A first-of of one parameter parses as it, except that a catchable failure puts the entries back and becomes a crash. |
| FlagsBuilder.RemoveDashes | src/main/java/org/spongepowered/common/command/parameters/flags/SpongeFlagsBuilder.java:135 | `replaceAll("-", "")` keeps every character but `-`. |
| FlagsBuilder.ShortChars | src/main/java/org/spongepowered/common/command/parameters/flags/SpongeFlagsBuilder.java:135 | A short spec's characters are those of the lower-cased spec other than `-`. |
| FlagsBuilder.Primary | src/main/java/org/spongepowered/common/command/parameters/flags/SpongeFlagsBuilder.java:121-146 | There is a primary alias exactly when some alias was produced. |
| FlagsBuilder.DropNullKey | src/main/java/org/spongepowered/common/command/parameters/flags/SpongeFlagsBuilder.java:88-98 | Copying into an immutable map keeps exactly the non-null keys with their values. |
| FlagsBuilder.SpongeFlagsBuilder.constructor | src/main/java/org/spongepowered/common/command/parameters/flags/SpongeFlagsBuilder.java:40-45 | A new builder has no aliases or flags, the refusing behaviours and unanchored flags. |
| FlagsBuilder.SpongeFlagsBuilder.StoreAliases | src/main/java/org/spongepowered/common/command/parameters/flags/SpongeFlagsBuilder.java:117-147 | An empty list of specs is refused and nothing changes; otherwise every alias is mapped to the primary alias, which is returned. |
| FlagsBuilder.SpongeFlagsBuilder.StoreShortAliases | src/main/java/org/spongepowered/common/command/parameters/flags/SpongeFlagsBuilder.java:135-141 | The inner loop stores one lower-case alias per character of a short spec and keeps the first one as primary. |
| FlagsBuilder.SpongeFlagsBuilder.Flag | src/main/java/org/spongepowered/common/command/parameters/flags/SpongeFlagsBuilder.java:47-52 | `flag` refuses no specs; otherwise it only stores the aliases. |
| FlagsBuilder.SpongeFlagsBuilder.PermissionFlag | src/main/java/org/spongepowered/common/command/parameters/flags/SpongeFlagsBuilder.java:54-59 | `permissionFlag` stores the aliases and maps the primary alias to the permission. |
| FlagsBuilder.SpongeFlagsBuilder.ValueFlag | src/main/java/org/spongepowered/common/command/parameters/flags/SpongeFlagsBuilder.java:61-66 | `valueFlag` stores the aliases and maps the primary alias to the parameter. |
| FlagsBuilder.SpongeFlagsBuilder.SetUnknownLongFlagBehavior | src/main/java/org/spongepowered/common/command/parameters/flags/SpongeFlagsBuilder.java:68-73 | As written, the long-flag setter sets the short-flag behaviour and nothing else. |
| FlagsBuilder.SpongeFlagsBuilder.SetUnknownShortFlagBehavior | src/main/java/org/spongepowered/common/command/parameters/flags/SpongeFlagsBuilder.java:75-80 | As written, the short-flag setter sets the long-flag behaviour and nothing else. |
| FlagsBuilder.SpongeFlagsBuilder.SetAnchorFlags | src/main/java/org/spongepowered/common/command/parameters/flags/SpongeFlagsBuilder.java:82-86 | `setAnchorFlags` sets anchoring and nothing else. |
| FlagsBuilder.SpongeFlagsBuilder.Build | src/main/java/org/spongepowered/common/command/parameters/flags/SpongeFlagsBuilder.java:88-98 | `build` fails exactly when a value or permission flag has a null primary alias; otherwise it snapshots the maps and settings. |
| FlagsBuilder.SpongeFlagsBuilder.Reset | src/main/java/org/spongepowered/common/command/parameters/flags/SpongeFlagsBuilder.java:106-115 | `reset` returns the builder to its initial state. |
| FlagsBuilder.AliasStep | src/main/java/org/spongepowered/common/command/parameters/flags/SpongeFlagsBuilder.java:128-140 | One more alias keeps the primary as the first alias and maps the new alias to it. |
| FlagsBuilder.ShortAliasStep | src/main/java/org/spongepowered/common/command/parameters/flags/SpongeFlagsBuilder.java:135-141 | The aliases of a short spec grow by one lower-cased character at a time. |
| FlagsBuilder.ShortSpecAliases | src/main/java/org/spongepowered/common/command/parameters/flags/SpongeFlagsBuilder.java:135-141 | A short spec gives one alias per remaining character, each that character lower-cased. |
| FlagsBuilder.LongSpecKeepsCase | src/main/java/org/spongepowered/common/command/parameters/flags/SpongeFlagsBuilder.java:126-132 | A long spec gives its text after the first `-` as written, and its primary is that text lower-cased. |
| FlagsBuilder.ShortAliasesAreLowerCaseCharacters | src/main/java/org/spongepowered/common/command/parameters/flags/SpongeFlagsBuilder.java:134-141 | The aliases of a short spec are single lower-case characters other than `-`. |
| FlagsBuilder.AliasesAppend | src/main/java/org/spongepowered/common/command/parameters/flags/SpongeFlagsBuilder.java:125-143 | The aliases of later specs follow those of earlier ones, so the primary comes from the first spec that produced one. |
| FlagsBuilder.StoredLeadsToPrimary | src/main/java/org/spongepowered/common/command/parameters/flags/SpongeFlagsBuilder.java:125-143 | Every alias produced maps to the primary alias; every other key keeps its previous entry. |
| FlagsBuilder.IsLongSpec | src/main/java/org/spongepowered/common/command/parameters/flags/SpongeFlagsBuilder.java:126 | A spec longer than two characters that starts with `-` is a long flag. |
| FlagsBuilder.SpecAliases | src/main/java/org/spongepowered/common/command/parameters/flags/SpongeFlagsBuilder.java:126-141 | The aliases one spec gives, in order: a long spec its text after the dash, a short one each of its lower-cased characters other than `-`. |
| FlagsBuilder.Aliases | src/main/java/org/spongepowered/common/command/parameters/flags/SpongeFlagsBuilder.java:125-143 | The aliases of all specs, spec after spec. |
| FlagsBuilder.Stored | src/main/java/org/spongepowered/common/command/parameters/flags/SpongeFlagsBuilder.java:132-140 | The alias map after `put(alias, first)` for each alias in turn, `first` being the first alias lower-cased. |
| ParameterBuilder.ValueParameterToUse | src/main/java/org/spongepowered/common/command/parameters/SpongeParameterBuilder.java:114-132 | The value parameter `build` assembles: the builder's own when neither usage nor completer is set, otherwise one whose parser, completer and usage each come from the builder's value parameter or its overrides, with no completions and the key as usage for a bare parser. |
| CommandSpecification.CheckPermission | src/main/java/org/spongepowered/common/command/specification/SpongeCommandSpecification.java:129-133 | `checkPermission` throws a CommandPermissionException exactly when `testPermission` fails: a permission is set and the source lacks it. |
| CommandSpecification.GetShortDescription | src/main/java/org/spongepowered/common/command/specification/SpongeCommandSpecification.java:114-117 | The short description the specification was built with, or none. |
| CommandSpecification.ProcessSucceedsWhenPermitted | src/main/java/org/spongepowered/common/command/specification/SpongeCommandSpecification.java:81-101 | `process` succeeds exactly when the source is permitted and the arguments split, and then answers null. |
| CommandSpecification.PermissionOrder | src/main/java/org/spongepowered/common/command/specification/SpongeCommandSpecification.java:83-98 | When children need the permission, a source without it is refused before the arguments are split; otherwise the tokenizer's failure, if any, comes first. |
| CommandSpecification.ProcessFailures | src/main/java/org/spongepowered/common/command/specification/SpongeCommandSpecification.java:88 | With the lenient tokenizer the only failures are the permission and buffer overrun, and the overrun happens only when the arguments' last character is a backslash. |
| ResultBuilder.SpongeResultBuilder.constructor | src/main/java/org/spongepowered/common/command/result/SpongeResultBuilder.java:33-37 | A new builder holds no counts. |
| ResultBuilder.SpongeResultBuilder.From | src/main/java/org/spongepowered/common/command/result/SpongeResultBuilder.java:39-50 | `from` leaves exactly the counts of the given result: absent ones are cleared by the reset. |
| ResultBuilder.SpongeResultBuilder.Reset | src/main/java/org/spongepowered/common/command/result/SpongeResultBuilder.java:52-61 | `reset` clears all five counts. |
| ResultBuilder.SpongeResultBuilder.SuccessCount | src/main/java/org/spongepowered/common/command/result/SpongeResultBuilder.java:69-72 | Sets the success count and nothing else. |
| ResultBuilder.SpongeResultBuilder.AffectedBlocks | src/main/java/org/spongepowered/common/command/result/SpongeResultBuilder.java:80-83 | Sets the affected-blocks count and nothing else. |
| ResultBuilder.SpongeResultBuilder.AffectedEntities | src/main/java/org/spongepowered/common/command/result/SpongeResultBuilder.java:92-95 | Sets the affected-entities count and nothing else. |
| ResultBuilder.SpongeResultBuilder.AffectedItems | src/main/java/org/spongepowered/common/command/result/SpongeResultBuilder.java:103-106 | Sets the affected-items count and nothing else. |
| ResultBuilder.SpongeResultBuilder.QueryResult | src/main/java/org/spongepowered/common/command/result/SpongeResultBuilder.java:115-118 | Sets the query result and nothing else. |
| ResultBuilder.SpongeResultBuilder.Build | src/main/java/org/spongepowered/common/command/result/SpongeResultBuilder.java:125-127 | `build` passes the five counts through unchanged. |
| ResultBuilder.FromThenBuild | src/main/java/org/spongepowered/common/command/result/SpongeResultBuilder.java:39-50 | `from` then `build` gives back the result that was copied, whatever the builder held. |
| SpecificationBuilder.KeyedEntry | src/main/java/org/spongepowered/common/command/specification/SpongeCommandSpecificationBuilder.java:74 | Each key of one entry, lower-cased, paired with that entry's child. |
| SpecificationBuilder.Stage | src/main/java/org/spongepowered/common/command/specification/SpongeCommandSpecificationBuilder.java:72-75 | The staging refuses a repeated key with an IllegalArgumentException. |
| SpecificationBuilder.Built | src/main/java/org/spongepowered/common/command/specification/SpongeCommandSpecificationBuilder.java:143-159 | `build` fails with an IllegalStateException exactly when there is neither a child nor an executor. |
| SpecificationBuilder.SpongeCommandSpecificationBuilder.constructor | src/main/java/org/spongepowered/common/command/specification/SpongeCommandSpecificationBuilder.java:49-58 | A new builder holds the declared defaults: no parameters or children, RETHROW, the lenient quoted-string tokenizer, and children needing the permission. |
| SpecificationBuilder.SpongeCommandSpecificationBuilder.AddChildren | src/main/java/org/spongepowered/common/command/specification/SpongeCommandSpecificationBuilder.java:70-82 | `addChildren` registers exactly the staged children when no key repeats in the call and none is registered; otherwise it throws and registers nothing. |
| SpecificationBuilder.SpongeCommandSpecificationBuilder.AddChild | src/main/java/org/spongepowered/common/command/specification/SpongeCommandSpecificationBuilder.java:65-68 | `addChild` is `addChildren` with one entry. |
| SpecificationBuilder.SpongeCommandSpecificationBuilder.RequirePermissionForChildren | src/main/java/org/spongepowered/common/command/specification/SpongeCommandSpecificationBuilder.java:84-88 | Sets the flag and nothing else. |
| SpecificationBuilder.SpongeCommandSpecificationBuilder.ChildExceptionBehavior | src/main/java/org/spongepowered/common/command/specification/SpongeCommandSpecificationBuilder.java:90-94 | Sets the child-exception behaviour and nothing else. |
| SpecificationBuilder.SpongeCommandSpecificationBuilder.SimpleDescription | src/main/java/org/spongepowered/common/command/specification/SpongeCommandSpecificationBuilder.java:96-100 | Sets the short description and nothing else. |
| SpecificationBuilder.SpongeCommandSpecificationBuilder.Executor | src/main/java/org/spongepowered/common/command/specification/SpongeCommandSpecificationBuilder.java:102-106 | Sets the executor and nothing else. |
| SpecificationBuilder.SpongeCommandSpecificationBuilder.ExtendedDescription | src/main/java/org/spongepowered/common/command/specification/SpongeCommandSpecificationBuilder.java:108-112 | Sets the extended description and nothing else. |
| SpecificationBuilder.SpongeCommandSpecificationBuilder.SetFlags | src/main/java/org/spongepowered/common/command/specification/SpongeCommandSpecificationBuilder.java:114-118 | Sets the flags and nothing else. |
| SpecificationBuilder.SpongeCommandSpecificationBuilder.Parameters | src/main/java/org/spongepowered/common/command/specification/SpongeCommandSpecificationBuilder.java:120-129 | Keeps a copy of the given parameters and changes nothing else. |
| SpecificationBuilder.SpongeCommandSpecificationBuilder.Permission | src/main/java/org/spongepowered/common/command/specification/SpongeCommandSpecificationBuilder.java:131-135 | Sets the permission and nothing else. |
| SpecificationBuilder.SpongeCommandSpecificationBuilder.InputTokenizer | src/main/java/org/spongepowered/common/command/specification/SpongeCommandSpecificationBuilder.java:137-141 | Sets the tokenizer and nothing else. |
| SpecificationBuilder.SpongeCommandSpecificationBuilder.Build | src/main/java/org/spongepowered/common/command/specification/SpongeCommandSpecificationBuilder.java:143-159 | `build` has the outcome of `Built` on the current fields. |
| SpecificationBuilder.SpongeCommandSpecificationBuilder.Reset | src/main/java/org/spongepowered/common/command/specification/SpongeCommandSpecificationBuilder.java:167-181 | `reset` restores the declared defaults. |
| SpecificationBuilder.StageKeys | src/main/java/org/spongepowered/common/command/specification/SpongeCommandSpecificationBuilder.java:74-75 | The inner loop stages one child's lower-cased keys and fails exactly when the staging of those pairs fails. |
| SpecificationBuilder.StageStep | src/main/java/org/spongepowered/common/command/specification/SpongeCommandSpecificationBuilder.java:74 | Staging one more key fails when it is staged already and otherwise adds it. |
| SpecificationBuilder.RestOfEntryFails | src/main/java/org/spongepowered/common/command/specification/SpongeCommandSpecificationBuilder.java:73-75 | A failure partway through an entry's keys fails the whole entry. |
| SpecificationBuilder.StageFailsOnExtension | src/main/java/org/spongepowered/common/command/specification/SpongeCommandSpecificationBuilder.java:73-75 | Once staging fails, more pairs do not change the failure. |
| SpecificationBuilder.PrefixFailureStays | src/main/java/org/spongepowered/common/command/specification/SpongeCommandSpecificationBuilder.java:73-75 | A repeated key among the first entries is the failure of all of them. |
| SpecificationBuilder.StageContents | src/main/java/org/spongepowered/common/command/specification/SpongeCommandSpecificationBuilder.java:72-75 | A successful staging maps each key to its child and holds no other key. |
| SpecificationBuilder.StageSucceedsIff | src/main/java/org/spongepowered/common/command/specification/SpongeCommandSpecificationBuilder.java:72-75 | The staging succeeds exactly when no lower-cased key repeats. |
| SpecificationBuilder.KeyedCoversEntries | src/main/java/org/spongepowered/common/command/specification/SpongeCommandSpecificationBuilder.java:73-74 | Every key of every entry, lower-cased, is staged with that entry's child. |
| SpecificationBuilder.AddedChildrenSucceedsIff | src/main/java/org/spongepowered/common/command/specification/SpongeCommandSpecificationBuilder.java:70-82 | `addChildren` succeeds exactly when no lower-cased key repeats in the call and none is registered already. |
| SpecificationBuilder.AddedChildrenContents | src/main/java/org/spongepowered/common/command/specification/SpongeCommandSpecificationBuilder.java:77-80 | After a successful `addChildren`, the registered children keep their keys and every staged key maps to its child, and nothing else is added. |
| CommandSpecification.TestPermission | src/main/java/org/spongepowered/common/command/specification/SpongeCommandSpecification.java:110-112 | `testPermission`: no permission is set, or the source holds it; CheckPermission throws exactly when it fails. |
| CommandSpecification.Process | src/main/java/org/spongepowered/common/command/specification/SpongeCommandSpecification.java:81-101 | `process`: the permission check before splitting when children need the permission and after it otherwise, the arguments split leniently, and null on success; ProcessSucceedsWhenPermitted, PermissionOrder and ProcessFailures state its outcomes. |
| Common.HasPermission | src/main/java/org/spongepowered/common/command/specification/SpongeCommandSpecification.java:111 | `source.hasPermission(permission)`: the permission is among the source's. |
| SpecificationBuilder.Keyed | src/main/java/org/spongepowered/common/command/specification/SpongeCommandSpecificationBuilder.java:73-74 | The (lower-cased key, child) pairs of `addChildren`'s argument, entry after entry and key after key. |
| SpecificationBuilder.AddedChildren | src/main/java/org/spongepowered/common/command/specification/SpongeCommandSpecificationBuilder.java:71-81 | `addChildren`: the children with the staged keys added, or an IllegalArgumentException for a key given twice or already registered (AddedChildrenSucceedsIff, AddedChildrenContents). |
| ValueParameterFactory.Choices | src/main/java/org/spongepowered/common/command/parameters/factories/SpongeValueParameterFactory.java:51-53 | `choices` keeps the map; shown choices have undecided listing, hidden ones are never listed. |
| ValueParameterFactory.ChoicesWithFunction | src/main/java/org/spongepowered/common/command/parameters/factories/SpongeValueParameterFactory.java:55-57 | The value-function form of `choices` answers null. |
| ValueParameterFactory.LoweredNames | src/main/java/org/spongepowered/common/command/parameters/factories/SpongeValueParameterFactory.java:62-63 | `toMap` over the lower-cased names fails with an IllegalStateException exactly when two names lower-case alike; otherwise each lower-cased name carries its own constant. |
| ValueParameterFactory.EnumValue | src/main/java/org/spongepowered/common/command/parameters/factories/SpongeValueParameterFactory.java:59-65 | `enumValue` fails exactly on two names that lower-case alike; otherwise a choices parameter, always listed, with each constant under its lower-cased name. |
| ValueParameterFactory.Literal | src/main/java/org/spongepowered/common/command/parameters/factories/SpongeValueParameterFactory.java:67-70 | `literal` keeps the returned value and the literals. |
| ValueParameterFactory.ChoicesUsageFollowsShowUsage | src/main/java/org/spongepowered/common/command/parameters/factories/SpongeValueParameterFactory.java:51-53 | Hidden choices show only the key; shown ones are listed while there are fewer than five. |
| ValueParameterFactory.EnumUsageListsAll | src/main/java/org/spongepowered/common/command/parameters/factories/SpongeValueParameterFactory.java:64 | An enum's usage lists every lower-cased name, however many there are. |
| ValueParameterFactory.EnumConstantInAnyCase | src/main/java/org/spongepowered/common/command/parameters/factories/SpongeValueParameterFactory.java:59-65 | A token naming a constant in any case selects that constant. |
| CatalogRegistries.Image | src/main/java/org/spongepowered/common/registry/type/command/CatalogedValueParametersRegistryModule.java:74-77 | The catalogs stored under the given names, and no others. |
| CatalogRegistries.CatalogRegistry.constructor | src/main/java/org/spongepowered/common/registry/type/command/CatalogedValueParametersRegistryModule.java:58-59 | A new registry has empty name and id maps. |
| CatalogRegistries.CatalogRegistry.RegisterAdditionalCatalog | src/main/java/org/spongepowered/common/registry/type/command/CatalogedValueParametersRegistryModule.java:61-67 | Refused, with nothing changed, when the lower-cased id is already a key; otherwise stored under the id as written. |
| CatalogRegistries.CatalogRegistry.GetById | src/main/java/org/spongepowered/common/registry/type/command/CatalogedValueParametersRegistryModule.java:69-72 | The lookup lower-cases the query: found exactly when the lower-cased query is a key, and then that catalog. |
| CatalogRegistries.CatalogRegistry.GetAll | src/main/java/org/spongepowered/common/registry/type/command/CatalogedValueParametersRegistryModule.java:74-77 | Exactly the stored catalogs. |
| CatalogRegistries.CatalogRegistry.RegisterDefaults | src/main/java/org/spongepowered/common/registry/type/command/CatalogedValueParametersRegistryModule.java:79-146 | The defaults are put under their names, and then every catalog of the name map is indexed under its lower-cased id while other ids keep their catalogs. |
| CatalogRegistries.IndexOne | src/main/java/org/spongepowered/common/registry/type/command/CatalogedValueParametersRegistryModule.java:145 | Indexing one more catalog keeps the indexing of those done before. |
| CatalogRegistries.ValueParameterDefaults | src/main/java/org/spongepowered/common/registry/type/command/CatalogedValueParametersRegistryModule.java:79-144 | The value-parameter registry has twenty defaults, the first being the always-listed boolean choices under `sponge:boolean`. |
| CatalogRegistries.IndexedFoundInAnyCase | src/main/java/org/spongepowered/common/registry/type/command/CatalogedValueParametersRegistryModule.java:69-72 | After indexing, a query equal to an indexed id ignoring case finds a catalog with that id ignoring case, and that very catalog when no two share a lower-cased id. |
| CatalogRegistries.MixedCaseExtraIsNotFound | src/main/java/org/spongepowered/common/registry/type/command/CatalogedValueParametersRegistryModule.java:61-72 | An extra catalog whose id is not lower-case is stored where no lookup reaches it. |
| CatalogRegistries.LowerCaseExtraIsFound | src/main/java/org/spongepowered/common/registry/type/command/CatalogedValueParametersRegistryModule.java:61-72 | An extra catalog with a lower-case id is found by any casing of it. |
| CatalogRegistries.PutKeys | src/main/java/org/spongepowered/common/registry/type/command/CatalogedValueParametersRegistryModule.java:79-143 | Putting pairs adds exactly their names as keys. |
| CatalogRegistries.ModifierDefaultNames | src/main/java/org/spongepowered/common/registry/type/command/CatalogedValueParameterModifiersRegistryModule.java:69-77 | The modifier registry's defaults are exactly all_of, only_one, optional and optional_weak. |
| CatalogRegistries.LowerCaseIsFixed | src/main/java/org/spongepowered/common/registry/type/command/CatalogedValueParameterModifiersRegistryModule.java:76 | A name without upper-case letters is its own lower-casing. |
| CatalogRegistries.BooleanTokenInAnyCase | src/main/java/org/spongepowered/common/registry/type/command/CatalogedValueParametersRegistryModule.java:81-95 | A boolean choice typed in any case parses to its truth value: true for the first five, false for the rest. |
| CommandPermissions.TestPermission | src/main/java/org/spongepowered/common/command/CommandPermissions.java:50-66 | The selector name needs the selector permission and the command-block name the command-block permission. |
| CommandPermissions.SubjectData.constructor | src/main/java/org/spongepowered/common/command/CommandPermissions.java:68 | A subject starts with no global permissions. |
| CommandPermissions.SubjectData.SetPermission | src/main/java/org/spongepowered/common/command/CommandPermissions.java:70 | Setting a global permission maps it to the value. |
| CommandPermissions.PopulateNonCommandPermissions | src/main/java/org/spongepowered/common/command/CommandPermissions.java:68-75 | Passing the command-block level test grants the selector permission, and passing the selector test grants the permission named "" (crossed over as written); no other permission changes. |
| CommandPermissions.SpecialNamesIgnoreRegistry | src/main/java/org/spongepowered/common/command/CommandPermissions.java:51-56 | The selector and command-block names are decided by their own permission whatever is registered. |
| CommandPermissions.OrdinaryNameRouting | src/main/java/org/spongepowered/common/command/CommandPermissions.java:57-65 | Another name is decided by a wrapped command's permission, by the callable itself, or, when nothing is registered, by the permission of the name. |
| CatalogRegistries.LowerId | src/main/java/org/spongepowered/common/registry/type/command/CatalogedValueParametersRegistryModule.java:145 | A catalog's id lower-cased, the key `registerDefaults` indexes it under. |
| CatalogRegistries.Put | src/main/java/org/spongepowered/common/registry/type/command/CatalogedValueParametersRegistryModule.java:80-144 | The name map after each default `put` in turn: every name put maps to its last catalog, and other names keep theirs. |
| CatalogRegistries.ModifierDefaults | src/main/java/org/spongepowered/common/registry/type/command/CatalogedValueParameterModifiersRegistryModule.java:70-74 | The four default modifiers, `all_of`, `only_one`, `optional` and `optional_weak`, in the order they are put. |
| ValueParameterFactory.EnumConstant | src/main/java/org/spongepowered/common/command/parameters/factories/SpongeValueParameterFactory.java:60-64 | An enum constant, known by its ordinal. |
| PhaseContext.SetSource | src/main/java/org/spongepowered/common/event/tracking/PhaseContext.java:120-124 | `source` is refused exactly once the context is completed. |
| PhaseContext.SetOwner | src/main/java/org/spongepowered/common/event/tracking/PhaseContext.java:126-133 | `owner` fails exactly when the context is completed, an owner is set already (IllegalStateException) or the owner is null (NullPointerException); otherwise it sets the owner and nothing else. |
| PhaseContext.SetNotifier | src/main/java/org/spongepowered/common/event/tracking/PhaseContext.java:135-142 | `notifier` fails exactly when the context is completed, a notifier is set already (IllegalStateException) or the notifier is null (NullPointerException); otherwise it sets the notifier and nothing else. |
| PhaseContext.Install | src/main/java/org/spongepowered/common/event/tracking/PhaseContext.java:144-150 | A group of suppliers is installed exactly when the context is open and none of the checked suppliers is set; otherwise an IllegalStateException. |
| PhaseContext.GetSupplier | src/main/java/org/spongepowered/common/event/tracking/PhaseContext.java:262-348 | A checked supplier getter answers exactly when the supplier is installed; otherwise the exception of `throwWithContext`. |
| PhaseContext.GetCapturedUnchecked | src/main/java/org/spongepowered/common/event/tracking/PhaseContext.java:258-285 | `getCapturedEntities` and `getCapturedBlocks` read their supplier unchecked: a missing one is a NullPointerException. |
| PhaseContext.GetSource | src/main/java/org/spongepowered/common/event/tracking/PhaseContext.java:240-248 | `getSource(c)` answers exactly when the source is an instance of c, and then the source. |
| PhaseContext.GetExtra | src/main/java/org/spongepowered/common/event/tracking/PhaseContext.java:98-104 | `getExtra(key, c)` answers exactly when the extra under key is an instance of c, and then that extra. |
| PhaseContext.GetRequiredExtra | src/main/java/org/spongepowered/common/event/tracking/PhaseContext.java:107-114 | `getRequiredExtra` answers exactly when `getExtra` does, and otherwise throws. |
| PhaseContext.PhaseContext.constructor | src/main/java/org/spongepowered/common/event/tracking/PhaseContext.java:84-86 | `start()`: an open context with no suppliers, source, owner, notifier or extras. |
| PhaseContext.PhaseContext.AddExtra | src/main/java/org/spongepowered/common/event/tracking/PhaseContext.java:88-91 | `addExtra` maps the key to the value, even after completion, and changes nothing else. |
| PhaseContext.PhaseContext.Source | src/main/java/org/spongepowered/common/event/tracking/PhaseContext.java:120-124 | The new state and outcome are those of `SetSource`. |
| PhaseContext.PhaseContext.Owner | src/main/java/org/spongepowered/common/event/tracking/PhaseContext.java:126-133 | The new state and outcome are those of `SetOwner`; a refusal changes nothing. |
| PhaseContext.PhaseContext.Notifier | src/main/java/org/spongepowered/common/event/tracking/PhaseContext.java:135-142 | The new state and outcome are those of `SetNotifier`; a refusal changes nothing. |
| PhaseContext.PhaseContext.InstallGroup | src/main/java/org/spongepowered/common/event/tracking/PhaseContext.java:144-150 | The shared checks and installation of the `add*Captures` methods, as `Install`. |
| PhaseContext.PhaseContext.AddBlockCaptures | src/main/java/org/spongepowered/common/event/tracking/PhaseContext.java:152-168 | Installs the five block-group suppliers when none is set and the context is open. |
| PhaseContext.PhaseContext.AddCaptures | src/main/java/org/spongepowered/common/event/tracking/PhaseContext.java:170-193 | Installs the block group without the block position and the entity group, after checking both groups. |
| PhaseContext.PhaseContext.AddEntityCaptures | src/main/java/org/spongepowered/common/event/tracking/PhaseContext.java:195-208 | Installs the three entity suppliers when none is set and the context is open. |
| PhaseContext.PhaseContext.AddEntityDropCaptures | src/main/java/org/spongepowered/common/event/tracking/PhaseContext.java:210-220 | Installs the two entity-drop suppliers when neither is set and the context is open. |
| PhaseContext.PhaseContext.Complete | src/main/java/org/spongepowered/common/event/tracking/PhaseContext.java:222-225 | `complete` sets the latch and nothing else. |
| PhaseContext.PhaseContext.SetProcessImmediately | src/main/java/org/spongepowered/common/event/tracking/PhaseContext.java:235-237 | Sets the flag and nothing else. |
| PhaseContext.PhaseContext.GetCapturedPlayerSupplier | src/main/java/org/spongepowered/common/event/tracking/PhaseContext.java:355-361 | Nothing installs the player capture, so the getter always throws. |
| PhaseContext.CompletedRefusesNewObjects | src/main/java/org/spongepowered/common/event/tracking/PhaseContext.java:121-211 | A completed context refuses a new source, owner, notifier and every group of captures. |
| PhaseContext.OwnerIsWriteOnce | src/main/java/org/spongepowered/common/event/tracking/PhaseContext.java:126-133 | An owner once set stays: a second `owner` call fails whatever it passes. |
| PhaseContext.NotifierIsWriteOnce | src/main/java/org/spongepowered/common/event/tracking/PhaseContext.java:135-142 | A notifier once set stays: a second `notifier` call fails whatever it passes. |
| PhaseContext.BlockCapturesInstallFive | src/main/java/org/spongepowered/common/event/tracking/PhaseContext.java:152-168 | After `addBlockCaptures` all five block-group getters answer, and a second call fails. |
| PhaseContext.CapturesLeaveBlockPos | src/main/java/org/spongepowered/common/event/tracking/PhaseContext.java:170-193 | After `addCaptures` the block position is still not captured, and `addEntityCaptures` fails. |
| PhaseContext.BlockEntityDropSequence | src/main/java/org/spongepowered/common/event/tracking/PhaseContext.java:152-220 | Block, then entity, then entity-drop captures all succeed on a fresh context. |
| PhaseContext.TypedLookups | src/main/java/org/spongepowered/common/event/tracking/PhaseContext.java:98-114 | Typed lookups answer only on a class match, and the required lookup fails exactly when the plain one answers null. |
| PhaseContext.EqualsAgreesWithHashCode | src/main/java/org/spongepowered/common/event/tracking/PhaseContext.java:379-394 | Two contexts are equal exactly when their hash codes are equal: both depend on the latch alone. |
| PhaseContext.Lookup | src/main/java/org/spongepowered/common/event/tracking/PhaseContext.java:93-95 | `extraContext.get(key)`: the value under the key, or null when it is absent. |
| PhaseContext.IsInstance | src/main/java/org/spongepowered/common/event/tracking/PhaseContext.java:98-104 | `Class.isInstance`: an object is an instance of exactly the classes it carries; null is an instance of none. |
| PhaseContext.AfterBlockCaptures | src/main/java/org/spongepowered/common/event/tracking/PhaseContext.java:152-168 | `addBlockCaptures` on the fields: refused once completed or when a block supplier is set, and otherwise the five block suppliers installed (BlockCapturesInstallFive). |
| PhaseContext.AfterCaptures | src/main/java/org/spongepowered/common/event/tracking/PhaseContext.java:170-193 | `addCaptures` on the fields: refused once completed or when a block or entity supplier is set, and otherwise the block group without the position plus the entity group installed (CapturesLeaveBlockPos). |
| PhaseContext.AfterEntityCaptures | src/main/java/org/spongepowered/common/event/tracking/PhaseContext.java:195-208 | `addEntityCaptures` on the fields: refused once completed or when an entity supplier is set, and otherwise the three entity suppliers installed. |
| PhaseContext.AfterEntityDropCaptures | src/main/java/org/spongepowered/common/event/tracking/PhaseContext.java:210-220 | `addEntityDropCaptures` on the fields: refused once completed or when a drop supplier is set, and otherwise the two drop suppliers installed (BlockEntityDropSequence). |
| PhaseContext.HashCode | src/main/java/org/spongepowered/common/event/tracking/PhaseContext.java:379-382 | `Objects.hash(isCompleted)`: 31 plus 1231 for a completed context and 1237 for an open one; EqualsAgreesWithHashCode relates it to Equal. |
| PhaseContext.Equal | src/main/java/org/spongepowered/common/event/tracking/PhaseContext.java:384-394 | `equals` compares two contexts by their latch alone (the same-class test is left out); EqualsAgreesWithHashCode proves two contexts equal exactly when they hash alike. |
| ChunkGenerator.ChunkSeed | src/main/java/org/spongepowered/common/world/gen/SpongeChunkGenerator.java:236 | The chunk seed is a `long`. |
| ChunkGenerator.ChunkSeedIsExactValueWrapped | src/main/java/org/spongepowered/common/world/gen/SpongeChunkGenerator.java:236 | The seed is the exact value of `chunkX * 341873128712 + chunkZ * 132897987541` wrapped to 64 bits, and 0 at the origin. |
| ChunkGenerator.NeighbouringChunksDiffer | src/main/java/org/spongepowered/common/world/gen/SpongeChunkGenerator.java:236 | The chunks (1, 0) and (0, 1) get different seeds. |
| ChunkGenerator.Filter | src/main/java/org/spongepowered/common/world/gen/SpongeChunkGenerator.java:225-232 | The typed getters keep exactly the populators that are instances of the class. |
| ChunkGenerator.FilterKeepsOrder | src/main/java/org/spongepowered/common/world/gen/SpongeChunkGenerator.java:225-232 | Filtering keeps the list order: filtering a concatenation concatenates the filtered parts. |
| ChunkGenerator.Grid | src/main/java/org/spongepowered/common/world/gen/SpongeChunkGenerator.java:256-258 | The chunk's 256 biomes are visited x outer, z inner. |
| ChunkGenerator.FirstIndex | src/main/java/org/spongepowered/common/world/gen/SpongeChunkGenerator.java:260 | The first position of a biome: it holds the biome and no earlier one does. |
| ChunkGenerator.DedupMeaning | src/main/java/org/spongepowered/common/world/gen/SpongeChunkGenerator.java:254-264 | The unique-biome list holds every biome of the chunk, each once, in first-seen order. |
| ChunkGenerator.UniqueBiomes | src/main/java/org/spongepowered/common/world/gen/SpongeChunkGenerator.java:255-265 | The loop's list is the de-duplicated scan of the 16x16 grid. |
| ChunkGenerator.DedupStep | src/main/java/org/spongepowered/common/world/gen/SpongeChunkGenerator.java:260-262 | One step of the loop: a biome already seen is skipped, a new one appended. |
| ChunkGenerator.FirstSnow | src/main/java/org/spongepowered/common/world/gen/SpongeChunkGenerator.java:316-325 | The first snow populator: an instance of SnowPopulator with none before it, or none at all. |
| ChunkGenerator.RunOrderMeaning | src/main/java/org/spongepowered/common/world/gen/SpongeChunkGenerator.java:313-329 | `populate` runs a rearrangement of the world's and the biome's populators that ends with the first snow populator when there is one; without one, the world's populators then the biome's. |
| ChunkGenerator.OnlyFirstSnowMoves | src/main/java/org/spongepowered/common/world/gen/SpongeChunkGenerator.java:316-325 | A snow populator after the first keeps its place among the world's populators, one slot earlier. |
| ChunkGenerator.StructureClass | src/main/java/org/spongepowered/common/world/gen/SpongeChunkGenerator.java:438-451 | Exactly the six names "Stronghold", "Mansion", "Monument", "Village", "Mineshaft" and "Temple" name a structure class. |
| ChunkGenerator.FirstInstance | src/main/java/org/spongepowered/common/world/gen/SpongeChunkGenerator.java:455-459 | The first generation populator of a class, or none. |
| ChunkGenerator.StructureDispatch | src/main/java/org/spongepowered/common/world/gen/SpongeChunkGenerator.java:452-464 | An unknown structure name is answered by nobody. |
| ChunkGenerator.NearestStructurePos | src/main/java/org/spongepowered/common/world/gen/SpongeChunkGenerator.java:437-465 | An unknown structure name gives null. |
| ChunkGenerator.IsInsideStructure | src/main/java/org/spongepowered/common/world/gen/SpongeChunkGenerator.java:468-496 | An unknown structure name gives false. |
| ChunkGenerator.FirstMatchingPopulatorAnswers | src/main/java/org/spongepowered/common/world/gen/SpongeChunkGenerator.java:455-459 | When a generation populator of the structure's class exists, the first such one answers, never the wrapped generator. |
| ChunkGenerator.CachedSettings | src/main/java/org/spongepowered/common/world/gen/SpongeChunkGenerator.java:207-222 | An overridden or cached biome gets its stored settings and the cache is unchanged; any other gets the fresh settings, which are stored. |
| ChunkGenerator.CacheIsMemo | src/main/java/org/spongepowered/common/world/gen/SpongeChunkGenerator.java:207-222 | A second `getBiomeSettings` for the same biome returns the first's settings and leaves the cache alone; the first adds at most that biome and changes no other entry. |
| ChunkGenerator.SpongeChunkGenerator.constructor | src/main/java/org/spongepowered/common/world/gen/SpongeChunkGenerator.java:120-130 | A new generator has no generation populators, no populators and no biome overrides. |
| ChunkGenerator.SpongeChunkGenerator.SetGenerationPopulators | src/main/java/org/spongepowered/common/world/gen/SpongeChunkGenerator.java:171-173 | The generation populators become a copy of the list given. |
| ChunkGenerator.SpongeChunkGenerator.SetPopulators | src/main/java/org/spongepowered/common/world/gen/SpongeChunkGenerator.java:180-182 | The populators become a copy of the list given. |
| ChunkGenerator.SpongeChunkGenerator.SetBiomeOverrides | src/main/java/org/spongepowered/common/world/gen/SpongeChunkGenerator.java:188-190 | The biome settings become a copy of the map given. |
| ChunkGenerator.SpongeChunkGenerator.GetBiomeSettings | src/main/java/org/spongepowered/common/world/gen/SpongeChunkGenerator.java:207-222 | A null biome is refused with a NullPointerException and changes nothing; otherwise the cached settings, or empty settings under a mod generator and the biome's defaults otherwise, stored in the cache. |
| ChunkGenerator.SpongeChunkGenerator.GetGenerationPopulators | src/main/java/org/spongepowered/common/world/gen/SpongeChunkGenerator.java:225-227 | Exactly the generation populators that are instances of the class. |
| ChunkGenerator.SpongeChunkGenerator.GetPopulators | src/main/java/org/spongepowered/common/world/gen/SpongeChunkGenerator.java:230-232 | Exactly the populators that are instances of the class. |
| ChunkGenerator.SpongeChunkGenerator.PopulatorsToRun | src/main/java/org/spongepowered/common/world/gen/SpongeChunkGenerator.java:313-329 | The list `populate` runs is the run order of the world's and the biome's populators. |
| ChunkGenerator.InstanceOf | src/main/java/org/spongepowered/common/world/gen/SpongeChunkGenerator.java:225-232 | `instanceof`: a populator is an instance of exactly the classes it carries, its own and its supertypes. |
| ChunkGenerator.Dedup | src/main/java/org/spongepowered/common/world/gen/SpongeChunkGenerator.java:254-264 | The biomes of a scan, each once in first-seen order, as the loop's `contains` test builds them; DedupMeaning proves that reading and UniqueBiomes ties the loop to it. |
| ChunkGenerator.RunOrder | src/main/java/org/spongepowered/common/world/gen/SpongeChunkGenerator.java:313-329 | The order `populate` runs populators in: the world's populators without the first snow populator, then the biome's, then that snow populator; RunOrderMeaning proves it a rearrangement ending in the snow populator, and PopulatorsToRun ties the loop to it. |
| OverworldGenerator.Structure | src/main/java/org/spongepowered/common/mixin/core/world/gen/MixinChunkGeneratorOverworld.java:123-124 | A structure generator is an instance of its own class, a generation populator and a populator. |
| OverworldGenerator.EnabledMembers | src/main/java/org/spongepowered/common/mixin/core/world/gen/MixinChunkGeneratorOverworld.java:115-188 | Each `if (settings.use…)` block adds only switched-on populators, and no more than there are blocks. |
| OverworldGenerator.EnabledPrefix | src/main/java/org/spongepowered/common/mixin/core/world/gen/MixinChunkGeneratorOverworld.java:115-188 | The blocks run in order: one more block appends its populator exactly when it is switched on. |
| OverworldGenerator.NoneEnabled | src/main/java/org/spongepowered/common/mixin/core/world/gen/MixinChunkGeneratorOverworld.java:115-188 | With every block switched off nothing is added. |
| OverworldGenerator.StructuresEndGenerationPhase | src/main/java/org/spongepowered/common/mixin/core/world/gen/MixinChunkGeneratorOverworld.java:115-154 | The generation populators added are the carvers followed by the structures, in the order mineshaft, village, stronghold, temple, monument, mansion. |
| OverworldGenerator.StructuresStartPopulationPhase | src/main/java/org/spongepowered/common/mixin/core/world/gen/MixinChunkGeneratorOverworld.java:123-191 | The populators added start with the same structures in the same order and end with the animal populator, then the snow populator. |
| OverworldGenerator.NoStructuresWithoutMapFeatures | src/main/java/org/spongepowered/common/mixin/core/world/gen/MixinChunkGeneratorOverworld.java:126-154 | Without map features no structure is added, and the generation populators added are the enabled carvers alone. |
| OverworldGenerator.SnowIsAddedLast | src/main/java/org/spongepowered/common/mixin/core/world/gen/MixinChunkGeneratorOverworld.java:156-191 | The snow populator is the first and only snow populator among the ones added, and the last of them. |
| OverworldGenerator.NoSnowEnabled | src/main/java/org/spongepowered/common/mixin/core/world/gen/MixinChunkGeneratorOverworld.java:156-188 | No lake or dungeon populator is a snow populator. |
| OverworldGenerator.SnowRunsAfterBiomePopulators | src/main/java/org/spongepowered/common/mixin/core/world/gen/MixinChunkGeneratorOverworld.java:190-191 | On a generator with no other snow populator, the snow populator added here runs after the biome's populators, and the rest keep their order. |
| OverworldGenerator.LastSnowRunsLast | src/main/java/org/spongepowered/common/mixin/core/world/gen/MixinChunkGeneratorOverworld.java:190-191 | Appending populators whose first snow populator is their last moves just that one behind the biome's populators. |
| OverworldGenerator.FirstSnowAfterNone | src/main/java/org/spongepowered/common/mixin/core/world/gen/MixinChunkGeneratorOverworld.java:190-191 | The first snow populator of a concatenation whose first part has none is the second part's, shifted. |
| OverworldGenerator.StructureGenerator | src/main/java/org/spongepowered/common/mixin/core/world/gen/MixinChunkGeneratorOverworld.java:126-154 | Each of the six recognised structure names has its generator, an instance of that structure's class. |
| OverworldGenerator.StructureQueryFindsOwnGenerator | src/main/java/org/spongepowered/common/mixin/core/world/gen/MixinChunkGeneratorOverworld.java:126-154 | On a generator built by `addPopulators` over the vanilla base, a structure query is answered by that structure's own generator exactly when it was added. |
| OverworldGenerator.OnlyOwnGeneratorIsOfItsClass | src/main/java/org/spongepowered/common/mixin/core/world/gen/MixinChunkGeneratorOverworld.java:115-154 | Among the carvers and structures, only a structure's own generator is an instance of its class. |
| OverworldGenerator.SetBedrock | src/main/java/org/spongepowered/common/mixin/core/world/gen/MixinChunkGeneratorOverworld.java:206-220 | Layer y (below 6) of each column becomes bedrock exactly when y is at most that column's and layer's `nextInt(5)` draw; the bottom layer always does; every other block is unchanged. |
| OverworldGenerator.CellIndexIsBijective | src/main/java/org/spongepowered/common/mixin/core/world/gen/MixinChunkGeneratorOverworld.java:236-243 | The grid index `bx/4 + (bz/4)·10` stores each of the 10x10 cells at its own slot under 100. |
| OverworldGenerator.CellOfIndex | src/main/java/org/spongepowered/common/mixin/core/world/gen/MixinChunkGeneratorOverworld.java:241 | A cell's slot gives back its column and row. |
| OverworldGenerator.GridBounds | src/main/java/org/spongepowered/common/mixin/core/world/gen/MixinChunkGeneratorOverworld.java:241 | Every slot under 100 has a column and row under 10. |
| OverworldGenerator.OverworldGenerator.constructor | src/main/java/org/spongepowered/common/mixin/core/world/gen/MixinChunkGeneratorOverworld.java:100-106 | Missing settings are replaced by the settings factory's defaults. |
| OverworldGenerator.OverworldGenerator.AddPopulators | src/main/java/org/spongepowered/common/mixin/core/world/gen/MixinChunkGeneratorOverworld.java:113-193 | The world generator's generation populators and populators each gain exactly the overworld's enabled additions, appended in order. |
| OverworldGenerator.OverworldGenerator.AddCarvers | src/main/java/org/spongepowered/common/mixin/core/world/gen/MixinChunkGeneratorOverworld.java:115-121 | Caves, then ravines, each when switched on. |
| OverworldGenerator.OverworldGenerator.AddStructures | src/main/java/org/spongepowered/common/mixin/core/world/gen/MixinChunkGeneratorOverworld.java:126-154 | Each switched-on structure goes into both lists, in order. |
| OverworldGenerator.OverworldGenerator.AddLakesAndDungeons | src/main/java/org/spongepowered/common/mixin/core/world/gen/MixinChunkGeneratorOverworld.java:156-188 | The water lake, the lava lake and the dungeons, each when switched on. |
| OverworldGenerator.OverworldGenerator.AddToBothIfEnabled | src/main/java/org/spongepowered/common/mixin/core/world/gen/MixinChunkGeneratorOverworld.java:126-154 | One structure block: the entry goes into both lists exactly when it is switched on. |
| OverworldGenerator.OverworldGenerator.AddToGenerationIfEnabled | src/main/java/org/spongepowered/common/mixin/core/world/gen/MixinChunkGeneratorOverworld.java:115-121 | One carver block: the entry goes into the generation populators exactly when it is switched on. |
| OverworldGenerator.OverworldGenerator.AddToPopulationIfEnabled | src/main/java/org/spongepowered/common/mixin/core/world/gen/MixinChunkGeneratorOverworld.java:156-188 | One lake or dungeon block: the entry goes into the populators exactly when it is switched on. |
| OverworldGenerator.OverworldGenerator.GetBiomesFromGenerator | src/main/java/org/spongepowered/common/mixin/core/world/gen/MixinChunkGeneratorOverworld.java:222-245 | For a biome generator that is not a biome provider, the array is reused when it holds 100 biomes and a new one of 100 made otherwise; cell (p, q) holds the biome 4p and 4q blocks from 6 before the chunk, at slot p + 10q; slots past 100 are untouched. |
| OverworldGenerator.Enabled | src/main/java/org/spongepowered/common/mixin/core/world/gen/MixinChunkGeneratorOverworld.java:114-191 | The populators of the entries whose condition holds, in the order `addPopulators` tests them. |
| OverworldGenerator.Structures | src/main/java/org/spongepowered/common/mixin/core/world/gen/MixinChunkGeneratorOverworld.java:126-151 | The six structures, each only when its setting and map features are on. |
| OverworldGenerator.AddedGenerationPopulators | src/main/java/org/spongepowered/common/mixin/core/world/gen/MixinChunkGeneratorOverworld.java:115-151 | What `addPopulators` appends to the generation populators: caves and ravines, then the structures. |
| OverworldGenerator.AddedPopulators | src/main/java/org/spongepowered/common/mixin/core/world/gen/MixinChunkGeneratorOverworld.java:126-191 | What `addPopulators` appends to the populators: the structures, the lakes and dungeons switched on, then animals and snow. |
| OverworldGenerator.Bedrocked | src/main/java/org/spongepowered/common/mixin/core/world/gen/MixinChunkGeneratorOverworld.java:211-216 | A block of the floor becomes bedrock when its layer is below 6 and at most its draw; any other keeps what it was. |
| OverworldGenerator.CellBiome | src/main/java/org/spongepowered/common/mixin/core/world/gen/MixinChunkGeneratorOverworld.java:236-240 | The biome of grid cell (p, q): the one at every fourth block from 6 before the chunk's corner. |
| OverworldGenerator.CellIndex | src/main/java/org/spongepowered/common/mixin/core/world/gen/MixinChunkGeneratorOverworld.java:241 | Cell (p, q) is stored at `p + q * 10` (CellIndexIsBijective). |
| DragonFight.LegacyPhase | src/main/java/org/spongepowered/common/mixin/core/world/end/MixinDragonFightManager.java:96-131 | The legacy scan clears its pending flag and touches only the killed flags and the dragon's id. |
| DragonFight.RespawnPhase | src/main/java/org/spongepowered/common/mixin/core/world/end/MixinDragonFightManager.java:133-147 | A respawn step fails only when a respawn runs without crystals and does not restart; it touches only the respawn stage, its tick counter and the crystals, and the dragon's killed flag and id only when the stage ends the respawn. |
| DragonFight.DragonPhase | src/main/java/org/spongepowered/common/mixin/core/world/end/MixinDragonFightManager.java:149-169 | Looking after the dragon touches only the dragon-seen counter, the crystals, the crystal counter and the dragon's id. |
| DragonFight.WithPlayers | src/main/java/org/spongepowered/common/mixin/core/world/end/MixinDragonFightManager.java:95-170 | A tick that sees players leaves the boss bar and the player scan as they were and ends the legacy scan. |
| DragonFight.DragonFightManager.Tick | src/main/java/org/spongepowered/common/mixin/core/world/end/MixinDragonFightManager.java:87-171 | `tick()` leaves the fields and ends as the model of the whole tick says. |
| DragonFight.DragonFightManager.ScanPlayers | src/main/java/org/spongepowered/common/mixin/core/world/end/MixinDragonFightManager.java:88-93 | The boss bar, then the player scan: the fields become those of the player-scan model. |
| DragonFight.DragonFightManager.HandlePlayers | src/main/java/org/spongepowered/common/mixin/core/world/end/MixinDragonFightManager.java:95-170 | The part of the tick run when players are present. |
| DragonFight.DragonFightManager.ScanLegacyFight | src/main/java/org/spongepowered/common/mixin/core/world/end/MixinDragonFightManager.java:96-131 | The legacy scan: the fields become those of the legacy-scan model. |
| DragonFight.DragonFightManager.ProcessRespawn | src/main/java/org/spongepowered/common/mixin/core/world/end/MixinDragonFightManager.java:133-147 | One respawn step: the fields and outcome of the respawn-step model, including the NullPointerException when the stage was dropped. |
| DragonFight.DragonFightManager.LookAfterDragon | src/main/java/org/spongepowered/common/mixin/core/world/end/MixinDragonFightManager.java:149-169 | Looking after a live dragon: the fields of the dragon-check model. |
| DragonFight.BossBarShowsLiveDragon | src/main/java/org/spongepowered/common/mixin/core/world/end/MixinDragonFightManager.java:88 | After the tick the boss bar is visible exactly when the dragon was not killed as the tick began. |
| DragonFight.PlayerScanCounterCycles | src/main/java/org/spongepowered/common/mixin/core/world/end/MixinDragonFightManager.java:90-93 | The player-scan counter counts up and wraps to 0 when it reaches 20; when it wraps the players are updated. |
| DragonFight.NoPlayersLeavesFightAlone | src/main/java/org/spongepowered/common/mixin/core/world/end/MixinDragonFightManager.java:95 | With no players the tick does nothing beyond the boss bar and the player scan, and never throws. |
| DragonFight.PlayersEndLegacyScan | src/main/java/org/spongepowered/common/mixin/core/world/end/MixinDragonFightManager.java:96-99 | A tick that sees players leaves no legacy scan pending. |
| DragonFight.LegacyScanKilledMeansPreviouslyKilled | src/main/java/org/spongepowered/common/mixin/core/world/end/MixinDragonFightManager.java:100-130 | After the legacy scan `previouslyKilled` is what the portal showed, and the dragon counts as killed only if it was killed before. |
| DragonFight.LegacyScanDropsDragonWithoutPortal | src/main/java/org/spongepowered/common/mixin/core/world/end/MixinDragonFightManager.java:113-130 | A live dragon found without a portal is removed and its id forgotten, and the dragon is not counted killed. |
| DragonFight.DroppedDragonIsReplacedInSameTick | src/main/java/org/spongepowered/common/mixin/core/world/end/MixinDragonFightManager.java:121-163 | In the same tick a forgotten dragon is replaced: by the dragon a finishing respawn creates, unless the dragon-seen counter is due; otherwise by the first live dragon found, or a newly created one, with the counter restarted. |
| DragonFight.FinishedRespawnBringsBackDragon | src/main/java/org/spongepowered/common/mixin/core/world/end/MixinDragonFightManager.java:145 | A stage that ends the respawn leaves no stage, a zero tick count, the dragon alive, and the new dragon's id. |
| DragonFight.OtherStageChangeKeepsDragon | src/main/java/org/spongepowered/common/mixin/core/world/end/MixinDragonFightManager.java:145 | A stage that moves to any other stage stores it with a zero tick count and leaves the dragon's fields alone. |
| DragonFight.RespawnWithoutCrystalsClearsStage | src/main/java/org/spongepowered/common/mixin/core/world/end/MixinDragonFightManager.java:133-145 | A respawn that lost its crystals and does not restart clears the stage, and `process` on the cleared stage throws a NullPointerException. |
| DragonFight.TickThrowsIff | src/main/java/org/spongepowered/common/mixin/core/world/end/MixinDragonFightManager.java:95-147 | A tick throws exactly when it sees players while a respawn has lost its crystals and cannot restart, and then the stage is cleared. |
| DragonFight.DragonCheckCounters | src/main/java/org/spongepowered/common/mixin/core/world/end/MixinDragonFightManager.java:149-168 | The dragon-seen counter restarts when the id is unknown or the count reaches 1200; the crystal counter restarts on reaching 100, when the crystals are counted again; afterwards the dragon's id is known. |
| DragonFight.TickKeepsCountersInRange | src/main/java/org/spongepowered/common/mixin/core/world/end/MixinDragonFightManager.java:87-171 | Every tick keeps the player-scan, dragon-seen and crystal counters within 0-19, 0-1199 and 0-99. |
| DragonFight.PlayerScan | src/main/java/org/spongepowered/common/mixin/core/world/end/MixinDragonFightManager.java:88-93 | The start of every tick: the boss bar shows exactly when the dragon is not killed, and every twentieth tick the player list is refreshed and the counter restarts (BossBarShowsLiveDragon, PlayerScanCounterCycles). |
| DragonFight.LegacyScan | src/main/java/org/spongepowered/common/mixin/core/world/end/MixinDragonFightManager.java:96-131 | The legacy scan: the portal decides `previouslyKilled`, the dragon counts as killed only with a portal and no live dragon, and a live dragon is adopted with a portal and forgotten without one (LegacyScanKilledMeansPreviouslyKilled, LegacyScanDropsDragonWithoutPortal). |
| DragonFight.RespawnStep | src/main/java/org/spongepowered/common/mixin/core/world/end/MixinDragonFightManager.java:133-147 | One step of a running respawn: without crystals the stage is dropped unless `respawnDragon()` restarts it, the tick counter is advanced before the stage is used, a dropped stage throws the null error, and otherwise the stage's `process` is applied (RespawnWithoutCrystalsClearsStage, TickThrowsIff). |
| DragonFight.SetRespawnState | src/main/java/org/spongepowered/common/mixin/core/world/end/MixinDragonFightManager.java:145 | `setRespawnState`: END ends the respawn, marks the dragon alive and records the new dragon; any other stage is stored with a zero tick count (FinishedRespawnBringsBackDragon, OtherStageChangeKeepsDragon). |
| DragonFight.Tick | src/main/java/org/spongepowered/common/mixin/core/world/end/MixinDragonFightManager.java:90-93 | `++x >= limit` on an int field, wrapped to 32 bits: the incremented value, or 0 once it reaches the limit; TickKeepsCountersInRange keeps the counters below their limits. |
| DragonFight.DragonCheck | src/main/java/org/spongepowered/common/mixin/core/world/end/MixinDragonFightManager.java:149-168 | Looking after a live dragon: it is looked for when its id is unknown or it was not seen for 1200 ticks, a new one is used when none is alive, and the crystals are counted every 100 ticks (DragonCheckCounters). |
| DragonFight.AfterTick | src/main/java/org/spongepowered/common/mixin/core/world/end/MixinDragonFightManager.java:87-171 | The whole of `tick()`: the player scan, and with players the legacy scan, the respawn step and the dragon check in that order; TickThrowsIff, NoPlayersLeavesFightAlone and TickKeepsCountersInRange state its properties, and DragonFightManager.Tick is tied to it. |
| FishHook.CatchEventsStep | src/main/java/org/spongepowered/common/mixin/core/entity/projectile/MixinEntityFishHook.java:168-192 | One more transaction of the loop appends exactly that transaction's events. |
| FishHook.EntityFishHook.SetShooter | src/main/java/org/spongepowered/common/mixin/core/entity/projectile/MixinEntityFishHook.java:91-100 | `setShooter` gives the fields of the shooter model, and `getShooter` then returns the shooter, or UNKNOWN for null. |
| FishHook.EntityFishHook.SetHookedEntity | src/main/java/org/spongepowered/common/mixin/core/entity/projectile/MixinEntityFishHook.java:107-110 | Sets the hooked entity and nothing else; `getHookedEntity` then returns it. |
| FishHook.EntityFishHook.OnSetHookedEntity | src/main/java/org/spongepowered/common/mixin/core/entity/projectile/MixinEntityFishHook.java:112-119 | The hook-entity event: the fields of the hook-event model. |
| FishHook.EntityFishHook.HandOutCatch | src/main/java/org/spongepowered/common/mixin/core/entity/projectile/MixinEntityFishHook.java:163-193 | The loop appends the events of the transactions, in order, and changes nothing else. |
| FishHook.EntityFishHook.HandleHookRetraction | src/main/java/org/spongepowered/common/mixin/core/entity/projectile/MixinEntityFishHook.java:127-207 | `handleHookRetraction` leaves the fields and returns the code of the retraction model. |
| FishHook.ShooterRoundTrip | src/main/java/org/spongepowered/common/mixin/core/entity/projectile/MixinEntityFishHook.java:81-100 | `setShooter` then `getShooter` gives the shooter back (UNKNOWN for null); the angler is set exactly when the shooter is a player; nothing else changes. |
| FishHook.ShooterFallsBack | src/main/java/org/spongepowered/common/mixin/core/entity/projectile/MixinEntityFishHook.java:81-89 | The explicit source wins; failing it the angler; with neither, UNKNOWN. |
| FishHook.HookEventCancels | src/main/java/org/spongepowered/common/mixin/core/entity/projectile/MixinEntityFishHook.java:112-119 | A cancelled hook event clears the hooked entity; an uncancelled one changes nothing. |
| FishHook.LootOnlyWhenCatchable | src/main/java/org/spongepowered/common/mixin/core/entity/projectile/MixinEntityFishHook.java:133-148 | No loot is rolled before a fish bites; afterwards each rolled stack becomes an unchanged, valid transaction, in order. |
| FishHook.RetractionWithoutAnglerIsIdle | src/main/java/org/spongepowered/common/mixin/core/entity/projectile/MixinEntityFishHook.java:128-129 | On the client or without an angler the retraction changes nothing and returns 0. |
| FishHook.CancelledRetractionKeepsHook | src/main/java/org/spongepowered/common/mixin/core/entity/projectile/MixinEntityFishHook.java:149-154 | A cancelled stop event returns -1, leaves the hook alive and the world untouched, and leaves the angler pushed on the cause stack. |
| FishHook.RetractionCodes | src/main/java/org/spongepowered/common/mixin/core/entity/projectile/MixinEntityFishHook.java:156-203 | An uncancelled retraction kills the hook and returns 2 in the ground, otherwise 3 for a hooked item, 5 for another entity, and with nothing hooked 1 when a transaction survived, else 0; any surviving transaction makes it at least 1. |
| FishHook.CausePoppedOnlyWithLoot | src/main/java/org/spongepowered/common/mixin/core/entity/projectile/MixinEntityFishHook.java:149-196 | The angler's cause is popped exactly when the event left some transaction. |
| FishHook.SpawnsOnlyValidFinals | src/main/java/org/spongepowered/common/mixin/core/entity/projectile/MixinEntityFishHook.java:168-184 | A stack is spawned as an item exactly when it is the final stack of a valid transaction. |
| FishHook.OneOrbPerValidTransaction | src/main/java/org/spongepowered/common/mixin/core/entity/projectile/MixinEntityFishHook.java:185-186 | One experience orb is spawned per valid transaction. |
| FishHook.OrbCountAppend | src/main/java/org/spongepowered/common/mixin/core/entity/projectile/MixinEntityFishHook.java:185-186 | Orbs counted over two runs of events add up. |
| FishHook.ShooterOf | src/main/java/org/spongepowered/common/mixin/core/entity/projectile/MixinEntityFishHook.java:81-89 | `getShooter`: the explicit source if one was set, else the angler, else UNKNOWN; its cases are stated by ShooterFallsBack and ShooterRoundTrip. |
| FishHook.WithShooter | src/main/java/org/spongepowered/common/mixin/core/entity/projectile/MixinEntityFishHook.java:91-100 | `setShooter`: a player shooter becomes the angler and anything else clears it, while the source is stored as given; ShooterRoundTrip states the round trip with ShooterOf. |
| FishHook.EntityFishHook.GetShooter | src/main/java/org/spongepowered/common/mixin/core/entity/projectile/MixinEntityFishHook.java:81-89 | The getter reads ShooterOf of the hook's current fields. |
| FishHook.EntityFishHook.GetHookedEntity | src/main/java/org/spongepowered/common/mixin/core/entity/projectile/MixinEntityFishHook.java:102-105 | The hooked entity, or none when nothing is hooked. |
| FishHook.AfterHookEvent | src/main/java/org/spongepowered/common/mixin/core/entity/projectile/MixinEntityFishHook.java:112-119 | The hook-entity event: a cancelled event leaves nothing hooked, and an uncancelled one changes nothing (HookEventCancels). |
| FishHook.RolledLoot | src/main/java/org/spongepowered/common/mixin/core/entity/projectile/MixinEntityFishHook.java:133-148 | Loot is rolled only while a fish bites (`ticksCatchable > 0`), and each stack becomes a transaction from the stack to itself (LootOnlyWhenCatchable). |
| FishHook.CatchOf | src/main/java/org/spongepowered/common/mixin/core/entity/projectile/MixinEntityFishHook.java:168-192 | One transaction of the hand-out loop: nothing when it is not valid, and otherwise an item with its final stack, an orb, and the fish statistic for a fish. |
| FishHook.CatchEvents | src/main/java/org/spongepowered/common/mixin/core/entity/projectile/MixinEntityFishHook.java:168-192 | The events of the whole hand-out loop, transaction by transaction in order (CatchEventsStep, SpawnsOnlyValidFinals, OneOrbPerValidTransaction). |
| FishHook.RetractionCode | src/main/java/org/spongepowered/common/mixin/core/entity/projectile/MixinEntityFishHook.java:156-200 | The code of a retraction that was not cancelled: 3 for a hooked item and 5 for another entity, at least 1 when any transaction is left to hand out, and 2 whenever the hook is in the ground (RetractionCodes). |
| FishHook.Retraction | src/main/java/org/spongepowered/common/mixin/core/entity/projectile/MixinEntityFishHook.java:127-207 | The whole of `handleHookRetraction`: idle on the client or without an angler, -1 when the stop event is cancelled, and otherwise the hand-out, the cause pop only with loot, the hook's death and RetractionCode (RetractionWithoutAnglerIsIdle, CancelledRetractionKeepsHook, CausePoppedOnlyWithLoot). |
| FishHook.OrbCount | src/main/java/org/spongepowered/common/mixin/core/entity/projectile/MixinEntityFishHook.java:185-186 | The number of orbs among a run of events; OrbCountAppend and OneOrbPerValidTransaction relate it to the valid transactions. |
| FishHook.ValidCount | src/main/java/org/spongepowered/common/mixin/core/entity/projectile/MixinEntityFishHook.java:168-171 | The number of valid transactions, the ones the loop does not skip. |
| EntityPlayer.TriangleIsExact | src/main/java/org/spongepowered/common/mixin/core/entity/player/MixinEntityPlayer.java:169-177 | `level·(level−1)` is even, so the halves in the formula are whole. |
| EntityPlayer.IntCastOfWhole | src/main/java/org/spongepowered/common/mixin/core/entity/player/MixinEntityPlayer.java:169-177 | The `(int)` cast of a whole double is that number saturated to the `int` range. |
| EntityPlayer.XpAtLevelIsExact | src/main/java/org/spongepowered/common/mixin/core/entity/player/MixinEntityPlayer.java:169-177 | `xpAtLevel` is level² + 6·level up to 15, (5·level² − 81·level + 720)/2 up to 30 and (9·level² − 325·level + 4440)/2 above, exactly, saturated to the `int` range. |
| EntityPlayer.HalvesCancel | src/main/java/org/spongepowered/common/mixin/core/entity/player/MixinEntityPlayer.java:172-175 | The half-integer coefficients of the two upper pieces give whole numbers. |
| EntityPlayer.ExactXpStep | src/main/java/org/spongepowered/common/mixin/core/entity/player/MixinEntityPlayer.java:169-177 | Reaching one level more costs exactly that level's bar (`xpBarCap`). |
| EntityPlayer.ExactXpIsTotal | src/main/java/org/spongepowered/common/mixin/core/entity/player/MixinEntityPlayer.java:169-177 | The total for a level is the sum of the bars of all levels below it. |
| EntityPlayer.TotalBarCapsIsNonNegative | src/main/java/org/spongepowered/common/mixin/core/entity/player/MixinEntityPlayer.java:169-177 | The total experience for a non-negative level is never negative. |
| EntityPlayer.ExactXpFits | src/main/java/org/spongepowered/common/mixin/core/entity/player/MixinEntityPlayer.java:169-177 | Up to level 21001 the total fits in an `int`. |
| EntityPlayer.SquareIsMonotone | src/main/java/org/spongepowered/common/mixin/core/entity/player/MixinEntityPlayer.java:169-177 | A bound on the level bounds its square. |
| EntityPlayer.XpAtLevelSumsBarCaps | src/main/java/org/spongepowered/common/mixin/core/entity/player/MixinEntityPlayer.java:169-189 | From 0 at level 0 up to level 21001, `xpAtLevel` sums the bars below, and each level up adds that level's bar. |
| EntityPlayer.WrapShift | src/main/java/org/spongepowered/common/mixin/core/entity/player/MixinEntityPlayer.java:179-185 | Adding a multiple of 2^32 does not change the wrapped `int`. |
| EntityPlayer.SinceLevelRoundTrip | src/main/java/org/spongepowered/common/mixin/core/entity/player/MixinEntityPlayer.java:179-185 | Setting the experience since the level and reading it back gives the value set, even when the total wraps. |
| EntityPlayer.Player.constructor | src/main/java/org/spongepowered/common/mixin/core/entity/player/MixinEntityPlayer.java:153 | A new player counts for spawning. |
| EntityPlayer.Player.SetExperienceSinceLevel | src/main/java/org/spongepowered/common/mixin/core/entity/player/MixinEntityPlayer.java:179-185 | Sets the total to `xpAtLevel(level) + experience` in `int` arithmetic and nothing else, and `getExperienceSinceLevel` then returns `experience`. |
| EntityPlayer.Player.SetLevel | src/main/java/org/spongepowered/common/mixin/core/entity/player/MixinEntityPlayer.java:191-197 | Sets the level and nothing else; `getLevel` then returns it. |
| EntityPlayer.Player.SetTotalExperience | src/main/java/org/spongepowered/common/mixin/core/entity/player/MixinEntityPlayer.java:199-205 | Sets the total experience and nothing else; `getTotalExperience` then returns it. |
| EntityPlayer.Player.SetFlying | src/main/java/org/spongepowered/common/mixin/core/entity/player/MixinEntityPlayer.java:207-213 | Sets the flying capability and nothing else; `isFlying` then returns it. |
| EntityPlayer.Player.SetAffectsSpawning | src/main/java/org/spongepowered/common/mixin/core/entity/player/MixinEntityPlayer.java:277-285 | Sets the flag and nothing else; `affectsSpawning` then answers the flag, but always false for a spectator. |
| EntityPlayer.XpAtLevel | src/main/java/org/spongepowered/common/mixin/core/entity/player/MixinEntityPlayer.java:168-177 | `xpAtLevel`: the three-piece quadratic in doubles, cast back to an `int`; XpAtLevelIsExact proves it the exact value saturated, and XpAtLevelSumsBarCaps proves it the running sum of XpBarCap. |
| EntityPlayer.XpBarCap | src/main/java/org/spongepowered/common/mixin/core/entity/player/MixinEntityPlayer.java:130 | The engine's `xpBarCap()`, the experience from a level to the next: 7 + 2·level below 15, 37 + 5·(level − 15) below 30, and 112 + 9·(level − 30) from there; XpAtLevelSumsBarCaps relates it to XpAtLevel. |
| EntityPlayer.Player.GetExperienceSinceLevel | src/main/java/org/spongepowered/common/mixin/core/entity/player/MixinEntityPlayer.java:179-181 | `getTotalExperience() - xpAtLevel(getLevel())` in `int` arithmetic; SinceLevelRoundTrip and SetExperienceSinceLevel prove that it reads back what was set. |
| EntityPlayer.Player.GetExperienceBetweenLevels | src/main/java/org/spongepowered/common/mixin/core/entity/player/MixinEntityPlayer.java:187-189 | `xpBarCap()` at the player's level. |
| EntityPlayer.Player.GetLevel | src/main/java/org/spongepowered/common/mixin/core/entity/player/MixinEntityPlayer.java:191-193 | The player's level, as SetLevel leaves it. |
| EntityPlayer.Player.GetTotalExperience | src/main/java/org/spongepowered/common/mixin/core/entity/player/MixinEntityPlayer.java:199-201 | The player's total experience, as SetTotalExperience leaves it. |
| EntityPlayer.Player.IsFlying | src/main/java/org/spongepowered/common/mixin/core/entity/player/MixinEntityPlayer.java:207-209 | The flying capability, as SetFlying leaves it. |
| EntityPlayer.Player.AffectsSpawning | src/main/java/org/spongepowered/common/mixin/core/entity/player/MixinEntityPlayer.java:277-280 | The flag, except that a spectator never counts for spawning. |

## Left out

- **Text.** `Text` values, their formatting and colours are plain strings. Usage texts join with plain separators.
- **Unseen classes.**
  - `TokenizerState`, the cursor the tokenizer reads with, is not part of the repository's source. The model defines it minimally:
    - the index of the last consumed character, starting at -1;
    - `hasMore` when a character follows;
    - `peek` and `next` past the end raise a "Buffer overrun" parse error.
  - `CommandMessageFormatting.ELLIPSIS` is not part of this model. The raw joined usage uses "…".
  - The `DefaultValueModifier` usage and completion come from unseen interface defaults. They are modelled as passing their input through.
  - The tokenizer behind `LENIENT_QUOTED_STRING` is not part of this model. It is taken to handle quoted strings, to be lenient, and to trim no trailing space.
  - The refusing (ERROR) unknown-flag behaviour is not part of this model. It is taken to raise a parse error.
- **Source that does not compile as shown.**
  - `SpongeFlagsBuilder.build` passes six arguments to a five-parameter `SpongeFlags` constructor. The built flags are a snapshot of the builder's six fields.
  - `SpongeFlags` calls an `updateFlags` that does not exist.
  - The execution context has no `getFlags()`. The sequence parameter receives the command's flags as an argument instead.
- **The other value parameters.** `WorldPropertiesValueParameter`, `LocationValueParameter`, `PluginContainerValueParameter` and `ReturnSourceParameter` need server, plugin-manager or selector lookups. They appear only as `Env` oracles and are not modelled.
- **`catalogedElement`.** `SpongeValueParameterFactory.catalogedElement` builds a `CatalogTypeValueParameter`. That class is not part of this model: it looks catalog types up in the game registry, which is not modelled.
- **Double parsing.** `Vector3dValueParameter` parses numbers through an abstract string-to-real oracle. Floating-point rounding is not modelled.
- **The rest of `SpongeCommand`.** File dumps, heap dumps, timings, TPS formatting and config reload or save are I/O.
- **Concurrency and thread-affinity checks.** These are not modelled.
- **Strings and case.**
  - JavaLang.ToLower and JavaLang.EqualsIgnoreCase fold only the ASCII letters A-Z. Java's `toLowerCase(Locale.ENGLISH)` folds every Unicode capital and can change a string's length, and `equalsIgnoreCase` also compares upper-cased characters.
  - JavaLang.StrLe orders strings by Unicode scalar values. Java's `compareTo` compares UTF-16 code units, which differs for characters outside the Basic Multilingual Plane.
  - Strings are sequences of Unicode scalar values. So `length`, `charAt`, `substring`, token positions and `getCurrentRawPosition` count scalar values, not UTF-16 code units. The two counts differ for characters outside the Basic Multilingual Plane, which Java stores as two units. Examples: the `charAt(1)` of FlagBehaviors.ShortValueFlag on `-😀x`, the raw positions RawJoinedParameter cuts at, and the start and end positions of the tokenizer's arguments.
- **Plugin code.**
  - Parsing.PluginValue and Parsing.PluginCompletions: a plugin's parser is assumed to read tokens only forward, never to call `setState` or `previous` on the cursor and never to write the execution context; a plugin's completer is assumed to leave the cursor where it was. Java hands both the live cursor and context, so either may do anything to them.
  - ParsingProperties.ChainTouchesOnlyItsKey holds under that assumption, and because a plugin modifier is modelled only by its decision (go on, stop, or refuse). In Java a modifier also receives the context and may write other keys.
  - ParsingProperties.PermissionEmptiesCompletions, ParsingProperties.EmptyStaysEmpty, ParsingProperties.DeniedPermissionHidesUsage, ParsingProperties.HiddenStaysHidden and ParameterBuilder.MissingPermissionSilencesParameter: their "empty" and "unchanged" conclusions are stated only for modifiers whose plugin ones pass their completions or usage on. A plugin's modifier is an `Env` oracle that may answer anything. For any modifiers, ParsingProperties.CompletionsRestartAfterPermission and ParsingProperties.UsageRestartsAfterDeniedPermission state what holds. A plugin modifier's `complete` is given the cursor but is assumed not to move it and not to read the context.
  - Parsing.Parse, Parsing.Chain, Parsing.SequenceFrom, Parsing.FirstOfFrom and Parsing.FlagsParse: their ensures that the cursor never moves back, except on a crash, hold under the same assumption about plugin parsers.
- **Shared Java objects.**
  - SpecificationBuilder.SpongeCommandSpecificationBuilder.Build: the built specification holds a copy of the builder's children. Java passes the builder's own `HashMap`, so a later `addChildren` or `reset` on the builder also changes the children of every specification it built.
  - ExecutionContext.SpongeCommandExecutionContext.constructor: only a context with a fresh, empty multimap is modelled. The constructors that take an `ArrayListMultimap` store the caller's multimap without copying it, so the caller and the context share it.
  - ExecutionContext.SpongeCommandExecutionContext.GetAll returns the values under the key at the time of the call. Java returns a live unmodifiable view, which later `putEntry` and `setState` calls change.
- **PhaseContext.**
  - Only the bookkeeping is modelled. The captured blocks, entities and items stay opaque.
  - The phase states that unwind a context post events and apply or revert changes in the engine. They are not part of this model.
  - `toString` is not modelled.
  - PhaseContext.EqualsAgreesWithHashCode compares two contexts by their latch alone. Java's `equals` first requires both to be of the same class, which the model does not represent.
- **World generation.**
  - Terrain noise (`generateBiomeTerrain`, `replaceBiomeBlocks`) and `java.util.Random` are not modelled. The bedrock floor takes the `nextInt(5)` draws as an input sequence.
  - The seeding in `populate` and the timings are not modelled.
  - The lakes' chance, liquid and height are not modelled. As written, the lava lake is built with water.
  - The `FilteredPopulator` conditions are not modelled.
  - The `getBiomesFromGenerator` branch for a vanilla biome provider is an engine call. It is not modelled.
  - The settings factory's defaults are an input.
  - Overflow of `chunkX * 16` in block coordinates is not modelled.
  - Events, the cause tracker's phases and the populators' own generation are engine calls. They are not modelled.
  - `generateStructures`, `getPossibleCreatures` and `recreateStructures` delegate to the engine. They are not modelled.
  - The overworld's `populate` is not modelled beyond its parts:
    - its chunk seed is the one `ChunkSeed` states;
    - `setBlocksInChunk` is vanilla terrain;
    - the float division of the buffer's corner by 16 is not modelled.
  - The overworld's `setBiomeGenerator` and the redirect in `setBlocksInChunk` are not modelled. They only store or forward the biome generator.
- **Dragon fight.**
  - The engine's answers during a tick are inputs (the `Engine` record): players, portal, live dragons, crystals, and whether a respawn restarts.
  - `process`, `respawnDragon`, the dragon's creation, `findAliveCrystals`, `loadChunks`, `generatePortal` and `setDead` are those inputs or are not observed.
  - DragonFight.RespawnPhase, DragonFight.WithPlayers, DragonFight.DragonFightManager.ProcessRespawn, DragonFight.DragonFightManager.HandlePlayers and DragonFight.DragonFightManager.Tick: a stage's `process` is an input that either does nothing to the manager or calls `setRespawnState` once. `setRespawnState` is vanilla code, not part of this model; it is modelled as vanilla's: `END` ends the respawn, marks the dragon alive and records the id of the dragon it creates, and any other stage is stored. What the stages do to the world (beams, pillars, explosions) is not observed.
  - Logging and the cause tracker's phase switch are not modelled.
- **Fishing hook.**
  - Loot tables, luck and item and orb motion are not modelled.
  - Orb experience values are not modelled.
  - The physics of `bringInHookedEntity` are not modelled.
  - The global cause stack is modelled as a field of the hook.
  - Listener changes to the transactions are an input function.
- **EntityPlayer.**
  - `EntityPlayer.XpAtLevel`: the model treats `Math.pow(level, 2)` and the products as exact. Double rounding for levels beyond 2^26 in magnitude is therefore not modelled.
  - `xpBarCap()` belongs to the engine. `XpBarCap` restates the vanilla formula.
  - `onDeath`, the sleeping and sound redirects, the display name and the other methods of the mixin need engine state. They are not modelled.
- **Out-of-scope mixins.** The combat, mob light-level, wolf taming and hopper mixins are not part of this model.
