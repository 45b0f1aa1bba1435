# ep-scpi parser model

A Dafny model of ep-scpi, a streaming parser for a loose subset of SCPI. An
embedded device feeds it one character at a time. The parser classifies each
character (`char_nature`). A six-state machine (`epscpi_feed_char`) collects a
command name into a 4-slot buffer and a value into a 16-slot buffer. When an
invocation is complete (an event, a query or a set), the parser looks the
name up in a command table (`spcom_find_command`) and returns the handler's
status.

The model follows the source file by file:

- `types.dfy` (module `ParserTypes`) holds the data of `epscpi.h`:
  - the capacities `CmdLengthMax = 4` and `ValueLengthMax = 16`;
  - the states and the invocation kinds;
  - fixed-width names and command records;
  - `Snapshot`, the parser's mutable fields as a value.
- `chars.dfy` (module `Chars`) is `char_nature` and the upper-casing of name characters.
- `lookup.dfy` (module `Lookup`) is `spcom_find_command`:
  - `FindCommand` is the loop as written;
  - `FirstMatch` is the function it is proved equal to.
- `machine.dfy` (module `Machine`) is `epscpi_feed_char` as a function `Step` on
  snapshots:
  - each case that can fall through is one function, and a case without `break`
    calls the next one on the same character (`case SpaceTerminator` and
    `default` are arms inside `Step`);
  - `Complete` is the code after the `switch`;
  - `Run` feeds a whole string.
- `parser.dfy` (module `Parser`) is the parser object:
  - class `Parser` has the C fields (the buffers are `array<char>` and the table
    fields are `const`);
  - `FeedChar` updates them in place, is proved to move the object exactly as
    `Step` says and keeps the class invariant.
- `step_facts.dfy` (module `StepFacts`) proves what one call does in each state,
  and that the invariant and the sticky `Error` state hold over any run.
- `scenarios.dfy` (module `Scenarios`) proves which whole inputs give an event, a
  query or a set, and with which name and value buffers.
- `examples.dfy` (module `Examples`) works through concrete inputs against a table
  holding `*RST` (common) and `FREQ`.

Handlers are external code. A handler is a function from the parser snapshot and
the invocation kind to an `int8` status. `Step` returns a `Reply`:

- `Parsing` (code 0);
- `SyntaxError` (code 1);
- `NotFound(kind)` (code 2);
- `Dispatched(index, kind)`, whose code is the handler's status.

`ReturnCode` turns a reply into the feed call's return value.

The source has no initialisation or reset routine. The constructor of `Parser`
binds a table and starts in `SpaceNextCmd` with both lengths 0 and zeroed
buffers.

Where a stricter reading of the protocol would differ, the model follows the code:

- a `*` token is searched from index 0 up to the end of the table, not only
  within the common partition (epscpi.c:194);
- the value buffer may fill all 16 slots, and no NUL is ever written after a
  value (epscpi.c:135-138);
- a query fires on the `?` itself, not on the terminator after it (epscpi.c:74-77);
- `m_error` is never written (epscpi.h:63 and epscpi.c:142-146);
- an event leaves the value buffer as the previous set left it.

## Model

| member | source | states |
|---|---|---|
| Chars.CharNature | epscpi.c:6-24 | the nature is `Terminator` exactly for NUL, LF, CR and `;`, `Whitespace` exactly for space, tab, VT and FF, and `Normal` for every other character |
| Chars.NatureCodes | epscpi.h:67-74 | the returned code is 2 exactly for the terminators, 1 exactly for the whitespace characters and 0 for all others |
| Chars.Upper | epscpi.c:97-100 | a lower-case ASCII letter becomes the letter 32 code points lower (bit 5 cleared), any other character is kept |
| Chars.UpperKeepsNature | epscpi.c:97-100 | upper-casing keeps a character's nature, is idempotent and never yields a lower-case letter |
| Lookup.SameNameIsEquality | epscpi.c:197-205 | comparing the four slots 0..3 one by one is equality of the fixed-width names, padding included |
| Lookup.SearchStart | epscpi.c:191-194 | the search starts at 0 for a token beginning with `*`, and at the common count otherwise |
| Lookup.FirstMatchFrom | epscpi.c:194-208 | the result is the lowest index at or after the start whose record has the token's name; `None` exactly when no record from the start on has it |
| Lookup.FindCommand | epscpi.c:185-209 | the loop returns exactly the first match from the partitioned start index, or `None` (NULL) |
| Lookup.FirstMatchIsLowest | epscpi.c:194-208 | the lookup returns the lowest matching index in `[start, table size)`, and `None` iff no record in that range matches |
| Lookup.GeneralTokensSkipCommonPartition | epscpi.c:192-194 | a token not beginning with `*` never resolves to an index below the common count |
| Lookup.CommonTokensPreferCommonPartition | epscpi.c:192-195 | a `*` token resolves below the common count when a common record matches, or when no general record begins with `*` |
| Lookup.CommonTokenCanResolvePastPartition | epscpi.c:194-195 | a `*` token can resolve to a record outside the common partition: with `*RST` as the only common record, `*IDN` resolves to the general record at index 1 |
| Machine.Initial | epscpi.h:44-65 | the initial parser keeps the invariant and waits for a command |
| Machine.Resolve | epscpi.c:169-179 | a decided kind is dispatched to a record with the name in the buffer, keeping the kind, or reported as not found |
| Machine.Step | epscpi.c:32-182 | one feed keeps both length counters within the buffer capacities and dispatches only to an index inside the table |
| Machine.ReturnCode | epscpi.c:171-181 | the return value is 0 while parsing, 1 on a syntax error, 2 when the name is not found, and otherwise the handler's status, unchanged, for the kind decided |
| Machine.Run | epscpi.c:26-32 | feeding a string gives one reply per character and keeps the length bounds |
| Parser.Parser.constructor | epscpi.h:44-65 | a new parser holds the given table and common count, has fresh 4- and 16-slot buffers, and is in the initial snapshot |
| Parser.Parser.ClearName | epscpi.c:68 | the name buffer is all zero characters |
| Parser.Parser.ClearValue | epscpi.c:122 | the value buffer is all zero characters |
| Parser.Parser.FeedChar | epscpi.c:32-182 | the object's state, counters and buffers move exactly as `Step` says; the reply is `Step`'s; the code is the reply's return code with the handler called on the updated parser; the invariant is kept and the table is constant |
| StepFacts.ErrorIsSticky | epscpi.c:142-146 | in `Error` every character returns a syntax error and changes nothing, with no lookup and no handler call |
| StepFacts.SpaceTerminatorRules | epscpi.c:45-59 | after a completed command a normal character is a syntax error and enters `Error`, whitespace is skipped, and a terminator moves to `SpaceNextCmd` |
| StepFacts.SpaceNextCmdRules | epscpi.c:61-69 | between commands `:`, whitespace and terminators return 0 and change nothing; any other character zero-fills the name buffer, sets its length to 0 and is processed again as `Command` |
| StepFacts.CommandFallsIntoSpaceValue | epscpi.c:86-91 | in `Command`, whitespace or a terminator ends the name and is processed again as `SpaceValue` |
| StepFacts.SpaceValueFallsIntoValue | epscpi.c:118-122 | in `SpaceValue`, a normal character zero-fills the value buffer, sets its length to 0 and is processed again as `Value` |
| StepFacts.ColonAbandonsName | epscpi.c:79-85 | a `:` in `Command` returns to `SpaceNextCmd` with no invocation |
| StepFacts.NameCharacterStored | epscpi.c:92-101 | a name character is stored upper-cased at the current length, and the length grows by 1, while the length is below 4; once the buffer is full it is dropped and 0 is returned |
| StepFacts.ValueCharacterStored | epscpi.c:132-139 | a value character is stored raw at the current length, and the length grows by 1, while the length is below 16; once the buffer is full it is dropped without error |
| StepFacts.StepKeepsInv | epscpi.c:94-101 | every feed keeps `cmdLen <= 4`, `valLen <= 16`, and a non-empty name in `Command`, `SpaceValue` and `Value` |
| StepFacts.KindDecision | epscpi.c:74-131 | `Query` is decided iff `?` arrives in `Command`; `Event` iff a terminator arrives in `Command` or `SpaceValue`; `Set` iff whitespace or a terminator arrives in `Value`; no other path decides a kind |
| StepFacts.SyntaxErrorCases | epscpi.c:45-156 | a syntax error happens exactly in `Error`, on a normal character in `SpaceTerminator`, or on a `?` between commands (an empty name); it always leaves the parser in `Error` |
| StepFacts.CompletionRules | epscpi.c:149-181 | after a decided kind the name is non-empty, the state is `SpaceNextCmd` after a terminator and `SpaceTerminator` otherwise, and the command is dispatched iff the first-match lookup of the name buffer succeeds, to that index |
| StepFacts.UndecidedReturnsZeroOrOne | epscpi.h:76-82 | when no kind is decided the call returns 0 or 1 |
| StepFacts.RunKeepsInv | epscpi.c:32-182 | any run of feeds keeps the parser invariant |
| StepFacts.ErrorAbsorbsInput | epscpi.h:19 | once in `Error`, every further character returns a syntax error and the parser is unchanged |
| StepFacts.RunAppend | epscpi.c:26-32 | feeding `a + b` is feeding `a`, then `b` from where `a` left the parser |
| Scenarios.NameBufferSnoc | epscpi.c:94-100 | appending a name character changes the name buffer only in slot `length` and only while it has room |
| Scenarios.ValueBufferSnoc | epscpi.c:134-138 | appending a value character changes the value buffer only in slot `length` and only while it has room |
| Scenarios.TruncatedNamesCollide | epscpi.c:94-100 | two names whose first four characters agree after upper-casing fill the name buffer identically |
| Scenarios.ReadName | epscpi.c:92-101 | feeding name characters in `Command` returns 0 each time and leaves the upper-cased, truncated, zero-padded name in the buffer |
| Scenarios.ReadValue | epscpi.c:132-139 | feeding value characters in `Value` returns 0 each time and leaves the raw, truncated, zero-padded value in the buffer |
| Scenarios.SkipSpace | epscpi.c:112-116 | whitespace after a name returns 0 and changes nothing |
| Scenarios.StartName | epscpi.c:61-101 | a name fed between commands returns 0 for each character and leaves the parser in `Command` holding that name |
| Scenarios.RunOne | epscpi.c:32-41 | feeding a one-character string is one feed call |
| Scenarios.EventShape | epscpi.c:105-111 | a name, optional whitespace and a terminator return 0 until the terminator, which dispatches the name as `Event`; the parser then waits for the next command |
| Scenarios.QueryShape | epscpi.c:74-77 | a name followed by `?` dispatches the name as `Query` on the `?` itself; the parser then waits for a terminator |
| Scenarios.SetShape | epscpi.c:105-131 | a name, whitespace, a value, then whitespace or a terminator dispatches the name as `Set` on that last character, with the value's first 16 characters in the value buffer |
| Scenarios.PathSegmentDiscarded | epscpi.c:79-85 | a name followed by `:` invokes nothing and leaves the parser between commands |
| Scenarios.SkipSeparators | epscpi.c:61-64 | between commands, any run of colons, whitespace and terminators returns 0 for each character and leaves the parser exactly as it was |
| Scenarios.AwaitTerminator | epscpi.c:45-59 | after a query, whitespace returns 0 and changes nothing, and a terminator returns 0 and moves on to the next command |
| Scenarios.QueryLineShape | epscpi.c:45-77 | a name, `?`, optional whitespace and a terminator make exactly one call, the `Query` dispatch on the `?`; every other character returns 0 and the parser ends waiting for the next command with the name in its buffer |
| Examples.ResetIsCommonEvent | epscpi.c:191-206 | `*RST` then LF calls the common record 0 as `Event` on the LF and returns 0 before it |
| Examples.FreqQuery | epscpi.c:74-77 | `FREQ?` then LF calls `FREQ` as `Query` on the `?`; the LF only moves to `SpaceNextCmd` |
| Examples.FreqSet | epscpi.c:124-131 | `FREQ 100` then LF calls `FREQ` as `Set` on the LF with `100` in the value buffer; nothing is called before it |
| Examples.PathPrefixSwallowed | epscpi.c:61-85 | `:SYST:` invokes nothing and leaves the parser between commands |
| Examples.FreqFiveSet | epscpi.c:105-131 | `FREQ 5;` fed between commands calls `FREQ` as `Set` on the `;` and returns 0 before it |
| Examples.ColonPathCallsLastName | epscpi.c:79-85 | `:SYST:FREQ 5;` calls only `FREQ`, as `Set`, on the `;` |
| Examples.TrailingTextIsSyntaxError | epscpi.c:45-53 | text after a completed query and before a terminator is a syntax error, and the parser stays in `Error` |
| Examples.LongNameTruncated | epscpi.c:94-100 | the over-long lower-case name `frequency` calls `FREQ` |

## Left out

- Handler bodies and the function-pointer call are external code. A handler is modelled as a pure function of a read-only parser snapshot and the invocation kind. The model assumes a handler does not change the parser, although it receives its pointer.
- Handler status: handlers return `uint8_t` and the feed call returns `int8_t`. The model takes the status as an `int8` value directly and does not model the C conversion.
- Reset: no reset or initialisation routine is part of the source, so `Error` can only be left by constructing a new parser. The constructor's initial state is a modelling choice.
- Unlisted state values: the `default:` branch of the `switch` is reached only from `Error`, because the model's state type has exactly the six listed states.
- Storage layout: the union of `m_valStr` with `m_error` is not modelled (byte overlap is C storage layout, and `m_error` is never written). Neither is C `char` signedness (characters are Dafny `char`).
- Commented-out code: `is_separator` and `is_whitespace` in epscpi.h are commented out and are not modelled.
- Missing code: the numeric, boolean and decimal-formatting routines used by handlers are not part of this model. Their source is not among the modelled files.
- Concurrency: a parser is single-writer state, and there is nothing to model.
