/** The data model of the ep-scpi parser (epscpi.h): buffer capacities, the parser
    states, the invocation kinds, command records and a value view of a parser. */
module ParserTypes {

  /** Capacity of the command-name buffer and width of every command name. */
  const CmdLengthMax: nat := 4
  /** Capacity of the value buffer. */
  const ValueLengthMax: nat := 16

  datatype Option<T> = None | Some(value: T)

  /** The result type of handlers and of the feed call: a C `int8_t`. */
  type Int8 = x: int | -128 <= x < 128

  /** A fixed-width command name, or the command buffer holding one: exactly
      `CmdLengthMax` characters, no length field, padding included. */
  type Name = s: seq<char> | |s| == CmdLengthMax witness ['\0', '\0', '\0', '\0']

  /** The value buffer: exactly `ValueLengthMax` characters. */
  type ValueBuf = s: seq<char> | |s| == ValueLengthMax
    witness ['\0', '\0', '\0', '\0', '\0', '\0', '\0', '\0',
             '\0', '\0', '\0', '\0', '\0', '\0', '\0', '\0']

  /** The all-zero command buffer (what `memset(.., 0, CMD_LENGTH_MAX)` leaves). */
  const ZeroName: Name := ['\0', '\0', '\0', '\0']

  /** The all-zero value buffer (what `memset(.., 0, VALUE_LENGTH_MAX)` leaves). */
  const ZeroValue: ValueBuf := ['\0', '\0', '\0', '\0', '\0', '\0', '\0', '\0',
                                '\0', '\0', '\0', '\0', '\0', '\0', '\0', '\0']

  /** `enum parsestate_e`. */
  datatype State =
    | Error            // needs an external reset; no feed leaves it
    | SpaceTerminator  // a command has completed, waiting for a terminator
    | SpaceNextCmd     // between commands
    | Command          // reading a command name
    | SpaceValue       // after a command name: a value or the end of an event
    | Value            // reading a value

  /** `enum cmdtype_e` without `None`: a handler is only ever called with one of these;
      "no kind decided" is `Option.None`. */
  datatype CallKind = Event | Query | Set

  /** The mutable part of `struct epscpi_parser_t` as a value. */
  datatype Snapshot = Snapshot(
    state: State,
    cmdStr: Name,
    cmdLen: nat,
    valStr: ValueBuf,
    valLen: nat)

  /** A handler (`com_func_t`): it receives the parser, read-only here, and the
      invocation kind, and returns a status. */
  type Handler = (Snapshot, CallKind) -> Int8

  /** `struct epspi_command_t`. */
  datatype CommandRecord = CommandRecord(name: Name, handler: Handler)

  /** What one feed call did, before the handler's status is known. */
  datatype Reply =
    | Parsing                              // 0: OK, still parsing
    | SyntaxError                          // 1
    | NotFound(kind: CallKind)             // 2: a kind was decided, no record matched
    | Dispatched(index: nat, kind: CallKind) // record `index` is called with `kind`
  {
    /** The invocation kind decided by the call, if any. */
    function Kind(): Option<CallKind> {
      match this
      case NotFound(k) => Some(k)
      case Dispatched(_, k) => Some(k)
      case _ => None
    }
  }
}
