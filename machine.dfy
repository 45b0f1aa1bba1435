/** `epscpi_feed_char` as a function on parser snapshots. The `switch` with its
    fall-through cascade SpaceNextCmd -> Command -> SpaceValue -> Value is one
    function per case that can fall through, each calling the next one on the same
    character; `Complete` is the code after the `switch`. */
module Machine {
  import opened ParserTypes
  import opened Chars
  import opened Lookup

  /** Bounds of the two length counters. */
  predicate Wf(s: Snapshot) {
    s.cmdLen <= CmdLengthMax && s.valLen <= ValueLengthMax
  }

  /** In the states that follow the first stored name character, the name is
      not empty. */
  predicate NamePending(s: Snapshot) {
    (s.state == Command || s.state == SpaceValue || s.state == Value) ==> s.cmdLen > 0
  }

  /** The invariant every feed keeps. */
  predicate Inv(s: Snapshot) {
    Wf(s) && NamePending(s)
  }

  /** The state the parser is constructed in (no reset routine exists in the source). */
  function Initial(): (s: Snapshot)
    ensures Inv(s) && s.state == SpaceNextCmd
  {
    Snapshot(SpaceNextCmd, ZeroName, 0, ZeroValue, 0)
  }

  /** What the `switch` leaves: the new snapshot and the decided kind, if any. */
  datatype Scan = Scan(after: Snapshot, call: Option<CallKind>)

  /** What a feed call leaves: the new snapshot and its reply. */
  datatype StepResult = StepResult(next: Snapshot, reply: Reply)

  /** `case SpaceNextCmd`: colons, whitespace and terminators are skipped; any other
      character starts a name with a zeroed buffer and falls through to `Command`. */
  function AtSpaceNextCmd(s: Snapshot, c: char): Scan
    requires Wf(s)
  {
    if c == ':' || CharNature(c) != Normal then Scan(s, None)
    else AtCommand(s.(state := Command, cmdLen := 0, cmdStr := ZeroName), c)
  }

  /** `case Command`: `?` decides a query, `:` abandons the name, whitespace or a
      terminator ends the name and falls through to `SpaceValue`, and any other
      character is stored upper-cased while the buffer has room. */
  function AtCommand(s: Snapshot, c: char): Scan
    requires Wf(s)
  {
    if c == '?' then Scan(s, Some(Query))
    else if c == ':' then Scan(s.(state := SpaceNextCmd), None)
    else if CharNature(c) != Normal then AtSpaceValue(s.(state := SpaceValue), c)
    else if s.cmdLen == CmdLengthMax then Scan(s, None)
    else Scan(s.(cmdStr := s.cmdStr[s.cmdLen := Upper(c)], cmdLen := s.cmdLen + 1), None)
  }

  /** `case SpaceValue`: a terminator decides an event, whitespace is skipped, and any
      other character starts a value with a zeroed buffer and falls through to `Value`. */
  function AtSpaceValue(s: Snapshot, c: char): Scan
    requires Wf(s)
  {
    if CharNature(c) == Terminator then Scan(s, Some(Event))
    else if CharNature(c) == Whitespace then Scan(s, None)
    else AtValue(s.(state := Value, valLen := 0, valStr := ZeroValue), c)
  }

  /** `case Value`: whitespace or a terminator decides a set; any other character is
      stored as it is while the buffer has room. */
  function AtValue(s: Snapshot, c: char): Scan
    requires Wf(s)
  {
    if CharNature(c) != Normal then Scan(s, Some(Set))
    else if s.valLen == ValueLengthMax then Scan(s, None)
    else Scan(s.(valStr := s.valStr[s.valLen := c], valLen := s.valLen + 1), None)
  }

  /** The code after the `switch`: nothing happens unless a kind was decided; a
      decided kind with an empty name is a syntax error; otherwise the state moves
      on (to `SpaceNextCmd` on a terminator, else to `SpaceTerminator`) and the
      name is looked up. */
  function Complete(s: Snapshot, call: Option<CallKind>, c: char,
                    table: seq<CommandRecord>, commonCount: nat): StepResult
  {
    match call
    case None => StepResult(s, Parsing)
    case Some(k) =>
      if s.cmdLen == 0 then StepResult(s.(state := Error), SyntaxError)
      else
        var t := s.(state := if CharNature(c) == Terminator then SpaceNextCmd else SpaceTerminator);
        StepResult(t, Resolve(table, commonCount, s.cmdStr, k))
  }

  /** The reply for a decided kind: the matching record is called, or the name is
      not found. */
  function Resolve(table: seq<CommandRecord>, commonCount: nat, name: Name, k: CallKind): (r: Reply)
    ensures r.Kind() == Some(k)
    ensures r.Dispatched? ==> r.index < |table| && table[r.index].name == name
  {
    match FirstMatch(table, commonCount, name)
    case None => NotFound(k)
    case Some(i) => Dispatched(i, k)
  }

  /** One call of `epscpi_feed_char`, up to the handler call. */
  function Step(s: Snapshot, c: char, table: seq<CommandRecord>, commonCount: nat): (r: StepResult)
    requires Wf(s)
    ensures Wf(r.next)
    ensures r.reply.Dispatched? ==> r.reply.index < |table|
  {
    match s.state
    case SpaceTerminator =>
      if CharNature(c) == Normal then StepResult(s.(state := Error), SyntaxError)
      else if CharNature(c) == Terminator then StepResult(s.(state := SpaceNextCmd), Parsing)
      else StepResult(s, Parsing)
    case SpaceNextCmd => var sc := AtSpaceNextCmd(s, c); Complete(sc.after, sc.call, c, table, commonCount)
    case Command => var sc := AtCommand(s, c); Complete(sc.after, sc.call, c, table, commonCount)
    case SpaceValue => var sc := AtSpaceValue(s, c); Complete(sc.after, sc.call, c, table, commonCount)
    case Value => var sc := AtValue(s, c); Complete(sc.after, sc.call, c, table, commonCount)
    case Error => StepResult(s.(state := Error), SyntaxError)
  }

  /** The feed call's return value: 0, 1 or 2 from the parser itself, or the
      status of the handler, called with the parser as the step left it. */
  function ReturnCode(r: Reply, table: seq<CommandRecord>, after: Snapshot): (code: Int8)
    requires r.Dispatched? ==> r.index < |table|
    ensures r.Parsing? ==> code == 0
    ensures r.SyntaxError? ==> code == 1
    ensures r.NotFound? ==> code == 2
    ensures r.Dispatched? ==> code == table[r.index].handler(after, r.kind)
  {
    match r
    case Parsing => 0
    case SyntaxError => 1
    case NotFound(_) => 2
    case Dispatched(i, k) => table[i].handler(after, k)
  }

  /** Feeding a whole string, one character after the other: the final snapshot
      and the reply of every call. */
  function Run(s: Snapshot, input: seq<char>, table: seq<CommandRecord>, commonCount: nat): (r: (Snapshot, seq<Reply>))
    requires Wf(s)
    ensures Wf(r.0) && |r.1| == |input|
    decreases |input|
  {
    if input == [] then (s, [])
    else
      var st := Step(s, input[0], table, commonCount);
      var rest := Run(st.next, input[1..], table, commonCount);
      (rest.0, [st.reply] + rest.1)
  }
}
