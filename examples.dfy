/** Concrete inputs against a two-record table: the common command `*RST` and the
    general command `FREQ`. */
module Examples {
  import opened ParserTypes
  import opened Chars
  import opened Lookup
  import opened Machine
  import opened StepFacts
  import opened Scenarios

  /** A table whose first record forms the common partition. */
  function DemoTable(h: Handler): seq<CommandRecord> {
    [CommandRecord(['*', 'R', 'S', 'T'], h), CommandRecord(['F', 'R', 'E', 'Q'], h)]
  }

  /** `*RST` followed by a line feed calls the common record as an event. */
  lemma ResetIsCommonEvent(h: Handler)
    ensures Run(Initial(), "*RST\n", DemoTable(h), 1).1
         == [Parsing, Parsing, Parsing, Parsing, Dispatched(0, Event)]
  {
    EventShape(Initial(), "*RST", [], '\n', DemoTable(h), 1);
    assert "*RST" + [] + ['\n'] == "*RST\n";
    assert NameBuffer("*RST") == ['*', 'R', 'S', 'T'];
  }

  /** `FREQ?` calls `FREQ` as a query on the `?`; the line feed after it only moves
      on to the next command. */
  lemma FreqQuery(h: Handler, input: seq<char>)
    requires input == "FREQ?\n"
    ensures var r := Run(Initial(), input, DemoTable(h), 1);
      r.1 == [Parsing, Parsing, Parsing, Parsing, Dispatched(1, Query), Parsing]
      && r.0.state == SpaceNextCmd
  {
    var t := DemoTable(h);
    var w, nl := "FREQ", "\n";
    QueryShape(Initial(), w, t, 1);
    assert NameBuffer(w) == ['F', 'R', 'E', 'Q'];
    RunAppend(Initial(), w + ['?'], nl, t, 1);
    assert input == (w + ['?']) + nl;
    var rq := Run(Initial(), w + ['?'], t, 1);
    assert rq.1 == [Parsing, Parsing, Parsing, Parsing, Dispatched(1, Query)];
    SpaceTerminatorRules(rq.0, '\n', t, 1);
    RunOne(rq.0, '\n', t, 1);
  }

  /** `FREQ 100` calls `FREQ` as a set on the line feed, with `100` in the value
      buffer; until the line feed arrives nothing is called. */
  lemma FreqSet(h: Handler, input: seq<char>)
    requires input == "FREQ 100\n"
    ensures var r := Run(Initial(), input, DemoTable(h), 1);
      && AllParsing(r.1[..8])
      && r.1[8] == Dispatched(1, Set)
      && r.0.valStr[..4] == ['1', '0', '0', '\0'] && r.0.valLen == 3
      && r.0.state == SpaceNextCmd
  {
    var t := DemoTable(h);
    var w, g, v := "FREQ", " ", "100";
    SetShape(Initial(), w, g, v, '\n', t, 1);
    assert NameBuffer(w) == ['F', 'R', 'E', 'Q'];
    assert input == w + g + v + ['\n'];
    assert ValueBuffer(v)[..4] == ['1', '0', '0', '\0'];
  }

  /** The path prefix `:SYST:` is swallowed: the parser is back between commands
      and nothing was invoked. */
  lemma PathPrefixSwallowed(h: Handler, prefix: seq<char>)
    requires prefix == ":SYST:"
    ensures var r := Run(Initial(), prefix, DemoTable(h), 1);
      r.0.state == SpaceNextCmd && AllParsing(r.1)
  {
    var t := DemoTable(h);
    var s0 := Initial();
    var path := "SYST";
    SpaceNextCmdRules(s0, ':', t, 1);
    RunOne(s0, ':', t, 1);
    PathSegmentDiscarded(s0, path, t, 1);
    RunAppend(s0, [':'], path + [':'], t, 1);
    assert prefix == [':'] + (path + [':']);
    AllParsingAppend([Parsing], Run(s0, path + [':'], t, 1).1);
  }

  /** `FREQ 5;` fed between commands calls `FREQ` as a set on the `;`. */
  lemma FreqFiveSet(h: Handler, s: Snapshot, cmd: seq<char>)
    requires Wf(s) && s.state == SpaceNextCmd
    requires cmd == "FREQ 5;"
    ensures var r := Run(s, cmd, DemoTable(h), 1);
      AllParsing(r.1[..6]) && r.1[6] == Dispatched(1, Set) && r.0.state == SpaceNextCmd
  {
    var w, g, v := "FREQ", " ", "5";
    SetShape(s, w, g, v, ';', DemoTable(h), 1);
    assert NameBuffer(w) == ['F', 'R', 'E', 'Q'];
    assert cmd == w + g + v + [';'];
  }

  /** Leading and embedded colons are discarded: `:SYST:FREQ 5;` only calls `FREQ`,
      as a set, on the semicolon. */
  lemma ColonPathCallsLastName(h: Handler, input: seq<char>)
    requires input == ":SYST:FREQ 5;"
    ensures var r := Run(Initial(), input, DemoTable(h), 1);
      AllParsing(r.1[..12]) && r.1[12] == Dispatched(1, Set) && r.0.state == SpaceNextCmd
  {
    var t := DemoTable(h);
    var prefix, cmd := input[..6], input[6..];
    assert prefix == ":SYST:" && cmd == "FREQ 5;";
    PathPrefixSwallowed(h, prefix);
    var ra := Run(Initial(), prefix, t, 1);
    FreqFiveSet(h, ra.0, cmd);
    RunAppend(Initial(), prefix, cmd, t, 1);
    assert input == prefix + cmd;
    var rb := Run(ra.0, cmd, t, 1);
    assert (ra.1 + rb.1)[..12] == ra.1 + rb.1[..6];
    AllParsingAppend(ra.1, rb.1[..6]);
  }

  /** Text after a completed query and before a terminator is a syntax error, and
      the parser stays in `Error`. */
  lemma TrailingTextIsSyntaxError(h: Handler, input: seq<char>)
    requires input == "FREQ?x\n"
    ensures var r := Run(Initial(), input, DemoTable(h), 1);
      r.1[4] == Dispatched(1, Query) && r.1[5] == SyntaxError && r.1[6] == SyntaxError
      && r.0.state == Error
  {
    var t := DemoTable(h);
    var w, rest := "FREQ", "x\n";
    QueryShape(Initial(), w, t, 1);
    assert NameBuffer(w) == ['F', 'R', 'E', 'Q'];
    RunAppend(Initial(), w + ['?'], rest, t, 1);
    assert input == (w + ['?']) + rest;
    var rq := Run(Initial(), w + ['?'], t, 1);
    SpaceTerminatorRules(rq.0, 'x', t, 1);
    var s2 := rq.0.(state := Error);
    ErrorAbsorbsInput(s2, "\n", t, 1);
    RunAppend(rq.0, "x", "\n", t, 1);
    RunOne(rq.0, 'x', t, 1);
    assert rest == "x" + "\n";
  }

  /** An over-long, lower-case name is truncated and case-folded: `frequency` calls
      `FREQ`, like `FREQ` itself. */
  lemma LongNameTruncated(h: Handler, input: seq<char>)
    requires input == "frequency\n"
    ensures Run(Initial(), input, DemoTable(h), 1).1[9] == Dispatched(1, Event)
  {
    var t := DemoTable(h);
    var w := "frequency";
    EventShape(Initial(), w, [], '\n', t, 1);
    assert input == w + [] + ['\n'];
    assert NameBuffer(w) == ['F', 'R', 'E', 'Q'];
  }
}
