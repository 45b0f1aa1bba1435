/** What one feed call does, state by state, and what a run of feed calls keeps. */
module StepFacts {
  import opened ParserTypes
  import opened Chars
  import opened Lookup
  import opened Machine

  /** `Error` is sticky: every character gives a syntax error and changes nothing,
      and no lookup or handler call happens. */
  lemma ErrorIsSticky(s: Snapshot, c: char, table: seq<CommandRecord>, commonCount: nat)
    requires Wf(s) && s.state == Error
    ensures Step(s, c, table, commonCount) == StepResult(s, SyntaxError)
  {
  }

  /** After a completed command: a normal character is a syntax error, whitespace
      is skipped, a terminator moves on to the next command. */
  lemma SpaceTerminatorRules(s: Snapshot, c: char, table: seq<CommandRecord>, commonCount: nat)
    requires Wf(s) && s.state == SpaceTerminator
    ensures var r := Step(s, c, table, commonCount);
      && (CharNature(c) == Normal ==> r == StepResult(s.(state := Error), SyntaxError))
      && (CharNature(c) == Whitespace ==> r == StepResult(s, Parsing))
      && (CharNature(c) == Terminator ==> r == StepResult(s.(state := SpaceNextCmd), Parsing))
  {
  }

  /** Between commands, colons, whitespace and terminators are skipped; any other
      character zero-fills the name buffer and is processed again as `Command`. */
  lemma SpaceNextCmdRules(s: Snapshot, c: char, table: seq<CommandRecord>, commonCount: nat)
    requires Wf(s) && s.state == SpaceNextCmd
    ensures c == ':' || CharNature(c) != Normal ==> Step(s, c, table, commonCount) == StepResult(s, Parsing)
    ensures c != ':' && CharNature(c) == Normal ==>
      Step(s, c, table, commonCount) == Step(s.(state := Command, cmdLen := 0, cmdStr := ZeroName), c, table, commonCount)
  {
  }

  /** While reading a name, whitespace or a terminator ends it and is processed
      again as `SpaceValue`. */
  lemma CommandFallsIntoSpaceValue(s: Snapshot, c: char, table: seq<CommandRecord>, commonCount: nat)
    requires Wf(s) && s.state == Command && CharNature(c) != Normal
    ensures Step(s, c, table, commonCount) == Step(s.(state := SpaceValue), c, table, commonCount)
  {
  }

  /** After a name, a normal character zero-fills the value buffer and is processed
      again as `Value`. */
  lemma SpaceValueFallsIntoValue(s: Snapshot, c: char, table: seq<CommandRecord>, commonCount: nat)
    requires Wf(s) && s.state == SpaceValue && CharNature(c) == Normal
    ensures Step(s, c, table, commonCount)
         == Step(s.(state := Value, valLen := 0, valStr := ZeroValue), c, table, commonCount)
  {
  }

  /** A colon inside a name abandons it, with no invocation. */
  lemma ColonAbandonsName(s: Snapshot, table: seq<CommandRecord>, commonCount: nat)
    requires Wf(s) && s.state == Command
    ensures Step(s, ':', table, commonCount) == StepResult(s.(state := SpaceNextCmd), Parsing)
  {
  }

  /** A name character is stored upper-cased at `cmdLen` while the buffer has room
      and dropped without error once it is full. */
  lemma NameCharacterStored(s: Snapshot, c: char, table: seq<CommandRecord>, commonCount: nat)
    requires Wf(s) && s.state == Command
    requires CharNature(c) == Normal && c != ':' && c != '?'
    ensures var r := Step(s, c, table, commonCount);
      && r.reply == Parsing
      && r.next.state == Command
      && (s.cmdLen < CmdLengthMax ==>
            r.next == s.(cmdStr := s.cmdStr[s.cmdLen := Upper(c)], cmdLen := s.cmdLen + 1))
      && (s.cmdLen == CmdLengthMax ==> r.next == s)
  {
  }

  /** A value character is stored as it is at `valLen` while the buffer has room
      (all 16 slots) and dropped without error once it is full. */
  lemma ValueCharacterStored(s: Snapshot, c: char, table: seq<CommandRecord>, commonCount: nat)
    requires Wf(s) && s.state == Value && CharNature(c) == Normal
    ensures var r := Step(s, c, table, commonCount);
      && r.reply == Parsing
      && (s.valLen < ValueLengthMax ==>
            r.next == s.(valStr := s.valStr[s.valLen := c], valLen := s.valLen + 1))
      && (s.valLen == ValueLengthMax ==> r.next == s)
  {
  }

  /** Every feed keeps the length bounds and the non-empty name of the reading states. */
  lemma StepKeepsInv(s: Snapshot, c: char, table: seq<CommandRecord>, commonCount: nat)
    requires Inv(s)
    ensures Inv(Step(s, c, table, commonCount).next)
  {
  }

  /** Which inputs decide which invocation kind, and that no other path decides one. */
  lemma KindDecision(s: Snapshot, c: char, table: seq<CommandRecord>, commonCount: nat)
    requires Inv(s)
    ensures var k := Step(s, c, table, commonCount).reply.Kind();
      && (k == Some(Query) <==> s.state == Command && c == '?')
      && (k == Some(Event) <==> (s.state == Command || s.state == SpaceValue) && CharNature(c) == Terminator)
      && (k == Some(Set) <==> s.state == Value && CharNature(c) != Normal)
  {
  }

  /** The syntax errors: normal text after a completed command, the sticky `Error`
      state, and a `?` met between commands (a query with an empty name). */
  lemma SyntaxErrorCases(s: Snapshot, c: char, table: seq<CommandRecord>, commonCount: nat)
    requires Inv(s)
    ensures var r := Step(s, c, table, commonCount);
      && (r.reply == SyntaxError <==>
            s.state == Error
            || (s.state == SpaceTerminator && CharNature(c) == Normal)
            || (s.state == SpaceNextCmd && c == '?'))
      && (r.reply == SyntaxError ==> r.next.state == Error)
  {
  }

  /** When a kind is decided with a non-empty name, the parser waits for the next
      command after a terminator and for a terminator otherwise, and the reply is
      the first-match lookup of the name buffer. */
  lemma CompletionRules(s: Snapshot, c: char, table: seq<CommandRecord>, commonCount: nat)
    requires Inv(s)
    ensures var r := Step(s, c, table, commonCount);
      r.reply.Kind().Some? ==>
        && r.next.cmdLen > 0
        && r.next.state == (if CharNature(c) == Terminator then SpaceNextCmd else SpaceTerminator)
        && (r.reply.Dispatched? <==> FirstMatch(table, commonCount, r.next.cmdStr).Some?)
        && (r.reply.Dispatched? ==> r.reply.index == FirstMatch(table, commonCount, r.next.cmdStr).value)
  {
  }

  /** When no kind is decided the reply is `Parsing` or a syntax error, and the
      returned code is 0 or 1. */
  lemma UndecidedReturnsZeroOrOne(s: Snapshot, c: char, table: seq<CommandRecord>, commonCount: nat)
    requires Wf(s)
    ensures var r := Step(s, c, table, commonCount);
      r.reply.Kind().None? ==> ReturnCode(r.reply, table, r.next) in {0, 1}
  {
  }

  /** A run keeps the invariant. */
  lemma {:induction false} RunKeepsInv(s: Snapshot, input: seq<char>, table: seq<CommandRecord>, commonCount: nat)
    requires Inv(s)
    ensures Inv(Run(s, input, table, commonCount).0)
    decreases |input|
  {
    if input != [] {
      StepKeepsInv(s, input[0], table, commonCount);
      RunKeepsInv(Step(s, input[0], table, commonCount).next, input[1..], table, commonCount);
    }
  }

  /** Once in `Error`, no input leaves it: every call is a syntax error and the
      parser is left exactly as it was. */
  lemma {:induction false} ErrorAbsorbsInput(s: Snapshot, input: seq<char>, table: seq<CommandRecord>, commonCount: nat)
    requires Wf(s) && s.state == Error
    ensures Run(s, input, table, commonCount).0 == s
    ensures forall i :: 0 <= i < |input| ==> Run(s, input, table, commonCount).1[i] == SyntaxError
    decreases |input|
  {
    if input != [] {
      ErrorAbsorbsInput(s, input[1..], table, commonCount);
    }
  }

  /** Feeding `a + b` is feeding `a`, then `b` from where `a` left the parser. */
  lemma {:induction false} RunAppend(s: Snapshot, a: seq<char>, b: seq<char>, table: seq<CommandRecord>, commonCount: nat)
    requires Wf(s)
    ensures var ra := Run(s, a, table, commonCount);
      var rb := Run(ra.0, b, table, commonCount);
      Run(s, a + b, table, commonCount) == (rb.0, ra.1 + rb.1)
    decreases |a|
  {
    if a != [] {
      var st := Step(s, a[0], table, commonCount);
      assert (a + b)[0] == a[0];
      assert (a + b)[1..] == a[1..] + b;
      RunAppend(st.next, a[1..], b, table, commonCount);
      var ra' := Run(st.next, a[1..], table, commonCount);
      var rb := Run(ra'.0, b, table, commonCount);
      assert [st.reply] + (ra'.1 + rb.1) == ([st.reply] + ra'.1) + rb.1;
    } else {
      var rb := Run(s, b, table, commonCount);
      assert a + b == b;
      assert [] + rb.1 == rb.1;
    }
  }
}
