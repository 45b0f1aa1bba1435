/** What feeding whole command strings does: which shapes of input give an event,
    a query or a set, with which name and value buffers. */
module Scenarios {
  import opened ParserTypes
  import opened Chars
  import opened Lookup
  import opened Machine
  import opened StepFacts

  /** A character that can be part of a command name. */
  predicate NameChar(c: char) {
    CharNature(c) == Normal && c != ':' && c != '?'
  }

  predicate AllNameChars(w: seq<char>) {
    forall i :: 0 <= i < |w| ==> NameChar(w[i])
  }

  predicate AllNormal(v: seq<char>) {
    forall i :: 0 <= i < |v| ==> CharNature(v[i]) == Normal
  }

  predicate AllWhitespace(g: seq<char>) {
    forall i :: 0 <= i < |g| ==> CharNature(g[i]) == Whitespace
  }

  predicate AllParsing(rs: seq<Reply>) {
    forall i :: 0 <= i < |rs| ==> rs[i] == Parsing
  }

  function Min(a: nat, b: nat): nat {
    if a < b then a else b
  }

  /** The name buffer after reading the name `w`: its first `CmdLengthMax`
      characters upper-cased, zero-padded. */
  function NameBuffer(w: seq<char>): Name {
    seq(CmdLengthMax, i requires 0 <= i < CmdLengthMax => if i < |w| then Upper(w[i]) else '\0')
  }

  /** The value buffer after reading the value `v`: its first `ValueLengthMax`
      characters as they are, zero-padded. */
  function ValueBuffer(v: seq<char>): ValueBuf {
    seq(ValueLengthMax, i requires 0 <= i < ValueLengthMax => if i < |v| then v[i] else '\0')
  }

  /** Appending a character to the name changes the buffer only while it has room. */
  lemma NameBufferSnoc(p: seq<char>, c: char)
    ensures |p| < CmdLengthMax ==> NameBuffer(p + [c]) == NameBuffer(p)[|p| := Upper(c)]
    ensures |p| >= CmdLengthMax ==> NameBuffer(p + [c]) == NameBuffer(p)
  {
    if |p| < CmdLengthMax {
      assert forall i :: 0 <= i < CmdLengthMax ==> NameBuffer(p + [c])[i] == NameBuffer(p)[|p| := Upper(c)][i];
    } else {
      assert forall i :: 0 <= i < CmdLengthMax ==> NameBuffer(p + [c])[i] == NameBuffer(p)[i];
    }
  }

  lemma ValueBufferSnoc(p: seq<char>, c: char)
    ensures |p| < ValueLengthMax ==> ValueBuffer(p + [c]) == ValueBuffer(p)[|p| := c]
    ensures |p| >= ValueLengthMax ==> ValueBuffer(p + [c]) == ValueBuffer(p)
  {
    if |p| < ValueLengthMax {
      assert forall i :: 0 <= i < ValueLengthMax ==> ValueBuffer(p + [c])[i] == ValueBuffer(p)[|p| := c][i];
    } else {
      assert forall i :: 0 <= i < ValueLengthMax ==> ValueBuffer(p + [c])[i] == ValueBuffer(p)[i];
    }
  }

  /** Names are compared by their first `CmdLengthMax` characters, case-folded:
      names that agree there are indistinguishable. */
  lemma TruncatedNamesCollide(a: seq<char>, b: seq<char>)
    requires |a| >= CmdLengthMax && |b| >= CmdLengthMax
    requires forall i :: 0 <= i < CmdLengthMax ==> Upper(a[i]) == Upper(b[i])
    ensures NameBuffer(a) == NameBuffer(b)
  {
    assert forall i :: 0 <= i < CmdLengthMax ==> NameBuffer(a)[i] == NameBuffer(b)[i];
  }

  /** Reading name characters in `Command`: every call returns 0, and the buffer
      holds the upper-cased, truncated name read so far. */
  lemma {:induction false} ReadName(s: Snapshot, p: seq<char>, w: seq<char>, table: seq<CommandRecord>, commonCount: nat)
    requires Wf(s) && s.state == Command
    requires s.cmdStr == NameBuffer(p) && s.cmdLen == Min(|p|, CmdLengthMax)
    requires AllNameChars(w)
    ensures var r := Run(s, w, table, commonCount);
      r.0 == s.(cmdStr := NameBuffer(p + w), cmdLen := Min(|p + w|, CmdLengthMax)) && AllParsing(r.1)
    decreases |w|
  {
    if w == [] {
      assert p + w == p;
    } else {
      NameCharacterStored(s, w[0], table, commonCount);
      NameBufferSnoc(p, w[0]);
      var s1 := Step(s, w[0], table, commonCount).next;
      ReadName(s1, p + [w[0]], w[1..], table, commonCount);
      assert (p + [w[0]]) + w[1..] == p + w;
    }
  }

  /** Reading value characters in `Value`: every call returns 0, and the buffer
      holds the raw, truncated value read so far. */
  lemma {:induction false} ReadValue(s: Snapshot, p: seq<char>, v: seq<char>, table: seq<CommandRecord>, commonCount: nat)
    requires Wf(s) && s.state == Value
    requires s.valStr == ValueBuffer(p) && s.valLen == Min(|p|, ValueLengthMax)
    requires AllNormal(v)
    ensures var r := Run(s, v, table, commonCount);
      r.0 == s.(valStr := ValueBuffer(p + v), valLen := Min(|p + v|, ValueLengthMax)) && AllParsing(r.1)
    decreases |v|
  {
    if v == [] {
      assert p + v == p;
    } else {
      ValueCharacterStored(s, v[0], table, commonCount);
      ValueBufferSnoc(p, v[0]);
      var s1 := Step(s, v[0], table, commonCount).next;
      ReadValue(s1, p + [v[0]], v[1..], table, commonCount);
      assert (p + [v[0]]) + v[1..] == p + v;
    }
  }

  /** Whitespace after a name is skipped. */
  lemma {:induction false} SkipSpace(s: Snapshot, g: seq<char>, table: seq<CommandRecord>, commonCount: nat)
    requires Wf(s) && s.state == SpaceValue && AllWhitespace(g)
    ensures Run(s, g, table, commonCount).0 == s && AllParsing(Run(s, g, table, commonCount).1)
    decreases |g|
  {
    if g != [] {
      SkipSpace(s, g[1..], table, commonCount);
    }
  }

  /** A name fed between commands: every call returns 0 and the parser is left
      reading that name. */
  lemma StartName(s: Snapshot, w: seq<char>, table: seq<CommandRecord>, commonCount: nat)
    requires Wf(s) && s.state == SpaceNextCmd
    requires |w| > 0 && AllNameChars(w)
    ensures var r := Run(s, w, table, commonCount);
      && r.0 == s.(state := Command, cmdStr := NameBuffer(w), cmdLen := Min(|w|, CmdLengthMax))
      && AllParsing(r.1)
  {
    var s0 := s.(state := Command, cmdLen := 0, cmdStr := ZeroName);
    SpaceNextCmdRules(s, w[0], table, commonCount);
    NameCharacterStored(s0, w[0], table, commonCount);
    var s1 := Step(s, w[0], table, commonCount).next;
    assert ZeroName[0 := Upper(w[0])] == NameBuffer([w[0]]);
    ReadName(s1, [w[0]], w[1..], table, commonCount);
    assert [w[0]] + w[1..] == w;
  }

  /** Feeding one character is one step. */
  lemma RunOne(s: Snapshot, c: char, table: seq<CommandRecord>, commonCount: nat)
    requires Wf(s)
    ensures var st := Step(s, c, table, commonCount);
      Run(s, [c], table, commonCount) == (st.next, [st.reply])
  {
    var st := Step(s, c, table, commonCount);
    assert [c][1..] == [];
    assert Run(st.next, [], table, commonCount) == (st.next, []);
    assert [st.reply] + [] == [st.reply];
  }

  /** Appending parsing replies keeps them all parsing. */
  lemma AllParsingAppend(a: seq<Reply>, b: seq<Reply>)
    requires AllParsing(a) && AllParsing(b)
    ensures AllParsing(a + b)
  {
  }

  /** An event: a name, optional whitespace, a terminator. Only the terminator
      completes the command, with kind `Event`, and the parser waits for the next
      command. */
  lemma EventShape(s: Snapshot, w: seq<char>, g: seq<char>, t: char, table: seq<CommandRecord>, commonCount: nat)
    requires Wf(s) && s.state == SpaceNextCmd
    requires |w| > 0 && AllNameChars(w) && AllWhitespace(g) && CharNature(t) == Terminator
    ensures var r := Run(s, w + g + [t], table, commonCount);
      && r.0 == s.(state := SpaceNextCmd, cmdStr := NameBuffer(w), cmdLen := Min(|w|, CmdLengthMax))
      && AllParsing(r.1[..|w| + |g|])
      && r.1[|w| + |g|] == Resolve(table, commonCount, NameBuffer(w), Event)
  {
    var s2 := s.(state := Command, cmdStr := NameBuffer(w), cmdLen := Min(|w|, CmdLengthMax));
    StartName(s, w, table, commonCount);
    RunAppend(s, w, g + [t], table, commonCount);
    assert w + g + [t] == w + (g + [t]);
    var rw := Run(s, w, table, commonCount);
    var s3 := if g == [] then s2 else s2.(state := SpaceValue);
    if g != [] {
      CommandFallsIntoSpaceValue(s2, g[0], table, commonCount);
      SkipSpace(s3, g[1..], table, commonCount);
      RunAppend(s2, g, [t], table, commonCount);
    } else {
      assert g + [t] == [t];
    }
    var rg := Run(s2, g, table, commonCount);
    assert rg.0 == s3 && AllParsing(rg.1);
    var rt := Run(s3, [t], table, commonCount);
    assert rt.0 == s2.(state := SpaceNextCmd);
    assert rt.1 == [Resolve(table, commonCount, NameBuffer(w), Event)];
    var all := rw.1 + (rg.1 + rt.1);
    assert Run(s, w + g + [t], table, commonCount).1 == all;
    assert all[..|w| + |g|] == rw.1 + rg.1;
    AllParsingAppend(rw.1, rg.1);
  }

  /** A query: a name directly followed by `?`. The `?` itself completes the command,
      with kind `Query`, and the parser then waits for a terminator. */
  lemma QueryShape(s: Snapshot, w: seq<char>, table: seq<CommandRecord>, commonCount: nat)
    requires Wf(s) && s.state == SpaceNextCmd
    requires |w| > 0 && AllNameChars(w)
    ensures var r := Run(s, w + ['?'], table, commonCount);
      && r.0 == s.(state := SpaceTerminator, cmdStr := NameBuffer(w), cmdLen := Min(|w|, CmdLengthMax))
      && AllParsing(r.1[..|w|])
      && r.1[|w|] == Resolve(table, commonCount, NameBuffer(w), Query)
  {
    StartName(s, w, table, commonCount);
    RunAppend(s, w, ['?'], table, commonCount);
    var rw := Run(s, w, table, commonCount);
    assert (rw.1 + Run(rw.0, ['?'], table, commonCount).1)[..|w|] == rw.1;
  }

  /** A set: a name, whitespace, a value, then whitespace or a terminator. That last
      character completes the command, with kind `Set`, and the value buffer holds
      the value's first `ValueLengthMax` characters. */
  lemma SetShape(s: Snapshot, w: seq<char>, g: seq<char>, v: seq<char>, e: char,
                 table: seq<CommandRecord>, commonCount: nat)
    requires Wf(s) && s.state == SpaceNextCmd
    requires |w| > 0 && AllNameChars(w)
    requires |g| > 0 && AllWhitespace(g)
    requires |v| > 0 && AllNormal(v)
    requires CharNature(e) != Normal
    ensures var r := Run(s, w + g + v + [e], table, commonCount);
      && r.0 == s.(state := if CharNature(e) == Terminator then SpaceNextCmd else SpaceTerminator,
                   cmdStr := NameBuffer(w), cmdLen := Min(|w|, CmdLengthMax),
                   valStr := ValueBuffer(v), valLen := Min(|v|, ValueLengthMax))
      && AllParsing(r.1[..|w| + |g| + |v|])
      && r.1[|w| + |g| + |v|] == Resolve(table, commonCount, NameBuffer(w), Set)
  {
    var s2 := s.(state := Command, cmdStr := NameBuffer(w), cmdLen := Min(|w|, CmdLengthMax));
    var s3 := s2.(state := SpaceValue);
    StartName(s, w, table, commonCount);
    CommandFallsIntoSpaceValue(s2, g[0], table, commonCount);
    SkipSpace(s3, g[1..], table, commonCount);
    var rg := Run(s2, g, table, commonCount);
    assert rg.0 == s3 && AllParsing(rg.1);

    var s4 := s3.(state := Value, valLen := 0, valStr := ZeroValue);
    SpaceValueFallsIntoValue(s3, v[0], table, commonCount);
    ValueCharacterStored(s4, v[0], table, commonCount);
    assert ZeroValue[0 := v[0]] == ValueBuffer([v[0]]);
    var s5 := Step(s3, v[0], table, commonCount).next;
    ReadValue(s5, [v[0]], v[1..], table, commonCount);
    assert [v[0]] + v[1..] == v;
    var rv := Run(s3, v, table, commonCount);
    assert AllParsing(rv.1);
    var s6 := rv.0;
    assert s6 == s3.(state := Value, valStr := ValueBuffer(v), valLen := Min(|v|, ValueLengthMax));
    var re := Run(s6, [e], table, commonCount);
    assert re.1 == [Resolve(table, commonCount, NameBuffer(w), Set)];

    var rw := Run(s, w, table, commonCount);
    RunAppend(s, w, g, table, commonCount);
    RunAppend(s, w + g, v, table, commonCount);
    RunAppend(s, w + g + v, [e], table, commonCount);
    AllParsingAppend(rw.1, rg.1);
    AllParsingAppend(rw.1 + rg.1, rv.1);
    var all := rw.1 + rg.1 + rv.1 + re.1;
    assert Run(s, w + g + v + [e], table, commonCount).1 == all;
    assert all[..|w| + |g| + |v|] == rw.1 + rg.1 + rv.1;
  }

  /** A colon after a name abandons it: `SYST:` only moves back to waiting for a
      command, and nothing is invoked. */
  lemma PathSegmentDiscarded(s: Snapshot, w: seq<char>, table: seq<CommandRecord>, commonCount: nat)
    requires Wf(s) && s.state == SpaceNextCmd
    requires |w| > 0 && AllNameChars(w)
    ensures var r := Run(s, w + [':'], table, commonCount);
      r.0.state == SpaceNextCmd && AllParsing(r.1)
  {
    StartName(s, w, table, commonCount);
    RunAppend(s, w, [':'], table, commonCount);
    var rw := Run(s, w, table, commonCount);
    ColonAbandonsName(rw.0, table, commonCount);
    AllParsingAppend(rw.1, [Parsing]);
  }

  /** A character skipped between commands: a colon, whitespace or a terminator. */
  predicate Separator(c: char) {
    c == ':' || CharNature(c) != Normal
  }

  predicate AllSeparators(p: seq<char>) {
    forall i :: 0 <= i < |p| ==> Separator(p[i])
  }

  /** Between commands, any run of colons, whitespace and terminators returns 0 for
      each character and leaves the parser exactly as it was. */
  lemma {:induction false} SkipSeparators(s: Snapshot, p: seq<char>, table: seq<CommandRecord>, commonCount: nat)
    requires Wf(s) && s.state == SpaceNextCmd && AllSeparators(p)
    ensures Run(s, p, table, commonCount).0 == s && AllParsing(Run(s, p, table, commonCount).1)
    decreases |p|
  {
    if p != [] {
      SpaceNextCmdRules(s, p[0], table, commonCount);
      SkipSeparators(s, p[1..], table, commonCount);
    }
  }

  /** After a query, whitespace returns 0 and changes nothing, and the terminator
      that follows returns 0 and moves on to the next command. */
  lemma {:induction false} AwaitTerminator(s: Snapshot, g: seq<char>, t: char, table: seq<CommandRecord>, commonCount: nat)
    requires Wf(s) && s.state == SpaceTerminator
    requires AllWhitespace(g) && CharNature(t) == Terminator
    ensures var r := Run(s, g + [t], table, commonCount);
      r.0 == s.(state := SpaceNextCmd) && AllParsing(r.1)
    decreases |g|
  {
    if g == [] {
      assert g + [t] == [t];
      SpaceTerminatorRules(s, t, table, commonCount);
      RunOne(s, t, table, commonCount);
    } else {
      SpaceTerminatorRules(s, g[0], table, commonCount);
      AwaitTerminator(s, g[1..], t, table, commonCount);
      assert (g + [t])[1..] == g[1..] + [t];
    }
  }

  /** A whole query line: a name, `?`, optional whitespace, a terminator. Only the
      `?` completes a command, with kind `Query`; every other character returns 0,
      and the terminator leaves the parser waiting for the next command. */
  lemma QueryLineShape(s: Snapshot, w: seq<char>, g: seq<char>, t: char, table: seq<CommandRecord>, commonCount: nat)
    requires Wf(s) && s.state == SpaceNextCmd
    requires |w| > 0 && AllNameChars(w) && AllWhitespace(g) && CharNature(t) == Terminator
    ensures var r := Run(s, w + ['?'] + g + [t], table, commonCount);
      && r.0 == s.(state := SpaceNextCmd, cmdStr := NameBuffer(w), cmdLen := Min(|w|, CmdLengthMax))
      && AllParsing(r.1[..|w|])
      && r.1[|w|] == Resolve(table, commonCount, NameBuffer(w), Query)
      && AllParsing(r.1[|w| + 1..])
  {
    QueryShape(s, w, table, commonCount);
    var rq := Run(s, w + ['?'], table, commonCount);
    AwaitTerminator(rq.0, g, t, table, commonCount);
    var rt := Run(rq.0, g + [t], table, commonCount);
    RunAppend(s, w + ['?'], g + [t], table, commonCount);
    assert w + ['?'] + g + [t] == (w + ['?']) + (g + [t]);
    var all := rq.1 + rt.1;
    assert all[..|w|] == rq.1[..|w|];
    assert all[|w| + 1..] == rt.1;
  }
}
