/** `struct epscpi_parser_t` and `epscpi_feed_char`: the parser as an object whose
    state, counters and fixed-size buffers are updated in place. */
module Parser {
  import opened ParserTypes
  import opened Chars
  import opened Lookup
  import opened Machine

  class Parser {
    /** `m_commands` with `m_cmdCount` records, and `m_commonCount`: set once. */
    const table: seq<CommandRecord>
    const commonCount: nat

    var state: State
    var cmdLen: nat
    var valLen: nat
    /** `m_cmdStr[CMD_LENGTH_MAX]` and `m_valStr[VALUE_LENGTH_MAX]`. */
    const cmdStr: array<char>
    const valStr: array<char>

    /** The buffers have their C sizes, the counts fit a `uint8_t`, and the
        snapshot of the fields keeps the feed invariant. */
    ghost predicate Valid()
      reads this, cmdStr, valStr
    {
      && cmdStr.Length == CmdLengthMax
      && valStr.Length == ValueLengthMax
      && cmdStr != valStr
      && |table| < 256 && commonCount < 256
      && Inv(Snapshot(state, cmdStr[..], cmdLen, valStr[..], valLen))
    }

    /** The parser as a value, as a handler sees it. */
    function View(): Snapshot
      reads this, cmdStr, valStr
      requires Valid()
    {
      Snapshot(state, cmdStr[..], cmdLen, valStr[..], valLen)
    }

    /** A parser bound to a command table, waiting for its first command with empty
        buffers (the source has no initialisation routine; this is the state its
        comments and `SpaceNextCmd` describe). */
    constructor (table: seq<CommandRecord>, commonCount: nat)
      requires |table| < 256 && commonCount < 256
      ensures Valid() && fresh(cmdStr) && fresh(valStr)
      ensures this.table == table && this.commonCount == commonCount
      ensures View() == Initial()
    {
      this.table := table;
      this.commonCount := commonCount;
      state := SpaceNextCmd;
      cmdLen, valLen := 0, 0;
      cmdStr := new char[CmdLengthMax](_ => '\0');
      valStr := new char[ValueLengthMax](_ => '\0');
      new;
      assert cmdStr[..] == ZeroName;
      assert valStr[..] == ZeroValue;
    }

    /** `memset(m_cmdStr, 0, CMD_LENGTH_MAX)`. */
    method ClearName()
      requires cmdStr.Length == CmdLengthMax
      modifies cmdStr
      ensures cmdStr[..] == ZeroName
    {
      forall i | 0 <= i < cmdStr.Length {
        cmdStr[i] := '\0';
      }
    }

    /** `memset(m_valStr, 0, VALUE_LENGTH_MAX)`. */
    method ClearValue()
      requires valStr.Length == ValueLengthMax
      modifies valStr
      ensures valStr[..] == ZeroValue
    {
      forall i | 0 <= i < valStr.Length {
        valStr[i] := '\0';
      }
    }

    /** `epscpi_feed_char`: one character moves the parser exactly as `Step` says;
        when a kind is decided for a registered name the handler is called with the
        updated parser and its status is returned as it is. The command table never
        changes. */
    method FeedChar(c: char) returns (code: Int8, reply: Reply)
      requires Valid()
      modifies this, cmdStr, valStr
      ensures Valid()
      ensures var r := Step(old(View()), c, table, commonCount);
        View() == r.next && reply == r.reply
      ensures code == ReturnCode(reply, table, View())
    {
      var call: Option<CallKind> := None;
      var nature := CharNature(c);

      if state == SpaceTerminator {
        if nature == Normal {
          state := Error;
          return 1, SyntaxError;
        } else if nature == Terminator {
          state := SpaceNextCmd;
        }
      } else if state == Error {
        state := Error;
        return 1, SyntaxError;
      } else {
        // The case labels SpaceNextCmd, Command, SpaceValue and Value in source
        // order; `fall` is set where a case ends without `break`.
        var enter := state;
        var fall := false;
        if enter == SpaceNextCmd {
          if !(c == ':' || nature != Normal) {
            state := Command;
            cmdLen := 0;
            ClearName();
            fall := true;
          }
        }
        if enter == Command || fall {
          fall := false;
          if c == '?' {
            call := Some(Query);
          } else if c == ':' {
            state := SpaceNextCmd;
          } else if nature != Normal {
            state := SpaceValue;
            fall := true;
          } else if cmdLen != CmdLengthMax {
            cmdStr[cmdLen] := Upper(c);
            cmdLen := cmdLen + 1;
          }
        }
        if enter == SpaceValue || fall {
          fall := false;
          if nature == Terminator {
            call := Some(Event);
          } else if nature == Normal {
            state := Value;
            valLen := 0;
            ClearValue();
            fall := true;
          }
        }
        if enter == Value || fall {
          if nature != Normal {
            call := Some(Set);
          } else if valLen != ValueLengthMax {
            valStr[valLen] := c;
            valLen := valLen + 1;
          }
        }
      }

      if call.Some? {
        if cmdLen == 0 {
          state := Error;
          return 1, SyntaxError;
        }
        if nature == Terminator {
          state := SpaceNextCmd;
        } else {
          state := SpaceTerminator;
        }
        var found := FindCommand(table, commonCount, cmdStr[..]);
        if found.Some? {
          reply := Dispatched(found.value, call.value);
          code := table[found.value].handler(View(), call.value);
          return;
        } else {
          return 2, NotFound(call.value);
        }
      }
      return 0, Parsing;
    }
  }
}
