/** `spcom_find_command`: a first-match linear search over the command table,
    starting after the common partition unless the token begins with `*`. */
module Lookup {
  import opened ParserTypes

  /** The C compares slots 0, 1, 2 and 3 one after the other. */
  predicate SameName(a: Name, b: Name) {
    a[0] == b[0] && a[1] == b[1] && a[2] == b[2] && a[3] == b[3]
  }

  /** Comparing the four slots is comparing the whole fixed-width names. */
  lemma SameNameIsEquality(a: Name, b: Name)
    ensures SameName(a, b) <==> a == b
  {
    if SameName(a, b) {
      assert forall i :: 0 <= i < CmdLengthMax ==> a[i] == b[i];
    }
  }

  /** Where the search begins: 0 for a common (`*`) token, else `commonCount`. */
  function SearchStart(token: Name, commonCount: nat): (start: nat)
    ensures token[0] == '*' ==> start == 0
    ensures token[0] != '*' ==> start == commonCount
  {
    if token[0] == '*' then 0 else commonCount
  }

  /** The lowest index at or after `i` whose record has the name `token`. */
  function FirstMatchFrom(table: seq<CommandRecord>, token: Name, i: nat): (r: Option<nat>)
    decreases |table| - i
    ensures r.Some? ==> i <= r.value < |table| && table[r.value].name == token
    ensures r.Some? ==> forall j :: i <= j < r.value ==> table[j].name != token
    ensures r.None? <==> forall j :: i <= j < |table| ==> table[j].name != token
  {
    if i >= |table| then None
    else if SameName(table[i].name, token) then
      SameNameIsEquality(table[i].name, token);
      Some(i)
    else
      SameNameIsEquality(table[i].name, token);
      FirstMatchFrom(table, token, i + 1)
  }

  /** The record `spcom_find_command` returns, by index; `None` for NULL. */
  function FirstMatch(table: seq<CommandRecord>, commonCount: nat, token: Name): Option<nat> {
    FirstMatchFrom(table, token, SearchStart(token, commonCount))
  }

  /** `spcom_find_command` as written: a loop from the start index up to the table
      size, skipping a record at the first slot that differs. */
  method FindCommand(table: seq<CommandRecord>, commonCount: nat, token: Name)
    returns (r: Option<nat>)
    ensures r == FirstMatch(table, commonCount, token)
  {
    var isCommon := token[0] == '*';
    var i := if isCommon then 0 else commonCount;
    while i < |table|
      invariant FirstMatchFrom(table, token, i) == FirstMatch(table, commonCount, token)
      decreases |table| - i
    {
      var name := table[i].name;
      if token[0] != name[0] || token[1] != name[1] || token[2] != name[2] || token[3] != name[3] {
        i := i + 1;
        continue;
      }
      return Some(i);
    }
    return None;
  }

  /** The search is first-match: the result is the lowest index in the search range
      holding the token, and `None` means no record in that range holds it. */
  lemma FirstMatchIsLowest(table: seq<CommandRecord>, commonCount: nat, token: Name)
    ensures var r := FirstMatch(table, commonCount, token);
      && (r.Some? ==> SearchStart(token, commonCount) <= r.value < |table|
                      && table[r.value].name == token
                      && forall j :: SearchStart(token, commonCount) <= j < r.value ==> table[j].name != token)
      && (r.None? <==> forall j :: SearchStart(token, commonCount) <= j < |table| ==> table[j].name != token)
  {
  }

  /** A token not beginning with `*` never resolves into the common partition. */
  lemma GeneralTokensSkipCommonPartition(table: seq<CommandRecord>, commonCount: nat, token: Name)
    requires token[0] != '*'
    ensures FirstMatch(table, commonCount, token).Some? ==> FirstMatch(table, commonCount, token).value >= commonCount
  {
  }

  /** A `*` token searches the whole table (from 0 to the table size); it resolves into
      the common partition whenever a record there matches, or whenever no record of
      the general partition begins with `*`. */
  lemma CommonTokensPreferCommonPartition(table: seq<CommandRecord>, commonCount: nat, token: Name)
    requires token[0] == '*'
    requires (exists j :: 0 <= j < commonCount && j < |table| && table[j].name == token)
          || (forall j :: commonCount <= j < |table| ==> table[j].name[0] != '*')
    ensures FirstMatch(table, commonCount, token).Some? ==> FirstMatch(table, commonCount, token).value < commonCount
  {
  }

  /** The code searches past the common partition for a `*` token: a general record
      whose name begins with `*` is found when no record of a non-empty common partition
      matches. */
  lemma CommonTokenCanResolvePastPartition(h: Handler)
    ensures var t := [CommandRecord(['*', 'R', 'S', 'T'], h), CommandRecord(['*', 'I', 'D', 'N'], h)];
      FirstMatch(t, 1, ['*', 'I', 'D', 'N']) == Some(1)
  {
    var t := [CommandRecord(['*', 'R', 'S', 'T'], h), CommandRecord(['*', 'I', 'D', 'N'], h)];
    var token: Name := ['*', 'I', 'D', 'N'];
    assert SearchStart(token, 1) == 0;
    assert t[0].name[1] != token[1];
    assert FirstMatchFrom(t, token, 0) == FirstMatchFrom(t, token, 1) == Some(1);
  }
}
