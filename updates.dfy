/** `update_config`, the partial update of one alert row, and the
    `togglebelowwarning` command built on it. Only the SQL statement is
    modelled: the statement and its parameters that reach `execute`. */
module Updates {
  import opened Basics
  import opened Text
  import opened Records

  /** The columns `update_config` may set. */
  datatype Column = AlertName | AlertMap | MinPlayers | ChannelId | PingRoleId | BelowWarningEnabled

  /** The order in which `update_config` tests its arguments. */
  const ColumnOrder: seq<Column> := [AlertName, AlertMap, MinPlayers, ChannelId, PingRoleId, BelowWarningEnabled]

  function Rank(c: Column): nat {
    match c
    case AlertName => 0
    case AlertMap => 1
    case MinPlayers => 2
    case ChannelId => 3
    case PingRoleId => 4
    case BelowWarningEnabled => 5
  }

  function ColumnName(c: Column): string {
    match c
    case AlertName => "alert_name"
    case AlertMap => "alert_map"
    case MinPlayers => "min_players"
    case ChannelId => "channel_id"
    case PingRoleId => "ping_role_id"
    case BelowWarningEnabled => "below_warning_enabled"
  }

  /** A parameter bound to a `?` placeholder. */
  datatype SqlValue = SqlText(text: string) | SqlInt(number: int)

  /** The keyword arguments of `update_config` after `alert_id`; `None` means
      the argument was not given (or given as `None`). */
  datatype Edit = Edit(
    alertName: Option<string>,
    alertMap: Option<string>,
    minPlayers: Option<int>,
    channelId: Option<string>,
    pingRoleId: Option<string>,
    belowWarning: Option<bool>)

  /** The value bound for column `c`, when its argument was given; a boolean
      is bound as `int(b)`. */
  function NewValue(edit: Edit, c: Column): Option<SqlValue> {
    match c
    case AlertName => if edit.alertName.Some? then Some(SqlText(edit.alertName.value)) else None
    case AlertMap => if edit.alertMap.Some? then Some(SqlText(edit.alertMap.value)) else None
    case MinPlayers => if edit.minPlayers.Some? then Some(SqlInt(edit.minPlayers.value)) else None
    case ChannelId => if edit.channelId.Some? then Some(SqlText(edit.channelId.value)) else None
    case PingRoleId => if edit.pingRoleId.Some? then Some(SqlText(edit.pingRoleId.value)) else None
    case BelowWarningEnabled =>
      if edit.belowWarning.Some? then Some(SqlInt(if edit.belowWarning.value then 1 else 0)) else None
  }

  datatype Assignment = Assignment(column: Column, value: SqlValue)

  /** The assignment for column `c`, when its argument was given. */
  function Contribution(edit: Edit, c: Column): seq<Assignment> {
    if NewValue(edit, c).Some? then [Assignment(c, NewValue(edit, c).value)] else []
  }

  /** The assignments for the given columns, keeping the columns whose argument was given. */
  function AssignmentsOver(columns: seq<Column>, edit: Edit): seq<Assignment>
    decreases |columns|
  {
    if |columns| == 0 then []
    else AssignmentsOver(columns[..|columns| - 1], edit) + Contribution(edit, columns[|columns| - 1])
  }

  /** The partial update an edit asks for. */
  function Assignments(edit: Edit): seq<Assignment> {
    AssignmentsOver(ColumnOrder, edit)
  }

  function ColumnsOf(a: seq<Assignment>): (r: seq<Column>)
    ensures |r| == |a|
    decreases |a|
  {
    if |a| == 0 then [] else ColumnsOf(a[..|a| - 1]) + [a[|a| - 1].column]
  }

  /** The `SET` clause of one column. */
  function Clause(c: Column): string {
    ColumnName(c) + " = ?"
  }

  /** The `SET` clauses, one `column = ?` per assignment. */
  function Clauses(a: seq<Assignment>): (r: seq<string>)
    ensures |r| == |a|
    decreases |a|
  {
    if |a| == 0 then [] else Clauses(a[..|a| - 1]) + [Clause(a[|a| - 1].column)]
  }

  function Values(a: seq<Assignment>): (r: seq<SqlValue>)
    ensures |r| == |a|
    decreases |a|
  {
    if |a| == 0 then [] else Values(a[..|a| - 1]) + [a[|a| - 1].value]
  }

  /** Appending one assignment appends its column, clause and value. */
  lemma {:induction false} AssignmentSnoc(a: seq<Assignment>, x: Assignment)
    ensures ColumnsOf(a + [x]) == ColumnsOf(a) + [x.column]
    ensures Clauses(a + [x]) == Clauses(a) + [Clause(x.column)]
    ensures Values(a + [x]) == Values(a) + [x.value]
  {
    assert (a + [x])[..|a|] == a;
  }

  /** Position `k` of the columns, clauses and parameters belongs to assignment `k`. */
  lemma {:induction false} ColumnsOfAt(a: seq<Assignment>)
    ensures forall k :: 0 <= k < |a| ==>
      ColumnsOf(a)[k] == a[k].column && Clauses(a)[k] == Clause(a[k].column) && Values(a)[k] == a[k].value
    decreases |a|
  {
    if |a| > 0 {
      var init := a[..|a| - 1];
      ColumnsOfAt(init);
      forall k | 0 <= k < |a|
        ensures ColumnsOf(a)[k] == a[k].column && Clauses(a)[k] == Clause(a[k].column) && Values(a)[k] == a[k].value
      {
        if k < |a| - 1 {
          assert ColumnsOf(a)[k] == ColumnsOf(init)[k];
          assert Clauses(a)[k] == Clauses(init)[k];
          assert Values(a)[k] == Values(init)[k];
          assert init[k] == a[k];
        }
      }
    }
  }

  /** `sep.join(parts)`. */
  function Join(parts: seq<string>, sep: string): string
    decreases |parts|
  {
    if |parts| == 0 then ""
    else if |parts| == 1 then parts[0]
    else Join(parts[..|parts| - 1], sep) + sep + parts[|parts| - 1]
  }

  function Query(clauses: seq<string>): string {
    "UPDATE configs SET " + Join(clauses, ", ") + " WHERE alert_id = ?"
  }

  /** A statement handed to `execute`, with its parameters. */
  datatype Statement = Statement(query: string, params: seq<SqlValue>)

  /** What `update_config` executes, as the source is written: the statement is
      built and run only inside the `below_warning_enabled is not None` branch. */
  function UpdateStatement(alertId: int, edit: Edit): Option<Statement> {
    if edit.belowWarning.None? then None
    else
      var a := Assignments(edit);
      Some(Statement(Query(Clauses(a)), Values(a) + [SqlInt(alertId)]))
  }

  predicate Increasing(columns: seq<Column>) {
    forall i, j :: 0 <= i < j < |columns| ==> Rank(columns[i]) < Rank(columns[j])
  }

  lemma {:induction false} AssignmentsOverColumns(columns: seq<Column>, edit: Edit)
    ensures forall c :: c in ColumnsOf(AssignmentsOver(columns, edit)) <==> c in columns && NewValue(edit, c).Some?
    decreases |columns|
  {
    if |columns| > 0 {
      var init := columns[..|columns| - 1];
      var c := columns[|columns| - 1];
      AssignmentsOverColumns(init, edit);
      assert columns == init + [c];
      var a0 := AssignmentsOver(init, edit);
      assert AssignmentsOver(columns, edit) == a0 + Contribution(edit, c);
      if NewValue(edit, c).Some? {
        AssignmentSnoc(a0, Assignment(c, NewValue(edit, c).value));
        assert ColumnsOf(AssignmentsOver(columns, edit)) == ColumnsOf(a0) + [c];
      } else {
        assert AssignmentsOver(columns, edit) == a0;
      }
    }
  }

  lemma {:induction false} AssignmentsOverIncreasing(columns: seq<Column>, edit: Edit)
    requires Increasing(columns)
    ensures Increasing(ColumnsOf(AssignmentsOver(columns, edit)))
    decreases |columns|
  {
    if |columns| > 0 {
      var init := columns[..|columns| - 1];
      var c := columns[|columns| - 1];
      AssignmentsOverIncreasing(init, edit);
      AssignmentsOverColumns(init, edit);
      var a0 := AssignmentsOver(init, edit);
      assert AssignmentsOver(columns, edit) == a0 + Contribution(edit, c);
      assert Increasing(init);
      if NewValue(edit, c).Some? {
        AssignmentSnoc(a0, Assignment(c, NewValue(edit, c).value));
        var cs := ColumnsOf(a0) + [c];
        assert ColumnsOf(AssignmentsOver(columns, edit)) == cs;
        assert forall k :: 0 <= k < |init| ==> init[k] == columns[k];
        forall i, j | 0 <= i < j < |cs| ensures Rank(cs[i]) < Rank(cs[j]) {
          if j == |cs| - 1 {
            assert cs[i] in ColumnsOf(a0);
            var k :| 0 <= k < |init| && init[k] == cs[i];
            assert columns[k] == cs[i];
          }
        }
      } else {
        assert AssignmentsOver(columns, edit) == a0;
      }
    }
  }

  /** Every assignment binds the value given for its column. */
  predicate BindsGivenValues(edit: Edit, a: seq<Assignment>) {
    forall i :: 0 <= i < |a| ==> NewValue(edit, a[i].column) == Some(a[i].value)
  }

  lemma {:induction false} AssignmentsOverValues(columns: seq<Column>, edit: Edit)
    ensures BindsGivenValues(edit, AssignmentsOver(columns, edit))
    decreases |columns|
  {
    if |columns| > 0 {
      var init := columns[..|columns| - 1];
      var c := columns[|columns| - 1];
      AssignmentsOverValues(init, edit);
      var a0 := AssignmentsOver(init, edit);
      var a := AssignmentsOver(columns, edit);
      assert a == a0 + Contribution(edit, c);
      forall i | 0 <= i < |a| ensures NewValue(edit, a[i].column) == Some(a[i].value) {
        if i < |a0| {
          assert a[i] == a0[i];
        } else {
          assert Contribution(edit, c) != [];
          assert NewValue(edit, c).Some?;
          assert a[i] == Assignment(c, NewValue(edit, c).value);
        }
      }
    }
  }

  /** The partial update holds one assignment per given argument and no other,
      in the fixed order name, map, min_players, channel, ping role,
      below_warning, each binding that argument's value. */
  lemma AssignmentsExact(edit: Edit)
    ensures Increasing(ColumnsOf(Assignments(edit)))
    ensures forall c :: c in ColumnsOf(Assignments(edit)) <==> NewValue(edit, c).Some?
    ensures BindsGivenValues(edit, Assignments(edit))
  {
    assert Assignments(edit) == AssignmentsOver(ColumnOrder, edit);
    AssignmentsOverIncreasing(ColumnOrder, edit);
    AssignmentsOverColumns(ColumnOrder, edit);
    AssignmentsOverValues(ColumnOrder, edit);
    forall c ensures c in ColumnOrder {
      match c
      case AlertName => assert ColumnOrder[0] == c;
      case AlertMap => assert ColumnOrder[1] == c;
      case MinPlayers => assert ColumnOrder[2] == c;
      case ChannelId => assert ColumnOrder[3] == c;
      case PingRoleId => assert ColumnOrder[4] == c;
      case BelowWarningEnabled => assert ColumnOrder[5] == c;
    }
  }

  /** The executed statement sets `below_warning_enabled` last, binds its
      parameters one-for-one with the `SET` clauses and binds `alert_id` last. */
  lemma UpdateStatementShape(alertId: int, edit: Edit)
    requires edit.belowWarning.Some?
    ensures var a := Assignments(edit);
      |a| > 0 && a[|a| - 1] == Assignment(BelowWarningEnabled, SqlInt(if edit.belowWarning.value then 1 else 0))
    ensures UpdateStatement(alertId, edit) == Some(Statement(Query(Clauses(Assignments(edit))), Values(Assignments(edit)) + [SqlInt(alertId)]))
  {
    assert Assignments(edit) == AssignmentsOver(ColumnOrder[..5], edit) + Contribution(edit, BelowWarningEnabled);
  }

  /** The partial update, column by column in the fixed order. */
  lemma AssignmentsUnfolded(edit: Edit)
    ensures Assignments(edit) ==
      Contribution(edit, AlertName) + Contribution(edit, AlertMap) + Contribution(edit, MinPlayers) +
      Contribution(edit, ChannelId) + Contribution(edit, PingRoleId) + Contribution(edit, BelowWarningEnabled)
  {
    var o := ColumnOrder;
    assert o[..0] == [];
    assert o[..1][..0] == o[..0];
    assert AssignmentsOver(o[..1], edit) == Contribution(edit, AlertName);
    assert o[..2][..1] == o[..1];
    assert AssignmentsOver(o[..2], edit) == AssignmentsOver(o[..1], edit) + Contribution(edit, AlertMap);
    assert o[..3][..2] == o[..2];
    assert AssignmentsOver(o[..3], edit) == AssignmentsOver(o[..2], edit) + Contribution(edit, MinPlayers);
    assert o[..4][..3] == o[..3];
    assert AssignmentsOver(o[..4], edit) == AssignmentsOver(o[..3], edit) + Contribution(edit, ChannelId);
    assert o[..5][..4] == o[..4];
    assert AssignmentsOver(o[..5], edit) == AssignmentsOver(o[..4], edit) + Contribution(edit, PingRoleId);
    assert o[..6][..5] == o[..5];
    assert o[..6] == o;
  }

  /** The `SET` clause of each column, as `update_config` spells it. */
  lemma ClauseTexts()
    ensures Clause(AlertName) == "alert_name = ?"
    ensures Clause(AlertMap) == "alert_map = ?"
    ensures Clause(MinPlayers) == "min_players = ?"
    ensures Clause(ChannelId) == "channel_id = ?"
    ensures Clause(PingRoleId) == "ping_role_id = ?"
    ensures Clause(BelowWarningEnabled) == "below_warning_enabled = ?"
  {
  }

  /** The clause and the parameter `update_config` appends for column `c`
      when its argument was given. */
  function ClauseFor(edit: Edit, c: Column): seq<string> {
    if NewValue(edit, c).Some? then [Clause(c)] else []
  }

  function ParamFor(edit: Edit, c: Column): seq<SqlValue> {
    if NewValue(edit, c).Some? then [NewValue(edit, c).value] else []
  }

  /** Clauses distribute over concatenation. */
  lemma ClausesAppend(a: seq<Assignment>, b: seq<Assignment>)
    ensures Clauses(a + b) == Clauses(a) + Clauses(b)
  {
    ColumnsOfAt(a + b);
    ColumnsOfAt(a);
    ColumnsOfAt(b);
    forall k | 0 <= k < |a + b| ensures Clauses(a + b)[k] == (Clauses(a) + Clauses(b))[k] {
      if k >= |a| {
        assert (a + b)[k] == b[k - |a|];
      }
    }
  }

  /** Values distribute over concatenation. */
  lemma ValuesAppend(a: seq<Assignment>, b: seq<Assignment>)
    ensures Values(a + b) == Values(a) + Values(b)
  {
    ColumnsOfAt(a + b);
    ColumnsOfAt(a);
    ColumnsOfAt(b);
    forall k | 0 <= k < |a + b| ensures Values(a + b)[k] == (Values(a) + Values(b))[k] {
      if k >= |a| {
        assert (a + b)[k] == b[k - |a|];
      }
    }
  }

  /** The clauses and parameters of the partial update, column by column. */
  lemma ClausesUnfolded(edit: Edit)
    ensures Clauses(Assignments(edit)) ==
      ClauseFor(edit, AlertName) + ClauseFor(edit, AlertMap) + ClauseFor(edit, MinPlayers) +
      ClauseFor(edit, ChannelId) + ClauseFor(edit, PingRoleId) + ClauseFor(edit, BelowWarningEnabled)
    ensures Values(Assignments(edit)) ==
      ParamFor(edit, AlertName) + ParamFor(edit, AlertMap) + ParamFor(edit, MinPlayers) +
      ParamFor(edit, ChannelId) + ParamFor(edit, PingRoleId) + ParamFor(edit, BelowWarningEnabled)
  {
    AssignmentsUnfolded(edit);
    var c1, c2, c3 := Contribution(edit, AlertName), Contribution(edit, AlertMap), Contribution(edit, MinPlayers);
    var c4, c5, c6 := Contribution(edit, ChannelId), Contribution(edit, PingRoleId), Contribution(edit, BelowWarningEnabled);
    forall c ensures Clauses(Contribution(edit, c)) == ClauseFor(edit, c) && Values(Contribution(edit, c)) == ParamFor(edit, c) {
      if NewValue(edit, c).Some? {
        AssignmentSnoc([], Assignment(c, NewValue(edit, c).value));
        assert [] + [Assignment(c, NewValue(edit, c).value)] == Contribution(edit, c);
      }
    }
    assert [] + c1 == c1;
    ClausesAppend(c1, c2);
    ClausesAppend(c1 + c2, c3);
    ClausesAppend(c1 + c2 + c3, c4);
    ClausesAppend(c1 + c2 + c3 + c4, c5);
    ClausesAppend(c1 + c2 + c3 + c4 + c5, c6);
    ValuesAppend(c1, c2);
    ValuesAppend(c1 + c2, c3);
    ValuesAppend(c1 + c2 + c3, c4);
    ValuesAppend(c1 + c2 + c3 + c4, c5);
    ValuesAppend(c1 + c2 + c3 + c4 + c5, c6);
  }

  /** `update_config` with the clause and parameter lists it assembles by `append`. */
  method UpdateConfig(alertId: int, edit: Edit) returns (executed: Option<Statement>)
    ensures executed == UpdateStatement(alertId, edit)
  {
    ClauseTexts();
    var updates: seq<string> := [];
    var params: seq<SqlValue> := [];
    if edit.alertName.Some? {
      updates := updates + ["alert_name = ?"];
      params := params + [SqlText(edit.alertName.value)];
    }
    assert updates == ClauseFor(edit, AlertName) && params == ParamFor(edit, AlertName);
    if edit.alertMap.Some? {
      updates := updates + ["alert_map = ?"];
      params := params + [SqlText(edit.alertMap.value)];
    }
    assert updates == ClauseFor(edit, AlertName) + ClauseFor(edit, AlertMap);
    assert params == ParamFor(edit, AlertName) + ParamFor(edit, AlertMap);
    ghost var u, p := updates, params;
    if edit.minPlayers.Some? {
      updates := updates + ["min_players = ?"];
      params := params + [SqlInt(edit.minPlayers.value)];
    }
    assert updates == u + ClauseFor(edit, MinPlayers) && params == p + ParamFor(edit, MinPlayers);
    u, p := updates, params;
    if edit.channelId.Some? {
      updates := updates + ["channel_id = ?"];
      params := params + [SqlText(edit.channelId.value)];
    }
    assert updates == u + ClauseFor(edit, ChannelId) && params == p + ParamFor(edit, ChannelId);
    u, p := updates, params;
    if edit.pingRoleId.Some? {
      updates := updates + ["ping_role_id = ?"];
      params := params + [SqlText(edit.pingRoleId.value)];
    }
    assert updates == u + ClauseFor(edit, PingRoleId) && params == p + ParamFor(edit, PingRoleId);
    executed := None;
    if edit.belowWarning.Some? {
      ClosingStatement(alertId, edit, updates, params);
      updates := updates + ["below_warning_enabled = ?"];
      params := params + [SqlInt(if edit.belowWarning.value then 1 else 0)];
      params := params + [SqlInt(alertId)];
      executed := Some(Statement(Query(updates), params));
    }
  }

  /** The last step of `update_config`: once the first five arguments have
      contributed their clauses and values, adding `below_warning_enabled` and
      `alert_id` completes the statement of the partial update. */
  lemma ClosingStatement(alertId: int, edit: Edit, updates: seq<string>, params: seq<SqlValue>)
    requires edit.belowWarning.Some?
    requires updates == ClauseFor(edit, AlertName) + ClauseFor(edit, AlertMap) + ClauseFor(edit, MinPlayers) +
      ClauseFor(edit, ChannelId) + ClauseFor(edit, PingRoleId)
    requires params == ParamFor(edit, AlertName) + ParamFor(edit, AlertMap) + ParamFor(edit, MinPlayers) +
      ParamFor(edit, ChannelId) + ParamFor(edit, PingRoleId)
    ensures UpdateStatement(alertId, edit) == Some(Statement(Query(updates + ["below_warning_enabled = ?"]),
      params + [SqlInt(if edit.belowWarning.value then 1 else 0)] + [SqlInt(alertId)]))
  {
    ClauseTexts();
    ClausesUnfolded(edit);
    assert ClauseFor(edit, BelowWarningEnabled) == ["below_warning_enabled = ?"];
    assert ParamFor(edit, BelowWarningEnabled) == [SqlInt(if edit.belowWarning.value then 1 else 0)];
  }

  /** The edit `editalert` passes: channel and role ids as `str(id)`, and no
      `below_warning_enabled` argument. */
  function EditCommand(name: Option<string>, mapName: Option<string>, minPlayers: Option<int>,
                       channel: Option<int>, role: Option<int>): Edit
  {
    Edit(name, mapName, minPlayers,
         if channel.Some? then Some(ShowInt(channel.value)) else None,
         if role.Some? then Some(ShowInt(role.value)) else None,
         None)
  }

  /** As written, `editalert` never writes: whatever fields it is given,
      `update_config` executes nothing. */
  lemma EditCommandWritesNothing(alertId: int, name: Option<string>, mapName: Option<string>,
                                 minPlayers: Option<int>, channel: Option<int>, role: Option<int>)
    ensures UpdateStatement(alertId, EditCommand(name, mapName, minPlayers, channel, role)) == None
  {
  }

  /** What `update_config` evidently means to do: execute the update whenever
      at least one argument was given (an empty `SET` list is not valid SQL). */
  function IntendedUpdateStatement(alertId: int, edit: Edit): (r: Option<Statement>)
    ensures r.Some? <==> exists c :: NewValue(edit, c).Some?
    ensures r.Some? ==> r.value.params == Values(Assignments(edit)) + [SqlInt(alertId)]
  {
    AssignmentsExact(edit);
    var a := Assignments(edit);
    if |a| == 0 then
      assert forall c :: NewValue(edit, c).None? by {
        forall c ensures NewValue(edit, c).None? { assert c !in ColumnsOf(a); }
      }
      None
    else
      assert ColumnsOf(a)[0] in ColumnsOf(a);
      Some(Statement(Query(Clauses(a)), Values(a) + [SqlInt(alertId)]))
  }

  /** With the intended behaviour, an edit that gives any of the first five
      arguments but not `below_warning_enabled` writes, and leaves the warning
      setting alone. */
  lemma IntendedWritesGivenFields(alertId: int, edit: Edit)
    requires edit.belowWarning.None?
    requires edit.alertName.Some? || edit.alertMap.Some? || edit.minPlayers.Some? ||
             edit.channelId.Some? || edit.pingRoleId.Some?
    ensures IntendedUpdateStatement(alertId, edit).Some?
    ensures BelowWarningEnabled !in ColumnsOf(Assignments(edit))
  {
    AssignmentsExact(edit);
    assert NewValue(edit, BelowWarningEnabled).None?;
    if edit.alertName.Some? { assert NewValue(edit, AlertName).Some?; }
    else if edit.alertMap.Some? { assert NewValue(edit, AlertMap).Some?; }
    else if edit.minPlayers.Some? { assert NewValue(edit, MinPlayers).Some?; }
    else if edit.channelId.Some? { assert NewValue(edit, ChannelId).Some?; }
    else { assert NewValue(edit, PingRoleId).Some?; }
  }

  /** With the intended behaviour, `editalert` given any field writes, and
      never touches the warning setting. */
  lemma IntendedEditCommandWrites(alertId: int, name: Option<string>, mapName: Option<string>,
                                  minPlayers: Option<int>, channel: Option<int>, role: Option<int>)
    requires name.Some? || mapName.Some? || minPlayers.Some? || channel.Some? || role.Some?
    ensures var edit := EditCommand(name, mapName, minPlayers, channel, role);
      && IntendedUpdateStatement(alertId, edit).Some?
      && BelowWarningEnabled !in ColumnsOf(Assignments(edit))
  {
    IntendedWritesGivenFields(alertId, EditCommand(name, mapName, minPlayers, channel, role));
  }

  /** Whenever `below_warning_enabled` is given, as `togglebelowwarning` does,
      the written and the intended behaviour agree. */
  lemma IntendedAgreesWhenBelowGiven(alertId: int, edit: Edit)
    requires edit.belowWarning.Some?
    ensures IntendedUpdateStatement(alertId, edit) == UpdateStatement(alertId, edit)
  {
    assert NewValue(edit, BelowWarningEnabled).Some?;
  }

  /** The statement `update_config` runs when it is given `below_warning_enabled` alone. */
  lemma BelowWarningOnly(alertId: int, b: bool)
    ensures UpdateStatement(alertId, Edit(None, None, None, None, None, Some(b))) ==
      Some(Statement(Query([Clause(BelowWarningEnabled)]), [SqlInt(if b then 1 else 0), SqlInt(alertId)]))
  {
    var edit := Edit(None, None, None, None, None, Some(b));
    var none: seq<string> := [];
    var nothing: seq<SqlValue> := [];
    assert ClauseFor(edit, AlertName) + ClauseFor(edit, AlertMap) + ClauseFor(edit, MinPlayers) +
      ClauseFor(edit, ChannelId) + ClauseFor(edit, PingRoleId) == none;
    assert ParamFor(edit, AlertName) + ParamFor(edit, AlertMap) + ParamFor(edit, MinPlayers) +
      ParamFor(edit, ChannelId) + ParamFor(edit, PingRoleId) == nothing;
    ClosingStatement(alertId, edit, none, nothing);
    ClauseTexts();
    assert none + ["below_warning_enabled = ?"] == [Clause(BelowWarningEnabled)];
    assert nothing + [SqlInt(if b then 1 else 0)] + [SqlInt(alertId)] == [SqlInt(if b then 1 else 0), SqlInt(alertId)];
  }

  /** `togglebelowwarning` once its `SELECT` has run: `found` is what
      `fetchone()` returned (`None` when there is no such alert, otherwise the
      nullable column value). The result is the statement written, if any. */
  function ToggleBelowWarning(alertId: int, found: Option<Option<int>>): (r: Option<Statement>)
    ensures r.Some? <==> found.Some?
    ensures r.Some? ==> r.value.params == [SqlInt(if Truthy(found.value) then 0 else 1), SqlInt(alertId)]
    ensures r.Some? ==> r.value.query == Query([Clause(BelowWarningEnabled)])
  {
    if found.None? then None
    else
      BelowWarningOnly(alertId, !Truthy(found.value));
      UpdateStatement(alertId, Edit(None, None, None, None, None, Some(!Truthy(found.value))))
  }

  /** Toggling flips the stored setting: reading back the value one toggle
      wrote and toggling again writes the setting that was there before. */
  lemma ToggleTwiceRestores(alertId: int, column: Option<int>)
    ensures var first := ToggleBelowWarning(alertId, Some(column)).value.params[0].number;
      ToggleBelowWarning(alertId, Some(Some(first))).value.params[0] == SqlInt(if Truthy(column) then 1 else 0)
  {
  }
}
