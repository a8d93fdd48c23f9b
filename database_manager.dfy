/**
 * The operations of DefaultDatabaseManager with the driver taken out: each
 * operation prepares a command (its text, its command type and the
 * parameters bound to it), and the reader-based operations run the read loop
 * over the rows the driver delivers.
 */
module DatabaseManager {
  import opened Wrappers
  import opened Values
  import opened ParameterBinder
  import opened RowMaterializer

  /** How the driver interprets the command text. */
  datatype CommandType = PlainText | StoredProcedure

  /** A command as it is handed to the driver. */
  datatype Command = Command(text: string, commandType: CommandType, parameters: seq<Binding>)

  /** The public operations, with the arguments that reach the command. */
  datatype Operation =
    | CallSingleRowProcedure(procedureName: string)
    | CallSingleRowProcedureWithParameters(procedureName: string, parameters: ParameterObject)
    | CallProcedure(procedureName: string)
    | CallProcedureWithParameters(procedureName: string, parameters: ParameterObject)
    | CallScalarProcedure(procedureName: string)
    | CallScalarProcedureWithParameters(procedureName: string, parameters: ParameterObject)
    | ExecuteNonQuery(cmd: string)
    | ExecuteNonQueryWithParameters(cmd: string, parameters: ParameterObject)
    | ExecuteRawSql(cmd: string)
    | ExecuteRawSqlWithParameters(cmd: string, parameters: ParameterObject)
    | ExecuteScalar(cmd: string)
    | ExecuteScalarWithParameters(cmd: string, parameters: ParameterObject)
    | ExecuteAndGetResponse(cmd: string)
    | ExecuteAndGetResponseWithParameters(cmd: string, parameters: ParameterObject)
    | ExecuteAndGetResponses(cmd: string)
    | ExecuteAndGetResponsesWithParameters(cmd: string, parameters: ParameterObject)
  {
    /** The operation runs a stored procedure rather than command text. */
    predicate IsProcedureCall()
    {
      || CallSingleRowProcedure? || CallSingleRowProcedureWithParameters?
      || CallProcedure? || CallProcedureWithParameters?
      || CallScalarProcedure? || CallScalarProcedureWithParameters?
    }

    /** The text handed to the driver: the procedure name or the command text. */
    function CommandText(): string
    {
      if IsProcedureCall() then procedureName else cmd
    }
  }

  /**
   * The overloads without parameters forward to their `WithParameters`
   * counterparts: with `new { }` for non-query and raw SQL, with `null!` for
   * the others. The scalar procedure call has its own body and forwards nothing.
   */
  function Forward(op: Operation): (target: Operation)
    ensures target.CommandText() == op.CommandText()
    ensures target.IsProcedureCall() <==> op.IsProcedureCall()
    ensures || target.CallScalarProcedure? || target.CallSingleRowProcedureWithParameters? || target.CallProcedureWithParameters?
            || target.CallScalarProcedureWithParameters? || target.ExecuteNonQueryWithParameters? || target.ExecuteRawSqlWithParameters?
            || target.ExecuteScalarWithParameters? || target.ExecuteAndGetResponseWithParameters? || target.ExecuteAndGetResponsesWithParameters?
    ensures (op.ExecuteNonQuery? || op.ExecuteRawSql?) ==> !target.CallScalarProcedure? && target.parameters == Some([])
    ensures (|| op.CallSingleRowProcedure? || op.CallProcedure? || op.ExecuteScalar? || op.ExecuteAndGetResponse?
             || op.ExecuteAndGetResponses?)
            ==> !target.CallScalarProcedure? && target.parameters == None
    ensures (|| op.CallScalarProcedure? || op.CallSingleRowProcedureWithParameters? || op.CallProcedureWithParameters?
             || op.CallScalarProcedureWithParameters? || op.ExecuteNonQueryWithParameters? || op.ExecuteRawSqlWithParameters?
             || op.ExecuteScalarWithParameters? || op.ExecuteAndGetResponseWithParameters? || op.ExecuteAndGetResponsesWithParameters?)
            ==> target == op
  {
    match op
    case CallSingleRowProcedure(name) => CallSingleRowProcedureWithParameters(name, None)
    case CallProcedure(name) => CallProcedureWithParameters(name, None)
    case ExecuteNonQuery(cmd) => ExecuteNonQueryWithParameters(cmd, Some([]))
    case ExecuteRawSql(cmd) => ExecuteRawSqlWithParameters(cmd, Some([]))
    case ExecuteScalar(cmd) => ExecuteScalarWithParameters(cmd, None)
    case ExecuteAndGetResponse(cmd) => ExecuteAndGetResponseWithParameters(cmd, None)
    case ExecuteAndGetResponses(cmd) => ExecuteAndGetResponsesWithParameters(cmd, None)
    case _ => op
  }

  /** The parameter object that reaches the binding code (`None` also when there is none). */
  function ParametersOf(op: Operation): ParameterObject
  {
    var target := Forward(op);
    if target.CallScalarProcedure? then None else target.parameters
  }

  /** The command an operation prepares before it opens the connection. */
  function PrepareCommand(op: Operation): (c: Command)
    ensures c.text == op.CommandText()
    ensures c.commandType == StoredProcedure <==> op.IsProcedureCall()
    ensures !VerifyParameters(ParametersOf(op)) ==> c.parameters == []
  {
    var target := Forward(op);
    var parameters := ParametersOf(op);
    if target.CallScalarProcedure? then
      Command(target.procedureName, StoredProcedure, [])
    else if target.IsProcedureCall() then
      Command(target.procedureName, StoredProcedure, if VerifyParameters(parameters) then BindAll(parameters.value) else [])
    else
      Command(target.cmd, PlainText, if VerifyParameters(parameters) then SelectBindings(parameters.value, target.cmd) else [])
  }

  /** The overloads that take no parameter object bind nothing, whatever their text. */
  lemma UnparameterisedBindNothing(op: Operation)
    requires op.CallSingleRowProcedure? || op.CallProcedure? || op.CallScalarProcedure? || op.ExecuteNonQuery?
          || op.ExecuteRawSql? || op.ExecuteScalar? || op.ExecuteAndGetResponse? || op.ExecuteAndGetResponses?
    ensures PrepareCommand(op).parameters == []
    ensures !VerifyParameters(ParametersOf(op))
  {
  }

  /** A null parameter object and one without properties both fail the gate. */
  lemma EmptyParametersFailGate()
    ensures !VerifyParameters(None)
    ensures !VerifyParameters(Some([]))
    ensures forall props: seq<ParamProperty> :: VerifyParameters(Some(props)) <==> props != []
  {
  }

  /**
   * Stored-procedure calls with a non-empty parameter object bind every
   * property, named `@` + its name and carrying its value, whatever the
   * procedure name says.
   */
  lemma ProcedureBindsEveryProperty(op: Operation, props: seq<ParamProperty>)
    requires op.CallSingleRowProcedureWithParameters? || op.CallProcedureWithParameters? || op.CallScalarProcedureWithParameters?
    requires op.parameters == Some(props) && props != []
    ensures PrepareCommand(op).commandType == StoredProcedure
    ensures |PrepareCommand(op).parameters| == |props|
    ensures forall i :: 0 <= i < |props| ==>
      PrepareCommand(op).parameters[i] == Binding("@" + props[i].name, props[i].value)
  {
  }

  /**
   * Text commands with a non-empty parameter object bind exactly the
   * properties whose `@` placeholder occurs in the text, in property order.
   */
  lemma TextCommandBindsReferenced(op: Operation, props: seq<ParamProperty>)
    requires op.ExecuteNonQueryWithParameters? || op.ExecuteRawSqlWithParameters? || op.ExecuteScalarWithParameters?
          || op.ExecuteAndGetResponseWithParameters? || op.ExecuteAndGetResponsesWithParameters?
    requires op.parameters == Some(props) && props != []
    ensures PrepareCommand(op).commandType == PlainText
    ensures exists idx :: IsSelection(PrepareCommand(op).parameters, props, op.cmd, idx)
    ensures |PrepareCommand(op).parameters| <= |props|
  {
    var idx := SelectedPositions(props, op.cmd);
    assert IsSelection(PrepareCommand(op).parameters, props, op.cmd, idx);
    SelectBindingsCount(props, op.cmd);
  }

  /** The stored-procedure binding loop: one parameter per property, in order, unfiltered. */
  method BindProcedureParameters(props: seq<ParamProperty>) returns (parameters: seq<Binding>)
    ensures parameters == BindAll(props)
  {
    parameters := [];
    for i := 0 to |props|
      invariant parameters == BindAll(props[..i])
    {
      var property := props[i];
      parameters := parameters + [Binding("@" + property.name, property.value)];
      assert props[..i + 1][..i] == props[..i];
    }
    assert props[..|props|] == props;
  }

  /** Building the command of an operation, as each operation body does before opening the connection. */
  method CreateCommand(op: Operation) returns (command: Command)
    ensures command == PrepareCommand(op)
  {
    var target := Forward(op);
    if target.CallScalarProcedure? {
      return Command(target.procedureName, StoredProcedure, []);
    }
    var parameters := target.parameters;
    var bindings: seq<Binding> := [];
    if target.IsProcedureCall() {
      if VerifyParameters(parameters) {
        bindings := BindProcedureParameters(parameters.value);
      }
      command := Command(target.procedureName, StoredProcedure, bindings);
    } else {
      if VerifyParameters(parameters) {
        bindings := GetParameters(parameters.value, target.cmd);
      }
      command := Command(target.cmd, PlainText, bindings);
    }
  }

  /**
   * The read loop of the single-row operations: one instance is created
   * before the loop and every row overwrites all of its properties, so the
   * last row wins, and with no rows the freshly constructed instance is returned.
   */
  method ReadSingleRow(rt: ResponseType, rows: seq<Row>) returns (r: Result<Record, ReadError>)
    requires rt.WellFormed()
    ensures rt.create.None? ==> r == Err(NoParameterlessConstructor)
    ensures rt.create.Some? && rows == [] ==> r == Ok(rt.create.value)
    ensures rt.create.Some? && rows != [] ==> r == MaterializeRow(rt.props, rows[|rows| - 1])
  {
    if rt.create.None? {
      return Err(NoParameterlessConstructor);
    }
    var response := rt.create.value;
    var i := 0;
    while i < |rows|
      invariant 0 <= i <= |rows| && |response| == |rt.props|
      invariant i == 0 ==> response == rt.create.value
      invariant i > 0 ==> Ok(response) == MaterializeRow(rt.props, rows[i - 1])
    {
      var populated := Populate(rt.props, response, rows[i]);
      if populated.Err? {
        MaterializeOutcome(rt.props, rows[i], rows[|rows| - 1]);
        return populated;
      }
      response := populated.value;
      i := i + 1;
    }
    r := Ok(response);
  }

  /**
   * The read loop of the multi-row operations: a fresh instance per row,
   * appended in cursor order.
   */
  method ReadAllRows(rt: ResponseType, rows: seq<Row>) returns (r: Result<seq<Record>, ReadError>)
    requires rt.WellFormed()
    ensures r.Ok? <==> rows == [] || (rt.create.Some? && AllSettable(rt.props))
    ensures r.Ok? ==> |r.value| == |rows|
    ensures r.Ok? ==> forall i :: 0 <= i < |rows| ==> MaterializeRow(rt.props, rows[i]) == Ok(r.value[i])
    ensures rows != [] && rt.create.None? ==> r == Err(NoParameterlessConstructor)
    ensures rows != [] && rt.create.Some? && !AllSettable(rt.props) ==>
      r == Err(SetMethodNotFound(rt.props[FirstReadOnly(rt.props)].name))
  {
    var result: seq<Record> := [];
    var i := 0;
    while i < |rows|
      invariant 0 <= i <= |rows| && |result| == i
      invariant i > 0 ==> rt.create.Some? && AllSettable(rt.props)
      invariant forall j :: 0 <= j < i ==> MaterializeRow(rt.props, rows[j]) == Ok(result[j])
    {
      if rt.create.None? {
        return Err(NoParameterlessConstructor);
      }
      var response := rt.create.value;
      var populated := Populate(rt.props, response, rows[i]);
      if populated.Err? {
        MaterializeOutcome(rt.props, rows[i], rows[i]);
        return Err(populated.error);
      }
      MaterializeOutcome(rt.props, rows[i], rows[i]);
      result := result + [populated.value];
      i := i + 1;
    }
    r := Ok(result);
  }

  /** Two rows `{Name: "A"}` then `{Name: "B"}` for a single-row call give `Name == "B"`. */
  method LastRowWinsScenario() returns (r: Result<Record, ReadError>)
    ensures r == Ok([Text("B")])
  {
    var rt := ResponseType([Property("Name", None, StringType, true)], Some([Null]));
    r := ReadSingleRow(rt, [map["Name" := Text("A")], map["Name" := Text("B")]]);
    FieldResolution(rt.props, map["Name" := Text("B")], 0);
    assert r.value == [Text("B")];
  }

  /** No rows for a single-row call give the constructed instance with its initial values. */
  method NoRowsScenario() returns (r: Result<Record, ReadError>)
    ensures r == Ok([Text("")])
  {
    var rt := ResponseType([Property("Name", None, StringType, true)], Some([Text("")]));
    r := ReadSingleRow(rt, []);
  }
}
