/**
 * Row materialisation of DefaultDatabaseManager: filling the public
 * properties of a response instance from the row under the reader's cursor,
 * one property at a time, resetting any property whose read or assignment
 * throws.
 */
module RowMaterializer {
  import opened Wrappers
  import opened Values

  /**
   * A public property of a response type, as reflection sees it: its name,
   * the column named by its `[Field]` attribute if it carries one (at most
   * one is allowed), its declared type, and whether it has a set accessor.
   */
  datatype Property = Property(name: string, field: Option<string>, propType: PropType, hasSetter: bool)

  /**
   * A response type: its public properties in enumeration order, and the
   * instance its parameterless constructor builds (`None` when it has none).
   */
  datatype ResponseType = ResponseType(props: seq<Property>, create: Option<Record>)
  {
    /** A constructed instance has one value per property. */
    predicate WellFormed()
    {
      create.Some? ==> |create.value| == |props|
    }
  }

  /** The row under the reader's cursor: column name to value. */
  type Row = map<string, Value>

  /** A response instance: the values of its properties, indexed like the properties. */
  type Record = seq<Value>

  /** The exceptions that escape a read loop. */
  datatype ReadError =
    | SetMethodNotFound(property: string)   // SetValue on a property without a setter, rethrown from the catch
    | NoParameterlessConstructor            // Activator.CreateInstance on a type without one

  /** The column a property reads: its `[Field]` name when it has one, else its own name. */
  function ColumnName(p: Property): (column: string)
    ensures p.field.Some? ==> column == p.field.value
    ensures p.field.None? ==> column == p.name
  {
    match p.field
    case Some(column) => column
    case None => p.name
  }

  /** Every property of the type has a setter, so no assignment can escape its catch. */
  predicate AllSettable(props: seq<Property>)
  {
    forall j :: 0 <= j < |props| ==> props[j].hasSetter
  }

  /**
   * One iteration of the property loop. The try reads `reader[column]` (which
   * throws when the column is absent) and assigns it; when that throws, the
   * catch assigns null. `None` when the catch's own assignment throws.
   */
  function AssignProperty(p: Property, row: Row): (r: Option<Value>)
    ensures r.Some? <==> p.hasSetter
    ensures r.Some? ==> r.value == (var c := ColumnName(p);
      if c in row && Assignable(p.propType, row[c]) then row[c] else ZeroOf(p.propType))
  {
    var column := ColumnName(p);
    var tried := if column in row then SetValue(p.propType, p.hasSetter, row[column]) else None;
    if tried.Some? then tried else SetValue(p.propType, p.hasSetter, Null)
  }

  /** The position of the first property without a setter, or `|props|` when there is none. */
  function FirstReadOnly(props: seq<Property>): (k: nat)
    ensures k <= |props|
    ensures forall j :: 0 <= j < k ==> props[j].hasSetter
    ensures k < |props| ==> !props[k].hasSetter
  {
    if props == [] then 0
    else if !props[0].hasSetter then 0
    else 1 + FirstReadOnly(props[1..])
  }

  /**
   * The instance the property loop leaves for one row: every property
   * stored, or the exception of the first property without a setter.
   * Nothing of the instance before the loop survives it.
   */
  function MaterializeRow(props: seq<Property>, row: Row): (r: Result<Record, ReadError>)
    ensures r.Ok? <==> AllSettable(props)
    ensures r.Ok? ==> |r.value| == |props| && forall i :: 0 <= i < |props| ==> Some(r.value[i]) == AssignProperty(props[i], row)
    ensures r.Err? ==> exists j :: 0 <= j < |props| && !props[j].hasSetter && r.error == SetMethodNotFound(props[j].name)
                                   && forall k :: 0 <= k < j ==> props[k].hasSetter
  {
    var k := FirstReadOnly(props);
    if k < |props| then Err(SetMethodNotFound(props[k].name))
    else Ok(seq(|props|, i requires 0 <= i < |props| => AssignProperty(props[i], row).value))
  }

  /**
   * Fail-soft per property: when every property has a setter the row always
   * materialises, and property `i` holds the value of the column it names
   * (the `[Field]` name, else its own) when that column is present and its
   * value fits the property's type, and the default of its type otherwise.
   */
  lemma FieldResolution(props: seq<Property>, row: Row, i: nat)
    requires AllSettable(props) && i < |props|
    ensures MaterializeRow(props, row).Ok?
    ensures |MaterializeRow(props, row).value| == |props|
    ensures var c := if props[i].field.Some? then props[i].field.value else props[i].name;
      MaterializeRow(props, row).value[i] ==
        if c in row && Assignable(props[i].propType, row[c]) then row[c] else ZeroOf(props[i].propType)
  {
    assert FirstReadOnly(props) == |props|;
  }

  /**
   * Each property depends only on its own column: two rows that agree on the
   * column of property `i` give it the same value, whatever a failure on any
   * other property or any other column does.
   */
  lemma FieldIndependence(props: seq<Property>, row1: Row, row2: Row, i: nat)
    requires AllSettable(props) && i < |props|
    requires var c := ColumnName(props[i]); (c in row1 <==> c in row2) && (c in row1 ==> row1[c] == row2[c])
    ensures MaterializeRow(props, row1).Ok? && MaterializeRow(props, row2).Ok?
    ensures MaterializeRow(props, row1).value[i] == MaterializeRow(props, row2).value[i]
  {
    FieldResolution(props, row1, i);
    FieldResolution(props, row2, i);
  }

  /**
   * The row materialises exactly when every property has a setter; otherwise
   * the read ends with the exception of the first property without one, the
   * same for every row.
   */
  lemma MaterializeOutcome(props: seq<Property>, row1: Row, row2: Row)
    ensures MaterializeRow(props, row1).Ok? <==> AllSettable(props)
    ensures !AllSettable(props) ==> MaterializeRow(props, row1) == MaterializeRow(props, row2)
    ensures !AllSettable(props) ==>
      (exists j :: 0 <= j < |props| && !props[j].hasSetter && MaterializeRow(props, row1) == Err(SetMethodNotFound(props[j].name)))
  {
    var k := FirstReadOnly(props);
    if !AllSettable(props) {
      assert k < |props|;
    }
  }

  /**
   * A property `Email` tagged `[Field("email_address")]` holds the value of
   * `email_address`, even when the row also has a column named `Email`.
   */
  lemma FieldOverrideScenario()
    ensures var props := [Property("Id", None, IntType, true),
                          Property("Email", Some("email_address"), StringType, true)];
            var row := map["Id" := Int(1), "Email" := Text("x"), "email_address" := Text("a@b.com")];
            MaterializeRow(props, row) == Ok([Int(1), Text("a@b.com")])
  {
    var props := [Property("Id", None, IntType, true),
                  Property("Email", Some("email_address"), StringType, true)];
    var row := map["Id" := Int(1), "Email" := Text("x"), "email_address" := Text("a@b.com")];
    FieldResolution(props, row, 0);
    FieldResolution(props, row, 1);
    assert MaterializeRow(props, row).value == [Int(1), Text("a@b.com")];
  }

  /**
   * The property loop run on `response`: each property is overwritten with
   * its column's value or reset to its default; an assignment that escapes
   * the catch ends the loop with its exception.
   */
  method Populate(props: seq<Property>, response: Record, row: Row) returns (r: Result<Record, ReadError>)
    requires |response| == |props|
    ensures r == MaterializeRow(props, row)
  {
    var instance := response;
    var i := 0;
    while i < |props|
      invariant 0 <= i <= |props| && |instance| == |props|
      invariant forall j :: 0 <= j < i ==> props[j].hasSetter && Some(instance[j]) == AssignProperty(props[j], row)
    {
      var property := props[i];
      var column := ColumnName(property);
      var stored: Option<Value> := None;
      if column in row {
        stored := SetValue(property.propType, property.hasSetter, row[column]);    // try
      }
      if stored.None? {
        stored := SetValue(property.propType, property.hasSetter, Null);           // catch
      }
      if stored.None? {
        assert FirstReadOnly(props) == i;
        return Err(SetMethodNotFound(property.name));
      }
      instance := instance[i := stored.value];
      i := i + 1;
    }
    assert FirstReadOnly(props) == |props|;
    assert instance == MaterializeRow(props, row).value;
    r := Ok(instance);
  }
}
