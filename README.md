# SqlServerWrapper data-access core in Dafny

This project models the sequential logic of the SqlServerWrapper data-access
layer with the database driver replaced by plain values:

- **Parameter binding** (`ParameterBinder`). A parameter object is the list
  of its public properties with their values, or `None` for a null reference.
  For text commands, `GetParameters` keeps the properties whose `@Name`
  placeholder occurs in the command text, as an ordinal substring. For
  stored procedures, every property is bound. `VerifyParameters` is the gate
  in front of both.
- **Row materialisation** (`RowMaterializer`). A response type is the list of
  its public properties plus the instance its parameterless constructor
  builds. Each property has a name, an optional `[Field]` column name, a
  declared type and a flag for whether it has a setter. A row is a map from
  column name to value. Each property runs its own try/catch: it reads its
  column and assigns the value. If either step throws, the catch assigns
  null, which becomes the type's default.
- **Orchestration** (`DatabaseManager`). Each of the sixteen public
  operations prepares a command: its text, its command type and its bound
  parameters. The single-row read loop reuses one instance for every row,
  so the last row wins. The multi-row read loop builds a fresh instance per
  row and keeps them in cursor order.
- **Connection-string builder** (`ConnectionStrings`). This is a class whose
  string buffer every fluent setter extends with one fixed fragment. A ghost
  list of the calls made so far is tied to the buffer by `Valid()`. The two
  build operations read the buffer back.

`Values` holds the value and property-type model, including the part of
`PropertyInfo.SetValue` the materialiser depends on. `Strings` holds ordinal
containment. `Wrappers` holds `Option` and `Result`.

The per-property catch is fail-soft only for properties that have a setter.
`GetProperties` returns every public property. For one without a setter,
both the `SetValue` in the try and the `SetValue(response, null)` in the
catch throw, so the exception leaves the read loop and the whole call fails.
The model returns `Err(SetMethodNotFound(name))` in that case. The fail-soft
lemmas are stated for types whose properties all have setters.

A missing parameterless constructor is handled differently by the two read
loops. The single-row loops construct their instance before reading, so they
fail even with no rows. The multi-row loops construct one instance per row,
so with no rows they succeed with an empty list.

## Model

| member | source | states |
|---|---|---|
| `ParameterBinder.VerifyParameters` | SqlServerWrapper.Wrapper/DatabaseManager/DefaultDatabaseManager.cs:370 | the gate passes iff the object is non-null and the procedure binding of its properties is non-empty, i.e. it has at least one property |
| `ParameterBinder.GetParameters` | SqlServerWrapper.Wrapper/DatabaseManager/DefaultDatabaseManager.cs:357-368 | the loop over the properties returns exactly the bindings `SelectBindings` specifies: referenced properties only, in enumeration order |
| `ParameterBinder.SelectedPositions` | SqlServerWrapper.Wrapper/DatabaseManager/DefaultDatabaseManager.cs:359-367 | there is a strictly increasing list of positions such that a property is bound iff `@`+its name occurs in the text, and binding `k` is `("@"+Name, value)` of the property at position `k`: a subsequence, in order, value unchanged |
| `ParameterBinder.SelectBindingsCount` | SqlServerWrapper.Wrapper/DatabaseManager/DefaultDatabaseManager.cs:359-367 | the number of bindings never exceeds the number of properties, and equals it exactly when every placeholder occurs in the text |
| `ParameterBinder.PrefixNameAlsoReferenced` | SqlServerWrapper.Wrapper/DatabaseManager/DefaultDatabaseManager.cs:362 | matching is by substring: whenever `@Name+suffix` occurs in the text, `@Name` is bound as well |
| `ParameterBinder.IdMatchedInsideIdX` | SqlServerWrapper.Wrapper/DatabaseManager/DefaultDatabaseManager.cs:362 | a property `Id` is bound by text that mentions only `@IdX` |
| `ParameterBinder.UserIdScenario` | SqlServerWrapper.Wrapper/DatabaseManager/DefaultDatabaseManager.cs:357-368 | `{UserId: 7}` against `SELECT * FROM Users WHERE Id=@UserId` gives exactly one binding `(@UserId, 7)` |
| `ParameterBinder.BindAll` | SqlServerWrapper.Wrapper/DatabaseManager/DefaultDatabaseManager.cs:31-34 | the procedure binding has one entry per property, and entry `i` is `("@"+Name, value)` of property `i` |
| `ParameterBinder.SelectAllReferenced` | SqlServerWrapper.Wrapper/DatabaseManager/DefaultDatabaseManager.cs:360-366 | when every placeholder occurs in the text, the text binding equals the unfiltered procedure binding |
| `Strings.ContainsExtension` | SqlServerWrapper.Wrapper/DatabaseManager/DefaultDatabaseManager.cs:362 | `Contains` is not token matching: if a string contains `t+u`, it contains `t` |
| `DatabaseManager.Forward` | SqlServerWrapper.Wrapper/DatabaseManager/DefaultDatabaseManager.cs:20 | an overload without parameters forwards to its `WithParameters` form (lines 20, 75, 174, 198, 229, 251, 302) with the same text and kind: non-query and raw SQL pass an object without properties (`new { }`), the others pass null, the scalar procedure call forwards nothing, and an operation that already takes parameters is left as it is |
| `DatabaseManager.BindProcedureParameters` | SqlServerWrapper.Wrapper/DatabaseManager/DefaultDatabaseManager.cs:29-35 | the stored-procedure loop returns `BindAll`: every property, unfiltered, in order |
| `DatabaseManager.CreateCommand` | SqlServerWrapper.Wrapper/DatabaseManager/DefaultDatabaseManager.cs:253-262 | building an operation's command (forwarding, gate, then the procedure loop or `GetParameters`) yields `PrepareCommand(op)` |
| `DatabaseManager.PrepareCommand` | SqlServerWrapper.Wrapper/DatabaseManager/DefaultDatabaseManager.cs:23-36 | the command text is the procedure name or command text; the type is StoredProcedure iff the operation is a procedure call; when the gate fails nothing is bound |
| `DatabaseManager.UnparameterisedBindNothing` | SqlServerWrapper.Wrapper/DatabaseManager/DefaultDatabaseManager.cs:370 | the eight overloads without a parameter object (they forward `null!` or `new { }`, or bind nothing) fail the gate and bind nothing, whatever their text |
| `DatabaseManager.EmptyParametersFailGate` | SqlServerWrapper.Wrapper/DatabaseManager/DefaultDatabaseManager.cs:370 | the gate is false for a null object and for one without properties, and true for any object with at least one property |
| `DatabaseManager.ProcedureBindsEveryProperty` | SqlServerWrapper.Wrapper/DatabaseManager/DefaultDatabaseManager.cs:147-161 | procedure calls with a non-empty parameter object are StoredProcedure commands that bind every property as `("@"+Name, value)`, whatever the procedure name |
| `DatabaseManager.TextCommandBindsReferenced` | SqlServerWrapper.Wrapper/DatabaseManager/DefaultDatabaseManager.cs:305-314 | text commands with a non-empty parameter object are PlainText commands that bind exactly the referenced properties, in order, no more than there are properties |
| `DatabaseManager.ReadSingleRow` | SqlServerWrapper.Wrapper/DatabaseManager/DefaultDatabaseManager.cs:41-67 | no constructor gives the construction error; zero rows give the freshly constructed instance; otherwise the result is the last row materialised alone (last row wins) |
| `DatabaseManager.ReadAllRows` | SqlServerWrapper.Wrapper/DatabaseManager/DefaultDatabaseManager.cs:96-122 | success iff there are no rows or the type is constructible with all properties settable; then the list has one record per row and record `i` is row `i` materialised, in cursor order; otherwise the exception of the first failing step |
| `DatabaseManager.LastRowWinsScenario` | SqlServerWrapper.Wrapper/DatabaseManager/DefaultDatabaseManager.cs:267-293 | rows `{Name:"A"}`, `{Name:"B"}` for a single-row call give `Name == "B"` |
| `DatabaseManager.NoRowsScenario` | SqlServerWrapper.Wrapper/DatabaseManager/DefaultDatabaseManager.cs:267 | no rows for a single-row call give the instance with its construction-time values |
| `RowMaterializer.ColumnName` | SqlServerWrapper.Wrapper/DatabaseManager/DefaultDatabaseManager.cs:49-56 | a property reads the column its `[Field]` attribute names when it carries one, and the column of its own name otherwise |
| `RowMaterializer.MaterializeRow` | SqlServerWrapper.Wrapper/DatabaseManager/DefaultDatabaseManager.cs:45-62 | the property loop succeeds iff every property has a setter, and then property `i` holds the outcome of its own try/catch; otherwise it fails naming the first property without a setter |
| `RowMaterializer.AssignProperty` | SqlServerWrapper.Wrapper/DatabaseManager/DefaultDatabaseManager.cs:47-61 | one property's try/catch fails (the catch rethrows) iff the property has no setter; otherwise the property holds its column's value when present and assignable, else its type's default |
| `RowMaterializer.FieldResolution` | SqlServerWrapper.Wrapper/DatabaseManager/DefaultDatabaseManager.cs:271-288 | with all properties settable, the row always materialises, and property `i` reads the `[Field]` column if declared, else its own name, falling back to the default on a missing column or a mismatched value |
| `RowMaterializer.FieldIndependence` | SqlServerWrapper.Wrapper/DatabaseManager/DefaultDatabaseManager.cs:100-117 | two rows that agree on property `i`'s column give it the same value, whatever happens on other properties and columns |
| `RowMaterializer.MaterializeOutcome` | SqlServerWrapper.Wrapper/DatabaseManager/DefaultDatabaseManager.cs:58-61 | a row materialises iff every property has a setter; otherwise every row ends with the same exception, naming a property without a setter |
| `RowMaterializer.FieldOverrideScenario` | SqlServerWrapper.Wrapper/DatabaseManager/DefaultDatabaseManager.cs:327-335 | `Email` tagged `[Field("email_address")]` over the row `{Id: 1, Email: "x", email_address: "a@b.com"}` holds `"a@b.com"`: the override wins over the property's own name; `Id` holds 1 |
| `RowMaterializer.Populate` | SqlServerWrapper.Wrapper/DatabaseManager/DefaultDatabaseManager.cs:45-62 | the property loop over any existing instance yields `MaterializeRow`: every property is overwritten, so nothing of the previous row survives |
| `RowMaterializer.FirstReadOnly` | SqlServerWrapper.Wrapper/DatabaseManager/DefaultDatabaseManager.cs:45 | the position of the first property without a setter: all earlier ones have setters, and it has none |
| `Values.SetValue` | SqlServerWrapper.Wrapper/DatabaseManager/DefaultDatabaseManager.cs:55-60 | an assignment succeeds iff the property has a setter and the value is null or of an accepted type; a null becomes the type's default |
| `ConnectionStrings.DefaultConnectionString.VerifyConnectionString` | SqlServerWrapper.Wrapper/Connection/IConnectionString.cs:7 | a connection string passes its check iff it has at least one character (`!string.IsNullOrEmpty`; null strings are not modelled) |
| `ConnectionStrings.ConnectionStringBuilder.constructor` | SqlServerWrapper.Wrapper/Builders/ConnectionStringBuilder.cs:14-17 | a fresh builder has an empty buffer and no calls |
| `ConnectionStrings.ConnectionStringBuilder.Append` | SqlServerWrapper.Wrapper/Builders/ConnectionStringBuilder.cs:12 | appending a setting extends the buffer by its fragment and records the call; earlier content is unchanged |
| `ConnectionStrings.ConnectionStringBuilder.Server` | SqlServerWrapper.Wrapper/Builders/ConnectionStringBuilder.cs:24-28 | appends `" Server="+server+";"` (default `"."`) and returns the same builder |
| `ConnectionStrings.ConnectionStringBuilder.DataBase` | SqlServerWrapper.Wrapper/Builders/ConnectionStringBuilder.cs:35-39 | appends `" Database="+dataBase+";"` (default `"master"`) |
| `ConnectionStrings.ConnectionStringBuilder.UserId` | SqlServerWrapper.Wrapper/Builders/ConnectionStringBuilder.cs:46-50 | appends `" User Id="+userId+";"` (default `"SA"`) |
| `ConnectionStrings.ConnectionStringBuilder.Password` | SqlServerWrapper.Wrapper/Builders/ConnectionStringBuilder.cs:58-62 | appends `" Password="+password+";"` |
| `ConnectionStrings.ConnectionStringBuilder.EnableEncryption` | SqlServerWrapper.Wrapper/Builders/ConnectionStringBuilder.cs:70-74 | appends `" Encrypt=true;"` |
| `ConnectionStrings.ConnectionStringBuilder.DisableEncryption` | SqlServerWrapper.Wrapper/Builders/ConnectionStringBuilder.cs:81-85 | appends `" Encrypt=false;"` |
| `ConnectionStrings.ConnectionStringBuilder.EnableTrustedConnection` | SqlServerWrapper.Wrapper/Builders/ConnectionStringBuilder.cs:91-95 | appends `" Trusted_Connection=true;"` |
| `ConnectionStrings.ConnectionStringBuilder.EnableMARS` | SqlServerWrapper.Wrapper/Builders/ConnectionStringBuilder.cs:101-105 | appends `" MultipleActiveResultSets=true;"` |
| `ConnectionStrings.ConnectionStringBuilder.NetworkLibrary` | SqlServerWrapper.Wrapper/Builders/ConnectionStringBuilder.cs:112-116 | appends `" Network Library="+networkLibrary+";"` (default `"DBMSSOCN"`) |
| `ConnectionStrings.ConnectionStringBuilder.AttachDbFilename` | SqlServerWrapper.Wrapper/Builders/ConnectionStringBuilder.cs:123-127 | appends `" AttachDbFilename="+path` with no trailing `;` |
| `ConnectionStrings.ConnectionStringBuilder.EnableIntegratedSecurity` | SqlServerWrapper.Wrapper/Builders/ConnectionStringBuilder.cs:134-138 | appends `" Integrated Security=true;"` |
| `ConnectionStrings.ConnectionStringBuilder.EnableAsynchronousProcessing` | SqlServerWrapper.Wrapper/Builders/ConnectionStringBuilder.cs:144-148 | appends `" Asynchronous Processing=true;"` |
| `ConnectionStrings.ConnectionStringBuilder.EnableUserInstance` | SqlServerWrapper.Wrapper/Builders/ConnectionStringBuilder.cs:154-158 | appends `"User Instance = true;"`, with no leading space |
| `ConnectionStrings.ConnectionStringBuilder.SetMaximumPacketSize` | SqlServerWrapper.Wrapper/Builders/ConnectionStringBuilder.cs:166-170 | appends `"Packet Size="` + the decimal form of the 32-bit size, with no leading space and no `;` |
| `ConnectionStrings.ConnectionStringBuilder.BuildAsString` | SqlServerWrapper.Wrapper/Builders/ConnectionStringBuilder.cs:177 | returns the fragments of all calls so far, in call order, without changing the buffer; empty iff no setter was called |
| `ConnectionStrings.ConnectionStringBuilder.BuildAsDefaultConnectionString` | SqlServerWrapper.Wrapper/Builders/ConnectionStringBuilder.cs:183 | wraps the same string that `BuildAsString` returns; it passes the non-empty check iff some setter was called |
| `ConnectionStrings.Fragment` | SqlServerWrapper.Wrapper/Builders/ConnectionStringBuilder.cs:26-168 | every fragment is non-empty; it starts with a space except for the user-instance and packet-size fragments; it ends with `;` except for the file-name and packet-size fragments; the packet-size fragment ends with a digit |
| `ConnectionStrings.RenderConcat` | SqlServerWrapper.Wrapper/Builders/ConnectionStringBuilder.cs:177 | the buffer of a call sequence `a+b` is the buffer of `a` followed by that of `b`: nothing is deduplicated or overridden |
| `ConnectionStrings.RenderEmpty` | SqlServerWrapper.Wrapper/Builders/ConnectionStringBuilder.cs:183 | the buffer is empty iff no call was made, and it is at least as long as the number of calls |
| `ConnectionStrings.RenderPrefix` | SqlServerWrapper.Wrapper/Builders/ConnectionStringBuilder.cs:26 | later calls leave earlier content in place: the old buffer is a prefix of every later one |
| `ConnectionStrings.ConflictingSettingsKept` | SqlServerWrapper.Wrapper/Builders/ConnectionStringBuilder.cs:72-83 | `EnableEncryption` then `DisableEncryption` leaves both `" Encrypt=true;"` and `" Encrypt=false;"` in call order |
| `ConnectionStrings.BuildExample` | SqlServerWrapper.Wrapper/Builders/ConnectionStringBuilder.cs:24-50 | a chain with default arguments builds `" Server=.; Database=master; User Id=SA; Encrypt=true; Encrypt=false;"`; a second `BuildAsString` returns the same string, and the wrapped form agrees and passes the non-empty check |
| `ConnectionStrings.IntToString` | SqlServerWrapper.Wrapper/Builders/ConnectionStringBuilder.cs:168 | the decimal form of an `int` is non-empty, ends with a digit, and starts with `-` iff the number is negative |
| `ConnectionStrings.NatToString` | SqlServerWrapper.Wrapper/Builders/ConnectionStringBuilder.cs:168 | the decimal form of a natural number is digits only, non-empty, with no leading zero |
| `ConnectionStrings.ParseNatToString` | SqlServerWrapper.Wrapper/Builders/ConnectionStringBuilder.cs:168 | reading the decimal digits back gives the number again |

## Left out

- Driver I/O is not modelled: `SqlConnection`, `OpenAsync`, `SqlCommand` execution, `SqlDataReader` and `SqlDataAdapter.Fill`. The reader is the sequence of rows it delivers. A command is its text, its command type and its bindings.
- `async`/`await`, cancellation tokens and the disposal done by `using` are not modelled; they concern concurrency and I/O.
- Scalar, non-query and raw-SQL results are not modelled: the `(TResponse)` cast of `ExecuteScalarAsync`, the affected-row count and the `DataTable`. They are direct driver output. Only the commands these operations prepare are modelled.
- Reflection is replaced by explicit descriptors. `Activator.CreateInstance` becomes `ResponseType.create`. `GetCustomAttribute<FieldAttribute>` becomes `Property.field`. `GetProperties` becomes the property list. The `description` and `autor` arguments of the attribute constructors are discarded by the source and are not modelled.
- Response instances are modelled as values, not heap objects. Each is created by the call that returns it and is not shared, so object identity is not captured.
- Column lookup is an exact map lookup. `SqlDataReader`'s case-insensitive fallback for column names is not modelled, and neither are duplicate column names.
- Values and types use a small closed set: null, `DBNull`, integers, strings and booleans, against int, int?, string, bool and object properties. Reflection's widening of primitive values and the 32-bit range of integer column values are not modelled.
- `BuildAsSpecifiedConnectionString` is not modelled: it builds an arbitrary `IConnectionString` through a reflective constructor call.
- Null string arguments to the builder's setters are not modelled; Dafny strings cannot be null. Interpolation renders a null argument as an empty one.
- `IntToString` assumes `-` as the negative sign; culture-specific number formatting is not modelled.
- Properties are taken to be auto-properties: instance, non-indexed, readable, with no logic in their accessors. A setter that throws on its own (for example one that rejects null, which makes the catch's `SetValue(response, null)` at DefaultDatabaseManager.cs:60, 115, 286 and 339 throw although the property has a setter), a getter that throws while parameters are bound, public static properties (which `GetProperties` also returns, and whose value every record of a multi-row read would share), indexers and write-only properties are not captured. For such types `MaterializeOutcome` and `ReadAllRows` do not describe what the code does.
- `IConnectionString.ConnectionString` has a public setter that could change a built value later. This is not modelled; a built connection string is an immutable value.
- SqlServerWrapper.Wrapper/Connection/DefaultSqlServerConnection.cs is not part of this model. Its only logic is the non-empty connection-string guard, which `BuildAsDefaultConnectionString` covers. Its `VerifyConnectionAsync(string, …)` either returns true or rethrows, so the "Connection not verified." throw in `NewSafeConnectionAsync` can never be reached.
