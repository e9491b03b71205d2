/** The new-connection form: the validation rules of its schema, the default
    port of each database type, the type switch that resets the port, the
    test-connection button with its precheck, and the error line under the
    schema field. Fields the user has not filled read as the empty string. */
module ConnectionForm {
  import opened Seqs

  datatype DatabaseType = MySql | Postgres | Oracle | MsSql

  /** defaultPorts. */
  function DefaultPort(t: DatabaseType): (p: int)
    ensures 1 <= p <= 65535
  {
    match t
    case MySql => 3306
    case Postgres => 5432
    case Oracle => 1521
    case MsSql => 1433
  }

  /** No two database types share a default port. */
  lemma DefaultPortsDistinct(t1: DatabaseType, t2: DatabaseType)
    ensures DefaultPort(t1) == DefaultPort(t2) <==> t1 == t2
  {
  }

  datatype FormData = FormData(
    name: string, host: string, port: int, username: string, password: string,
    databaseName: string, dbType: DatabaseType, schemaName: string)

  datatype Field = NameField | HostField | PortField | UsernameField | PasswordField | DatabaseNameField | SchemaField

  const MaxNameLength: nat := 50

  /** The fields the schema rejects: the name must have 1 to 50
      characters; host, username, password and database name must not be
      empty; the port lies in 1..65535; only PostgreSQL requires a schema. */
  function FieldErrors(f: FormData): (r: set<Field>)
    ensures SchemaField in r ==> f.dbType == Postgres
    ensures NameField in r <==> f.name == [] || |f.name| > MaxNameLength
  {
    (if 1 <= |f.name| <= MaxNameLength then {} else {NameField})
    + (if f.host != "" then {} else {HostField})
    + (if 1 <= f.port <= 65535 then {} else {PortField})
    + (if f.username != "" then {} else {UsernameField})
    + (if f.password != "" then {} else {PasswordField})
    + (if f.databaseName != "" then {} else {DatabaseNameField})
    + (if f.dbType == Postgres && f.schemaName == "" then {SchemaField} else {})
  }

  predicate IsValid(f: FormData)
  {
    FieldErrors(f) == {}
  }

  /** A form is valid exactly when every rule holds. */
  lemma ValidIff(f: FormData)
    ensures IsValid(f) <==>
              1 <= |f.name| <= 50 && f.host != "" && 1 <= f.port <= 65535 && f.username != "" &&
              f.password != "" && f.databaseName != "" && (f.dbType == Postgres ==> f.schemaName != "")
  {
    if !(f.host != "") { assert HostField in FieldErrors(f); }
    if !(1 <= f.port <= 65535) { assert PortField in FieldErrors(f); }
    if !(f.username != "") { assert UsernameField in FieldErrors(f); }
    if !(f.password != "") { assert PasswordField in FieldErrors(f); }
    if !(f.databaseName != "") { assert DatabaseNameField in FieldErrors(f); }
    if f.dbType == Postgres && f.schemaName == "" { assert SchemaField in FieldErrors(f); }
    if !(1 <= |f.name| <= 50) { assert NameField in FieldErrors(f); }
  }

  /** The schema only matters for PostgreSQL: switching the type changes
      no other field's verdict. */
  lemma TypeOnlyAffectsSchema(f: FormData, t: DatabaseType)
    ensures FieldErrors(f.(dbType := t)) - {SchemaField} == FieldErrors(f) - {SchemaField}
    ensures t != Postgres ==> SchemaField !in FieldErrors(f.(dbType := t))
  {
  }

  /** The test button's precheck: host, username, password and database
      name must be filled in. */
  predicate PrecheckPasses(f: FormData)
  {
    f.host != "" && f.username != "" && f.password != "" && f.databaseName != ""
  }

  /** Every valid form passes the precheck, but not the other way round:
      the precheck does not look at the name, the port or the schema. */
  lemma PrecheckWeakerThanSchema(f: FormData)
    ensures IsValid(f) ==> PrecheckPasses(f)
    ensures var g := FormData("", "db.local", 0, "admin", "secret", "app", Postgres, "");
            PrecheckPasses(g) && FieldErrors(g) == {NameField, PortField, SchemaField}
  {
    ValidIff(f);
  }

  /** The form's initial values. */
  function InitialValues(): FormData
  {
    FormData("", "", 5432, "", "", "", Postgres, "")
  }

  /** The form opens on PostgreSQL with its default port, and cannot be
      saved before the required fields are filled in. */
  lemma InitialValuesAgree()
    ensures InitialValues().port == DefaultPort(InitialValues().dbType)
    ensures FieldErrors(InitialValues()) == {NameField, HostField, UsernameField, PasswordField, DatabaseNameField, SchemaField}
    ensures !PrecheckPasses(InitialValues())
  {
  }

  datatype TestStatus = Idle | Testing | Success | Error

  /** How the connection test ended: a response, or an exception with its
      message when it was an `Error`. */
  datatype TestOutcome = Responded(success: bool, message: string) | Threw(error: Option<string>)

  /** The text of the status line; none while idle. */
  function StatusLine(status: TestStatus, message: string): (r: Option<string>)
    ensures r.None? <==> status == Idle
    ensures status == Testing ==> r == Some("Testing connection...")
    ensures status == Success || status == Error ==> r == Some(message)
  {
    match status
    case Idle => None
    case Testing => Some("Testing connection...")
    case _ => Some(message)
  }

  const SchemaMessage := "Schema is required for PostgresSQL"

  /** What a piece of the form renders to: text, or a failure of the
      render itself. */
  datatype Render = Rendered(line: Option<string>) | RenderFails

  /** The error line under the schema field as written: it is guarded by
      the database-name error but reads the schema error's message, which
      is missing whenever the schema is fine. */
  function SchemaErrorLineAsWritten(errors: set<Field>): Render
  {
    if DatabaseNameField in errors then
      (if SchemaField in errors then Rendered(Some(SchemaMessage)) else RenderFails)
    else Rendered(None)
  }

  /** A MySQL form without a database name cannot render its errors, and a
      PostgreSQL form with a database name but no schema never shows the
      schema error. */
  lemma SchemaErrorLineAsWrittenFails()
    ensures var mysql := FormData("Main", "db.local", 3306, "admin", "secret", "", MySql, "");
            SchemaErrorLineAsWritten(FieldErrors(mysql)) == RenderFails
    ensures var postgres := FormData("Main", "db.local", 5432, "admin", "secret", "app", Postgres, "");
            SchemaField in FieldErrors(postgres) && SchemaErrorLineAsWritten(FieldErrors(postgres)) == Rendered(None)
  {
    var mysql := FormData("Main", "db.local", 3306, "admin", "secret", "", MySql, "");
    assert DatabaseNameField in FieldErrors(mysql);
  }

  /** The error line guarded by the schema's own error. */
  function SchemaErrorLine(errors: set<Field>): (r: Render)
    ensures r.Rendered?
    ensures r.line.Some? <==> SchemaField in errors
    ensures r.line.Some? ==> r.line.value == SchemaMessage
  {
    Rendered(if SchemaField in errors then Some(SchemaMessage) else None)
  }

  /** The schema error shows exactly for a PostgreSQL form without a
      schema, whatever the other fields hold. */
  lemma SchemaErrorShownIff(f: FormData)
    ensures SchemaErrorLine(FieldErrors(f)).line.Some? <==> f.dbType == Postgres && f.schemaName == ""
  {
    if f.dbType == Postgres && f.schemaName == "" {
      assert SchemaField in FieldErrors(f);
    }
  }

  /** The form's state cells. */
  class ConnectionFormState {
    var values: FormData
    var testStatus: TestStatus
    var testMessage: string

    constructor()
      ensures values == InitialValues() && testStatus == Idle && testMessage == ""
    {
      values := InitialValues();
      testStatus := Idle;
      testMessage := "";
    }

    /** The test button is disabled while a test runs. */
    predicate TestEnabled()
      reads this
    {
      testStatus != Testing
    }

    /** handleTypeChange: the type and its default port. */
    method HandleTypeChange(t: DatabaseType)
      modifies this
      ensures values == old(values).(dbType := t, port := DefaultPort(t))
      ensures PortField !in FieldErrors(values)
      ensures testStatus == old(testStatus) && testMessage == old(testMessage)
    {
      values := values.(dbType := t);
      values := values.(port := DefaultPort(t));
    }

    /** The part of handleTestConnection before the service is called: an
        incomplete form is refused with an error and no call; otherwise the
        test starts. `callsService` says whether the service is called. */
    method HandleTestConnection() returns (callsService: bool)
      modifies this
      ensures callsService <==> PrecheckPasses(values)
      ensures !callsService ==> testStatus == Error && testMessage == "Please fill in all required fields"
      ensures callsService ==> testStatus == Testing && testMessage == "" && !TestEnabled()
      ensures values == old(values)
    {
      var formData := values;
      if formData.host == "" || formData.username == "" || formData.password == "" || formData.databaseName == "" {
        testStatus := Error;
        testMessage := "Please fill in all required fields";
        return false;
      }
      testStatus := Testing;
      testMessage := "";
      return true;
    }

    /** The rest of handleTestConnection, once the service answers or
        throws. */
    method FinishTest(outcome: TestOutcome)
      modifies this
      ensures testStatus == Success <==> outcome.Responded? && outcome.success
      ensures testStatus == Success || testStatus == Error
      ensures outcome.Responded? ==> testMessage == outcome.message
      ensures outcome.Threw? ==> testMessage == (if outcome.error.Some? then outcome.error.value else "Connection failed")
      ensures values == old(values) && TestEnabled()
    {
      match outcome
      case Responded(success, message) =>
        testStatus := if success then Success else Error;
        testMessage := message;
      case Threw(error) =>
        testStatus := Error;
        testMessage := if error.Some? then error.value else "Connection failed";
    }
  }
}
