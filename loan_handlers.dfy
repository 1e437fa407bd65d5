/** The request handlers of the loan API as functions of the payload reader's result, the path
    argument and the connection.  app.php and index.php run the same pipeline (read the payload,
    build the statement, run it, classify the reply, write the envelope); where the two files
    differ, there are two functions.  The handler methods of `RestApi` and `IndexScript` are
    proved to compute these. */
module LoanHandlers {
  import opened Wrappers
  import opened PhpValues
  import opened Sql
  import opened Mysqli
  import opened JsonInput
  import opened Envelope
  import opened LoanBuilder

  /** A handler's outcome and the statement it sent to the connection, if any. */
  datatype Handled = Handled(outcome: Outcome, issued: Option<Statement>)

  /** The names the two payload readers carry in a TypeError message. */
  const AppReader: string := "RestAPI::_getJSON()"
  const IndexReader: string := "getJSON()"

  /** `(int) $args['id']` */
  function PathId(id: string): int
  {
    IntCast(JStr(id))
  }

  function RequiredMessage(key: string): string
  {
    "Param \"" + key + "\" is required!"
  }

  /** What is left of the request once its payload has been read: a null payload is answered
      with 400 and a scalar one has raised. */
  function Unreadable(data: JsonResult, reader: string): Handled
    requires !data.Data?
  {
    if data.NullData? then Handled(Respond(InvalidJson), None)
    else Handled(Raise(Exc(ReturnTypeMessage(reader, data.phpType), 0)), None)
  }

  /** How `POST /loans` answers the INSERT's reply: a throw escapes, a truthy result reports the
      new row's id, a falsy one reports failure; the status stays at its default. */
  function CreateReply(reply: Reply): (o: Outcome)
    ensures o.Raise? <==> reply.Threw?
    ensures reply.Threw? ==> o.exc == Exc(reply.message, reply.code)
    ensures o.Respond? ==>
      o.response.httpStatus == DefaultStatus
      && (o.response.body.status <==> Truthy(reply.result))
      && o.response.body.rowId == (if Truthy(reply.result) then Some(reply.insertId) else None)
      && o.response.body.message == (if Truthy(reply.result) then "success" else "new loan create was failed!")
      && o.response.body.details.None? && o.response.body.code.None?
  {
    match reply
    case Threw(code, message) => Raise(Exc(message, code))
    case Returned(result, insertId) =>
      if Truthy(result) then Respond(Response(DefaultStatus, Envelope(true, "success", None, Some(insertId), None)))
      else Respond(Response(DefaultStatus, Plain(false, "new loan create was failed!")))
  }

  /** `POST /loans` */
  function CreateLoan(data: JsonResult, reader: string, db: Connection): Handled
  {
    if !data.Data? then Unreadable(data, reader)
    else
      match ScanRequired(data.fields, RequiredColumns)
      case MissingParam(key) => Handled(Respond(Response(DefaultStatus, Plain(false, RequiredMessage(key)))), None)
      case AllPresent(values) =>
        var stmt := InsertLoan(values);
        Handled(CreateReply(db(stmt)), Some(stmt))
  }

  /** How `PUT /loans/{id}` answers the UPDATE's reply: success exactly when the call does not
      throw (its result is ignored); a throw is classified by its code. */
  function UpdateReply(reply: Reply): (e: Envelope)
    ensures e.status <==> !reply.Threw?
    ensures reply.Threw? && reply.code == ForeignKeyViolation ==> e.message == "Specified user_id do not exists!"
    ensures reply.Threw? && reply.code != ForeignKeyViolation ==> e.message == "Internal error was raised"
    ensures !reply.Threw? ==> e.message == "Loan was successfull updated!"
    ensures e.details.None? && e.rowId.None? && e.code.None?
  {
    if reply.Threw? then Plain(false, UpdateFailureMessage(reply.code))
    else Plain(true, "Loan was successfull updated!")
  }

  /** `PUT /loans/{id}` */
  function UpdateLoans(id: string, data: JsonResult, reader: string, db: Connection): Handled
  {
    if !data.Data? then Unreadable(data, reader)
    else
      var stmt := UpdateLoan(Assignments(data.fields, ValidColumns), PathId(id));
      Handled(Respond(Response(DefaultStatus, UpdateReply(db(stmt)))), Some(stmt))
  }

  function DeletedMessage(loanId: int): string
  {
    "Loan with ID " + IntToString(loanId) + " was successfully deleted!"
  }

  /** `DELETE /loans/{id}` */
  function DeleteLoan(id: string, db: Connection): Handled
  {
    var stmt := DeleteLoanStmt(PathId(id));
    var body :=
      if db(stmt).Threw? then Plain(false, "Internal error was raised, cant delete specified loan!")
      else Plain(true, DeletedMessage(PathId(id)));
    Handled(Respond(Response(DefaultStatus, body)), Some(stmt))
  }

  /** The success envelope of a read: every fetched row, in fetch order. */
  function DetailsEnvelope(rows: seq<Row>): Envelope
  {
    Envelope(true, "data got successfull", Some(rows), None, None)
  }

  /** `GET /loans[/{id}]`: the id condition only when the path has one. */
  function GetLoans(id: Option<string>, db: Connection): Handled
  {
    var stmt := SelectLoans(if id.Some? then Some(PathId(id.value)) else None);
    var reply := db(stmt);
    var outcome :=
      if reply.Threw? then Raise(Exc(reply.message, reply.code))
      else if HasRows(reply.result) then Respond(Response(DefaultStatus, DetailsEnvelope(reply.result.rows)))
      else Respond(Response(DefaultStatus, Plain(false, "can't get data by specified data")));
    Handled(outcome, Some(stmt))
  }

  /** `GET /users` in app.php: no rows raises an HTTP exception with code 400. */
  function AppGetUsers(db: Connection): Handled
  {
    var reply := db(SelectUsers);
    var outcome :=
      if reply.Threw? then Raise(Exc(reply.message, reply.code))
      else if HasRows(reply.result) then Respond(Response(DefaultStatus, DetailsEnvelope(reply.result.rows)))
      else Raise(Exc("can't get data", 400));
    Handled(outcome, Some(SelectUsers))
  }

  /** `GET /users` in index.php: no rows is an ordinary `status:false` answer. */
  function IndexGetUsers(db: Connection): Handled
  {
    var reply := db(SelectUsers);
    var outcome :=
      if reply.Threw? then Raise(Exc(reply.message, reply.code))
      else if HasRows(reply.result) then Respond(Response(DefaultStatus, DetailsEnvelope(reply.result.rows)))
      else Respond(Response(DefaultStatus, Plain(false, "can't get data")));
    Handled(outcome, Some(SelectUsers))
  }

  /** The routes both files register, with their path arguments. */
  datatype Route =
    | GetUsersRoute
    | GetLoansRoute(loanId: Option<string>)
    | PutLoanRoute(id: string)
    | PostLoanRoute
    | DeleteLoanRoute(id: string)

  function AppHandle(route: Route, req: Request, db: Connection): Handled
  {
    match route
    case GetUsersRoute => AppGetUsers(db)
    case GetLoansRoute(id) => GetLoans(id, db)
    case PutLoanRoute(id) => UpdateLoans(id, AppGetJson(req), AppReader, db)
    case PostLoanRoute => CreateLoan(AppGetJson(req), AppReader, db)
    case DeleteLoanRoute(id) => DeleteLoan(id, db)
  }

  function IndexHandle(route: Route, req: Request, db: Connection): Handled
  {
    match route
    case GetUsersRoute => IndexGetUsers(db)
    case GetLoansRoute(id) => GetLoans(id, db)
    case PutLoanRoute(id) => UpdateLoans(id, IndexGetJson(req), IndexReader, db)
    case PostLoanRoute => CreateLoan(IndexGetJson(req), IndexReader, db)
    case DeleteLoanRoute(id) => DeleteLoan(id, db)
  }

  // ---------------------------------------------------------------------------------------
  // Properties of the pipeline

  /** A payload that reads as null is answered with 400 "Invalid JSON format" before anything
      is sent to the store, on both mutating routes of both files. */
  lemma MalformedPayloadNeverReachesStore(route: Route, req: Request, db: Connection)
    requires route.PutLoanRoute? || route.PostLoanRoute?
    ensures AppGetJson(req).NullData? ==> AppHandle(route, req, db) == Handled(Respond(InvalidJson), None)
    ensures IndexGetJson(req).NullData? ==> IndexHandle(route, req, db) == Handled(Respond(InvalidJson), None)
  {
  }

  /** A create whose payload lacks (or nulls) a required key names the first such key in the
      order user_id, amount, pay_time, keeps status 200 and sends nothing to the store. */
  lemma CreateNamesFirstMissingParam(fields: Payload, j: int, reader: string, db: Connection)
    requires FirstUnsetAt(fields, RequiredColumns, j)
    ensures CreateLoan(Data(fields), reader, db)
         == Handled(Respond(Response(200, Plain(false, RequiredMessage(ColumnName(RequiredColumns[j]))))), None)
  {
    ScanRequiredNamesFirstMissing(fields, RequiredColumns, j);
  }

  /** A create with all three keys set sends one INSERT of exactly three values, the casts of
      user_id, amount and pay_time in that order (never create_time), and answers per its reply. */
  lemma CreateInsertsThreeCasts(fields: Payload, reader: string, db: Connection)
    requires IsSet(fields, "user_id") && IsSet(fields, "amount") && IsSet(fields, "pay_time")
    ensures var stmt := InsertLoan([IntCast(fields["user_id"]), IntCast(fields["amount"]), IntCast(fields["pay_time"])]);
      CreateLoan(Data(fields), reader, db) == Handled(CreateReply(db(stmt)), Some(stmt))
  {
    var cols := RequiredColumns;
    assert forall i | 0 <= i < |cols| :: IsSet(fields, ColumnName(cols[i]));
    ScanRequiredAllSet(fields, cols);
    var values := ScanRequired(fields, cols).values;
    assert values == [IntCast(fields["user_id"]), IntCast(fields["amount"]), IntCast(fields["pay_time"])];
  }

  /** An update sends one UPDATE whose SET list holds exactly the set allow-listed keys, in
      allow-list order, each once, cast to int, scoped to the path id; it answers 200 with a
      status that is true exactly when the store does not throw. */
  lemma UpdateSendsAllowListedSetList(id: string, fields: Payload, reader: string, db: Connection)
    ensures var h := UpdateLoans(id, Data(fields), reader, db);
      h.issued.Some? && h.issued.value.UpdateLoan? && h.issued.value.id == PathId(id)
      && ScopedToRow(Render(h.issued.value), PathId(id))
      && InOrder(ColumnsOf(h.issued.value.assignments))
      && (forall c: Column :: c in ColumnsOf(h.issued.value.assignments) <==> IsSet(fields, ColumnName(c)))
      && (forall a | a in h.issued.value.assignments :: a.value == CastOf(fields, ColumnName(a.column)))
      && h.outcome.Respond? && h.outcome.response.httpStatus == 200
      && (h.outcome.response.body.status <==> !db(h.issued.value).Threw?)
  {
    var h := UpdateLoans(id, Data(fields), reader, db);
    UpdateAssignmentsInAllowListOrder(fields);
    MutationsScopedToOneRow(h.issued.value);
  }

  /** A delete sends one DELETE scoped to the path id and reports success with that id unless
      the store throws. */
  lemma DeleteScopedAndReported(id: string, db: Connection)
    ensures var h := DeleteLoan(id, db);
      h.issued == Some(DeleteLoanStmt(PathId(id)))
      && ScopedToRow(Render(h.issued.value), PathId(id))
      && h.outcome.Respond? && h.outcome.response.httpStatus == 200
      && (h.outcome.response.body.status <==> !db(h.issued.value).Threw?)
      && (!db(h.issued.value).Threw? ==> h.outcome.response.body.message == DeletedMessage(PathId(id)))
  {
    MutationsScopedToOneRow(DeleteLoanStmt(PathId(id)));
  }

  /** A read answers `details` exactly when rows came back, and then they are all the rows in
      fetch order; the id condition is there exactly when the path has an id. */
  lemma GetLoansDetailsIffRows(id: Option<string>, db: Connection)
    ensures var h := GetLoans(id, db);
      h.issued == Some(SelectLoans(if id.Some? then Some(PathId(id.value)) else None))
      && (h.outcome.Raise? <==> db(h.issued.value).Threw?)
      && (h.outcome.Raise? ==> h.outcome.exc == Exc(db(h.issued.value).message, db(h.issued.value).code))
      && (h.outcome.Respond? ==>
            var body := h.outcome.response.body;
            h.outcome.response.httpStatus == 200
            && (body.details.Some? <==> HasRows(db(h.issued.value).result))
            && (body.status <==> body.details.Some?)
            && (body.details.Some? ==> body.details.value == db(h.issued.value).result.rows
                                        && body.message == "data got successfull")
            && (body.details.None? ==> body.message == "can't get data by specified data"))
  {
  }

  /** With no users, app.php's `GET /users` reaches the client as HTTP 400
      `{status:false, message:"can't get data", code:400}`, while index.php answers 200
      `{status:false, message:"can't get data"}` with no code. */
  lemma NoUsersDiffersBetweenFiles(req: Request, db: Connection)
    requires db(SelectUsers).Returned? && !HasRows(db(SelectUsers).result)
    ensures AppServe(AppHandle(GetUsersRoute, req, db).outcome)
         == Response(400, Envelope(false, "can't get data", None, None, Some(400)))
    ensures IndexServe(IndexHandle(GetUsersRoute, req, db).outcome)
         == Response(200, Plain(false, "can't get data"))
  {
  }

  /** Every statement either file sends is drawn from the safe alphabet, and every UPDATE and
      DELETE is scoped to the row of the path id. */
  lemma IssuedStatementsAreSafe(route: Route, req: Request, db: Connection)
    ensures forall h | h == AppHandle(route, req, db) || h == IndexHandle(route, req, db) ::
      h.issued.Some? ==>
        (forall c | c in Render(h.issued.value) :: SafeChar(c))
        && (route.PutLoanRoute? || route.DeleteLoanRoute? ==>
              ScopedToRow(Render(h.issued.value), PathId(route.id)))
  {
    var a, i := AppHandle(route, req, db), IndexHandle(route, req, db);
    if a.issued.Some? {
      RenderIsSafe(a.issued.value);
      if route.PutLoanRoute? || route.DeleteLoanRoute? {
        MutationsScopedToOneRow(a.issued.value);
      }
    }
    if i.issued.Some? {
      RenderIsSafe(i.issued.value);
      if route.PutLoanRoute? || route.DeleteLoanRoute? {
        MutationsScopedToOneRow(i.issued.value);
      }
    }
  }
}
