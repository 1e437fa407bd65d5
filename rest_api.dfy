/** The handlers of app.php's `RestAPI` class, step by step: read the payload, walk the
    parameter lists, send one statement, fetch the rows, build the envelope.  Each method is
    proved to compute the corresponding function of `LoanHandlers`, whose properties are proved
    there. */
module RestApi {
  import opened Wrappers
  import opened Sql
  import opened Mysqli
  import opened JsonInput
  import opened Envelope
  import opened LoanBuilder
  import opened LoanHandlers

  /** `actionGetUsers` */
  method ActionGetUsers(db: Connection) returns (outcome: Outcome, issued: Option<Statement>)
    ensures Handled(outcome, issued) == AppGetUsers(db)
  {
    issued := Some(SelectUsers);
    var reply := db(SelectUsers);
    if reply.Threw? {
      outcome := Raise(Exc(reply.message, reply.code));
    } else if HasRows(reply.result) {
      var res := new ResultSet(reply.result.rows);
      var details := FetchAll(res);
      outcome := Respond(Response(DefaultStatus, DetailsEnvelope(details)));
    } else {
      outcome := Raise(Exc("can't get data", 400));
    }
  }

  /** `actionGetLoans`; `id` is the optional path argument. */
  method ActionGetLoans(id: Option<string>, db: Connection) returns (outcome: Outcome, issued: Option<Statement>)
    ensures Handled(outcome, issued) == GetLoans(id, db)
  {
    var condition := if id.Some? then Some(PathId(id.value)) else None;
    var stmt := SelectLoans(condition);
    issued := Some(stmt);
    var reply := db(stmt);
    if reply.Threw? {
      outcome := Raise(Exc(reply.message, reply.code));
    } else if HasRows(reply.result) {
      var res := new ResultSet(reply.result.rows);
      var details := FetchAll(res);
      outcome := Respond(Response(DefaultStatus, DetailsEnvelope(details)));
    } else {
      outcome := Respond(Response(DefaultStatus, Plain(false, "can't get data by specified data")));
    }
  }

  /** `actionUpdateLoans` */
  method ActionUpdateLoans(id: string, req: Request, db: Connection) returns (outcome: Outcome, issued: Option<Statement>)
    ensures Handled(outcome, issued) == UpdateLoans(id, AppGetJson(req), AppReader, db)
  {
    var loanId := PathId(id);
    var data := AppGetJson(req);
    if data.NullData? {
      return Respond(InvalidJson), None;
    } else if data.ReturnTypeError? {
      return Raise(Exc(ReturnTypeMessage(AppReader, data.phpType), 0)), None;
    }
    var items := CollectAssignments(data.fields);
    var stmt := UpdateLoan(items, loanId);
    issued := Some(stmt);
    var reply := db(stmt);
    var body;
    if reply.Threw? {
      body := Plain(false, UpdateFailureMessage(reply.code));
    } else {
      body := Plain(true, "Loan was successfull updated!");
    }
    outcome := Respond(Response(DefaultStatus, body));
  }

  /** `actionCreateLoan` */
  method ActionCreateLoan(req: Request, db: Connection) returns (outcome: Outcome, issued: Option<Statement>)
    ensures Handled(outcome, issued) == CreateLoan(AppGetJson(req), AppReader, db)
  {
    var data := AppGetJson(req);
    if data.NullData? {
      return Respond(InvalidJson), None;
    } else if data.ReturnTypeError? {
      return Raise(Exc(ReturnTypeMessage(AppReader, data.phpType), 0)), None;
    }
    var required := CollectRequired(data.fields);
    if required.MissingParam? {
      return Respond(Response(DefaultStatus, Plain(false, RequiredMessage(required.key)))), None;
    }
    var stmt := InsertLoan(required.values);
    issued := Some(stmt);
    var reply := db(stmt);
    if reply.Threw? {
      outcome := Raise(Exc(reply.message, reply.code));
    } else if Truthy(reply.result) {
      outcome := Respond(Response(DefaultStatus, Envelope(true, "success", None, Some(reply.insertId), None)));
    } else {
      outcome := Respond(Response(DefaultStatus, Plain(false, "new loan create was failed!")));
    }
  }

  /** `actionDeleteLoan` */
  method ActionDeleteLoan(id: string, db: Connection) returns (outcome: Outcome, issued: Option<Statement>)
    ensures issued == Some(DeleteLoanStmt(PathId(id))) && ScopedToRow(Render(issued.value), PathId(id))
    ensures outcome.Respond? && outcome.response.httpStatus == DefaultStatus
    ensures outcome.response.body.status <==> !db(issued.value).Threw?
    ensures outcome.response.body.message
         == if db(issued.value).Threw? then "Internal error was raised, cant delete specified loan!"
            else DeletedMessage(PathId(id))
    ensures Handled(outcome, issued) == DeleteLoan(id, db)
  {
    var loanId := PathId(id);
    var stmt := DeleteLoanStmt(loanId);
    issued := Some(stmt);
    var body;
    if db(stmt).Threw? {
      body := Plain(false, "Internal error was raised, cant delete specified loan!");
    } else {
      body := Plain(true, DeletedMessage(loanId));
    }
    outcome := Respond(Response(DefaultStatus, body));
    MutationsScopedToOneRow(stmt);
  }

  /** What the client receives for a route: the handler's outcome, with an escaped exception
      turned into a response by the class's error handler. */
  method Serve(route: Route, req: Request, db: Connection) returns (response: Response, issued: Option<Statement>)
    ensures response == AppServe(AppHandle(route, req, db).outcome)
    ensures issued == AppHandle(route, req, db).issued
  {
    var outcome;
    match route {
      case GetUsersRoute => outcome, issued := ActionGetUsers(db);
      case GetLoansRoute(id) => outcome, issued := ActionGetLoans(id, db);
      case PutLoanRoute(id) => outcome, issued := ActionUpdateLoans(id, req, db);
      case PostLoanRoute => outcome, issued := ActionCreateLoan(req, db);
      case DeleteLoanRoute(id) => outcome, issued := ActionDeleteLoan(id, db);
    }
    response := if outcome.Raise? then AppErrorResponse(outcome.exc) else outcome.response;
  }
}
