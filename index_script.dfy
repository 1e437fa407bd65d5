/** The route closures of index.php, step by step.  They run the pipeline of app.php with three
    differences: the payload comes from `getJSON()`, which always decodes the raw body; an empty
    user list is an ordinary answer; and the error handler never sets the status. */
module IndexScript {
  import opened Wrappers
  import opened Sql
  import opened Mysqli
  import opened JsonInput
  import opened Envelope
  import opened LoanBuilder
  import opened LoanHandlers

  /** `GET /users` */
  method GetUsers(db: Connection) returns (outcome: Outcome, issued: Option<Statement>)
    ensures Handled(outcome, issued) == IndexGetUsers(db)
  {
    issued := Some(SelectUsers);
    var reply := db(SelectUsers);
    if reply.Threw? {
      outcome := Raise(Exc(reply.message, reply.code));
    } else if HasRows(reply.result) {
      var res := new ResultSet(reply.result.rows);
      var details := FetchAll(res);
      outcome := Respond(Response(DefaultStatus, DetailsEnvelope(details)));
    } else {
      outcome := Respond(Response(DefaultStatus, Plain(false, "can't get data")));
    }
  }

  /** `GET /loans[/{id}]` */
  method GetLoansById(id: Option<string>, db: Connection) returns (outcome: Outcome, issued: Option<Statement>)
    ensures Handled(outcome, issued) == GetLoans(id, db)
  {
    var stmt := SelectLoans(if id.Some? then Some(PathId(id.value)) else None);
    issued := Some(stmt);
    var reply := db(stmt);
    if reply.Threw? {
      outcome := Raise(Exc(reply.message, reply.code));
    } else if HasRows(reply.result) {
      var res := new ResultSet(reply.result.rows);
      var details := FetchAll(res);
      outcome := Respond(Response(DefaultStatus, DetailsEnvelope(details)));
    } else {
      outcome := Respond(Response(DefaultStatus, Plain(false, "can't get data by specified data")));
    }
  }

  /** `PUT /loans/{id}` */
  method PutLoan(id: string, req: Request, db: Connection) returns (outcome: Outcome, issued: Option<Statement>)
    ensures Handled(outcome, issued) == UpdateLoans(id, IndexGetJson(req), IndexReader, db)
  {
    var loanId := PathId(id);
    var data := IndexGetJson(req);
    if data.NullData? {
      return Respond(InvalidJson), None;
    } else if data.ReturnTypeError? {
      return Raise(Exc(ReturnTypeMessage(IndexReader, data.phpType), 0)), None;
    }
    var items := CollectAssignments(data.fields);
    var stmt := UpdateLoan(items, loanId);
    issued := Some(stmt);
    var reply := db(stmt);
    var body;
    if reply.Threw? {
      body := Plain(false, UpdateFailureMessage(reply.code));
    } else {
      body := Plain(true, "Loan was successfull updated!");
    }
    outcome := Respond(Response(DefaultStatus, body));
  }

  /** `DELETE /loans/{id}` */
  method DeleteLoanById(id: string, db: Connection) returns (outcome: Outcome, issued: Option<Statement>)
    ensures issued == Some(DeleteLoanStmt(PathId(id))) && ScopedToRow(Render(issued.value), PathId(id))
    ensures outcome.Respond? && outcome.response.httpStatus == DefaultStatus
    ensures outcome.response.body.status <==> !db(issued.value).Threw?
    ensures outcome.response.body.message
         == if db(issued.value).Threw? then "Internal error was raised, cant delete specified loan!"
            else DeletedMessage(PathId(id))
    ensures Handled(outcome, issued) == DeleteLoan(id, db)
  {
    var loanId := PathId(id);
    var stmt := DeleteLoanStmt(loanId);
    issued := Some(stmt);
    var body;
    if db(stmt).Threw? {
      body := Plain(false, "Internal error was raised, cant delete specified loan!");
    } else {
      body := Plain(true, DeletedMessage(loanId));
    }
    outcome := Respond(Response(DefaultStatus, body));
    MutationsScopedToOneRow(stmt);
  }

  /** `POST /loans` */
  method PostLoan(req: Request, db: Connection) returns (outcome: Outcome, issued: Option<Statement>)
    ensures Handled(outcome, issued) == CreateLoan(IndexGetJson(req), IndexReader, db)
  {
    var data := IndexGetJson(req);
    if data.NullData? {
      return Respond(InvalidJson), None;
    } else if data.ReturnTypeError? {
      return Raise(Exc(ReturnTypeMessage(IndexReader, data.phpType), 0)), None;
    }
    var required := CollectRequired(data.fields);
    if required.MissingParam? {
      return Respond(Response(DefaultStatus, Plain(false, RequiredMessage(required.key)))), None;
    }
    var stmt := InsertLoan(required.values);
    issued := Some(stmt);
    var reply := db(stmt);
    if reply.Threw? {
      outcome := Raise(Exc(reply.message, reply.code));
    } else if Truthy(reply.result) {
      outcome := Respond(Response(DefaultStatus, Envelope(true, "success", None, Some(reply.insertId), None)));
    } else {
      outcome := Respond(Response(DefaultStatus, Plain(false, "new loan create was failed!")));
    }
  }

  /** What the client receives for a route, an escaped exception answered by the script's
      error handler. */
  method Serve(route: Route, req: Request, db: Connection) returns (response: Response, issued: Option<Statement>)
    ensures response == IndexServe(IndexHandle(route, req, db).outcome)
    ensures issued == IndexHandle(route, req, db).issued
  {
    var outcome;
    match route {
      case GetUsersRoute => outcome, issued := GetUsers(db);
      case GetLoansRoute(id) => outcome, issued := GetLoansById(id, db);
      case PutLoanRoute(id) => outcome, issued := PutLoan(id, req, db);
      case PostLoanRoute => outcome, issued := PostLoan(req, db);
      case DeleteLoanRoute(id) => outcome, issued := DeleteLoanById(id, db);
    }
    response := if outcome.Raise? then IndexErrorResponse(outcome.exc) else outcome.response;
  }
}
