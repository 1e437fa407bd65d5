# Loan Management API — a Dafny model of the request-to-mutation pipeline

The Loan Management API is a small Slim 4 service over a MySQL `loans` table that references
`users`. It has two entry points that implement the same five routes:
- app.php, the `RestAPI` class;
- index.php, a script of route closures.

Each route follows the same pipeline:
1. read the JSON payload;
2. validate it, or filter it through an allow-list;
3. cast the values with PHP's `(int)`;
4. splice the values into SQL text;
5. send one statement to MySQL;
6. turn the reply into a JSON envelope `{status, message[, details | row_id | code]}`.

This project models that pipeline, both files of it, and proves what each route does to the
store and what it tells the client.

Modules, one per file:

- `Wrappers`: `Option`.
- `PhpValues`: the decoded JSON scalars (`JVal`), the payload as a map, and `isset`. It also
  holds `(int)` on strings as the model reads it: skip leading whitespace, read an optional
  sign, then a digit prefix; give 0 when there are no digits. PHP's fractional and exponent
  forms are not read (see "## Left out"). Last, it renders an integer into a string.
  Properties proved here:
  - the conversion reads back every rendered integer;
  - it skips leading whitespace;
  - a string with no digit after its whitespace and sign converts to 0.
- `Sql`: the statements the service sends, as a datatype, and `Render`, which produces the exact
  text the PHP code builds. Properties proved here:
  - every rendered statement uses only a fixed, quote-free alphabet;
  - every `-` is the sign of an integer literal, so no `--` comment can appear;
  - every UPDATE and DELETE ends in `WHERE id = <n> LIMIT 1`, and no other `WHERE` comes
    before it;
  - the SET list can be parsed back into its assignments (a round trip);
  - the UPDATE text determines the statement.
- `LoanBuilder`: the two parameter loops. The required-key scan of the create route returns at
  the first missing key. The allow-list loop of the update route casts in place with `settype`.
  Each loop is a method proved against a recursive function. The function carries the promised
  properties: the first missing key is named; the SET list is sound, complete and in allow-list
  order; keys outside the allow-list have no effect.
- `Mysqli`: the connection as a function from statement to reply. A call either throws
  `mysqli_sql_exception(code, message)` or returns `false`, `true` or a result set. It also
  holds `insert_id`, the result-set cursor as a class, and the `fetch_assoc` loop.
- `JsonInput`: the two payload readers. `RestAPI::_getJSON` prefers a non-empty parsed body. The
  index.php `getJSON` tests a variable that is never assigned, so it always decodes the raw
  body.
- `Envelope`: response envelopes, the 1452 classifier, and the two error handlers.
- `LoanHandlers`: every route as a function of its path argument, its payload-reader result and
  the connection. It has properties across routes and files.
- `RestApi`, `IndexScript`: the handlers of each file, step by step. Each one is proved equal to
  its `LoanHandlers` function.

Where the documented behaviour and the code disagree, the model follows the code:
- A missing required parameter is answered with HTTP 200 and `status:false`, not 400.
- An update whose payload sets none of the allow-listed keys is not refused. It sends
  `UPDATE loans SET  WHERE id = n LIMIT 1`, and its outcome is whatever the store replies.
- Values are not bound as parameters. They are cast to integers and spliced into the SQL text.
  The model shows that the cast is what keeps the text safe.

## Model

| member | source | states |
|---|---|---|
| PhpValues.TrimLeadingSpaceDropsWhitespace | app.php:359 | the trim keeps a suffix of the string, the dropped prefix is whitespace only, and what remains does not start with whitespace |
| PhpValues.LeadingInt | app.php:359 | `(int)` of a string. CastOfIntString, LeadingIntOfIntToString, LeadingIntSkipsSpace and LeadingIntOfNonNumeric specify it |
| PhpValues.IntCast | app.php:289-309 | `(int)` and `settype(..., 'int')` on a decoded value: null gives 0, a bool gives 0 or 1, an int is kept, a string goes through LeadingInt. CastOfIntString is its round trip with IntToString |
| PhpValues.DigitPrefix | app.php:359 | the digits read by `(int)` are the longest all-digit prefix of the rest of the string |
| PhpValues.IntToString | app.php:308 | an integer in a string is non-empty and made of digits and '-' only |
| PhpValues.CastOfIntString | app.php:307-309 | casting the decimal rendering of any integer with `(int)` gives that integer back |
| PhpValues.LeadingIntOfIntToString | app.php:307-309 | `(int)` of a rendered integer followed by a non-digit stops at the integer and returns it |
| PhpValues.DigitsValueOfNatToString | app.php:308 | the digits of a rendered natural number read back as that number |
| PhpValues.LeadingIntSkipsSpace | app.php:359 | leading whitespace does not change the result of `(int)` on a string |
| PhpValues.LeadingIntOfNonNumeric | app.php:359 | a string that has no digit right after its leading whitespace and optional sign converts to 0 |
| Sql.Render | app.php:213-405 | the text of each statement: the SELECT heredoc with or without `WHERE l.id = n`, `SELECT * FROM users`, the UPDATE with its comma-joined SET list, the INSERT with its `, `-joined values, and the DELETE. RenderIsSafe, MutationsScopedToOneRow, SetListRoundTrip and UpdateTextDeterminesStatement specify it |
| Sql.RenderIsSafe | app.php:213-405 | every statement any route sends is made only of letters, digits, spaces, newlines and `*_.,()=-`. It has no quote, backslash, semicolon, `#` or `/`, whatever the payload |
| Sql.RenderHasNoCommentDash | app.php:312 | every `-` in any statement is immediately followed by a digit, so it is the sign of an integer literal and the text never holds MySQL's `--` comment marker |
| Sql.SetListChars | app.php:300-310 | the comma-joined SET list holds only lower-case letters, digits, `_`, ` `, `=`, `,`, `-` |
| Sql.ValueListChars | app.php:356-371 | the INSERT value list holds only digits, `-`, `,` and spaces |
| Sql.MutationsScopedToOneRow | app.php:312 | an UPDATE or DELETE text ends with `WHERE id = <its id> LIMIT 1` and has no other `W` before that suffix, so it can change at most one row, the one named by the path id |
| Sql.SetListRoundTrip | app.php:300-310 | splitting the joined SET list at commas and reading each `column = value` gives back exactly the assignments it was built from |
| Sql.ParseRenderedAssignment | app.php:308 | one rendered `column = value` item parses back to its column and value |
| Sql.UpdateTextDeterminesStatement | app.php:312 | two UPDATE texts are equal only if their assignments and their row ids are equal, so the text loses nothing |
| Sql.SplitAtFirstSeparator | app.php:310 | splitting at a separator takes the first piece up to the first separator |
| LoanBuilder.ScanRequired | app.php:355-370 | the required-key scan. ScanRequiredNamesFirstMissing and ScanRequiredAllSet specify it |
| LoanBuilder.Assignments | app.php:300-310 | the allow-list SET items. AssignmentsSound, AssignmentsComplete, AssignmentsOrdered and AssignmentsIgnoreOtherKeys specify it |
| LoanBuilder.ScanRequiredNamesFirstMissing | app.php:355-370 | when the j-th required key is the first unset one, the scan stops there and names it |
| LoanBuilder.ScanRequiredAllSet | app.php:355-370 | when all required keys are set, the scan gives one value per key, in key order, each the `(int)` cast of that key's value |
| LoanBuilder.CollectRequired | app.php:355-370 | the loop with its early return computes the required-key scan |
| LoanBuilder.CollectAssignments | app.php:300-310 | the `foreach` that skips unset keys and casts in place with `settype` computes the allow-list SET items |
| LoanBuilder.AssignmentsSound | app.php:300-309 | every SET item is an allow-listed column whose key is set, with the cast of its value |
| LoanBuilder.AssignmentsComplete | app.php:300-309 | a column appears in the SET list exactly when it is allow-listed and its key is set (both directions) |
| LoanBuilder.AssignmentsOrdered | app.php:300-309 | SET items follow allow-list order strictly, so each column appears at most once |
| LoanBuilder.AssignmentsEmptyIffNoneSet | app.php:300-312 | the SET list is empty exactly when none of the four allow-listed keys is set. That the update is still sent is UpdateSendsAllowListedSetList's `issued.Some?` |
| LoanBuilder.UpdateAssignmentsInAllowListOrder | app.php:300-310 | the update's items are exactly the set allow-listed keys, in `user_id, amount, create_time, pay_time` order, each with its cast value |
| LoanBuilder.AssignmentsIgnoreOtherKeys | app.php:300-306 | payloads that agree on the allow-listed keys build the same SET list, so any other key has no effect |
| LoanBuilder.ColumnsOfSpec | app.php:308 | the column list of the items has one entry per item, in item order |
| Mysqli.ResultSet.FetchAssoc | app.php:225 | each call yields the next row and advances the cursor, or yields nothing at the end |
| Mysqli.FetchAll | app.php:224-227 | the `while ($row = fetch_assoc())` loop collects every row of the result in fetch order |
| JsonInput.AppGetJson | app.php:429-446 | `_getJSON`: a non-empty parsed body, or else the decoded raw body, with null on a JSON error. AppGetJsonCases specifies it |
| JsonInput.IndexGetJson | index.php:288-300 | `getJSON()`: always the decoded raw body, with null on a JSON error. IndexIgnoresParsedBody and ReadersAgreeOnJsonBodies specify it |
| JsonInput.AppGetJsonCases | app.php:429-446 | `_getJSON` gives null exactly when no non-empty body was parsed and the raw body is malformed or `null`; otherwise a non-empty parsed body wins over the raw body |
| JsonInput.IndexIgnoresParsedBody | index.php:288-300 | index.php's reader depends only on the raw body, because it tests an unassigned variable |
| JsonInput.ReadersAgreeOnJsonBodies | index.php:288-300 | on a body the framework parsed as JSON, both readers give the same result |
| JsonInput.FormBodyDivergence | app.php:429-446 | a form-encoded body is data for app.php but null, so "Invalid JSON format", for index.php |
| Envelope.UpdateFailureMessage | app.php:319-321 | the message of a failed update by error code. UpdateReply states both branches |
| Envelope.AppErrorResponse | app.php:60-90 | app.php's error handler. ErrorHandlersDifferOnlyInStatus and NoUsersDiffersBetweenFiles specify it |
| Envelope.IndexErrorResponse | index.php:24-49 | index.php's error handler. ErrorHandlersDifferOnlyInStatus and NoUsersDiffersBetweenFiles specify it |
| Envelope.ErrorHandlersDifferOnlyInStatus | app.php:60-90 | both error handlers write `{status:false, message, code}`. app.php sets the HTTP status to the exception code, while index.php leaves it at 200 |
| LoanHandlers.CreateReply | app.php:374-386 | a store exception escapes with its code and message. A truthy result answers `status:true`, "success" and `row_id` equal to `insert_id`. A falsy one answers `status:false`, "new loan create was failed!" and no `row_id` |
| LoanHandlers.UpdateReply | app.php:313-327 | update status is true exactly when the query did not throw. Error code 1452 gets "Specified user_id do not exists!" and every other code gets "Internal error was raised" |
| LoanHandlers.CreateLoan | app.php:344-389 | `POST /loans` in both files. MalformedPayloadNeverReachesStore, CreateNamesFirstMissingParam, CreateInsertsThreeCasts and CreateReply specify it |
| LoanHandlers.UpdateLoans | app.php:287-331 | `PUT /loans/{id}` in both files. MalformedPayloadNeverReachesStore, UpdateSendsAllowListedSetList and UpdateReply specify it |
| LoanHandlers.DeleteLoan | app.php:401-420 | `DELETE /loans/{id}` in both files. DeleteScopedAndReported specifies it |
| LoanHandlers.GetLoans | app.php:211-242 | `GET /loans[/{id}]` in both files. GetLoansDetailsIffRows specifies it |
| LoanHandlers.AppGetUsers | app.php:255-274 | app.php's `GET /users`. NoUsersDiffersBetweenFiles specifies the empty case |
| LoanHandlers.IndexGetUsers | index.php:63-88 | index.php's `GET /users`. NoUsersDiffersBetweenFiles specifies the empty case |
| LoanHandlers.AppHandle | app.php:171-177 | app.php's route table. IssuedStatementsAreSafe and MalformedPayloadNeverReachesStore range over it |
| LoanHandlers.IndexHandle | index.php:63-250 | index.php's route registrations. IssuedStatementsAreSafe and MalformedPayloadNeverReachesStore range over it |
| LoanHandlers.MalformedPayloadNeverReachesStore | app.php:344-354 | on PUT and POST, in both files, a payload that reads as null is answered with 400 "Invalid JSON format" and sends nothing to the store |
| LoanHandlers.CreateNamesFirstMissingParam | app.php:355-370 | a create whose first unset required key is the j-th one answers 200 `Param "<key>" is required!` and sends nothing |
| LoanHandlers.CreateInsertsThreeCasts | app.php:355-374 | with all three keys set, the create sends one INSERT of the casts of user_id, amount and pay_time, in that order, and never create_time |
| LoanHandlers.UpdateSendsAllowListedSetList | app.php:287-331 | an update sends one UPDATE, scoped to the path id, whose SET list is exactly the set allow-listed keys, in order, cast. It always answers HTTP 200, with a status that is true exactly when the store did not throw |
| LoanHandlers.DeleteScopedAndReported | app.php:401-420 | a delete sends one DELETE scoped to the `(int)` path id. It answers 200, and `status:true` with that id in the message exactly when the store did not throw |
| LoanHandlers.GetLoansDetailsIffRows | app.php:211-242 | a read includes `details` exactly when rows came back, and they are all the rows in fetch order. "data got successfull" goes with details and "can't get data by specified data" without them. The id condition is present exactly when the path has an id, and a store exception escapes with the store's code and message |
| LoanHandlers.NoUsersDiffersBetweenFiles | app.php:255-274 | with no users, app.php answers HTTP 400 `{status:false, message:"can't get data", code:400}` and index.php answers 200 `{status:false, message:"can't get data"}` |
| LoanHandlers.IssuedStatementsAreSafe | app.php:171-177 | for every route of either file, the statement sent is in the safe alphabet, and a PUT or DELETE is scoped to the row of its path id |
| RestApi.ActionGetUsers | app.php:255-274 | computes `AppGetUsers`: details from the fetch loop, or an HTTP 400 exception when there are no rows |
| RestApi.ActionGetLoans | app.php:211-242 | computes `GetLoans` |
| RestApi.ActionUpdateLoans | app.php:287-331 | computes `UpdateLoans` on `_getJSON`'s result |
| RestApi.ActionCreateLoan | app.php:344-389 | computes `CreateLoan` on `_getJSON`'s result |
| RestApi.ActionDeleteLoan | app.php:401-420 | sends `DELETE FROM loans WHERE id = n LIMIT 1` for the `(int)` path id, scoped to that row, and always answers 200. `status` is true exactly when the store did not throw, with "Loan with ID n was successfully deleted!", and otherwise "Internal error was raised, cant delete specified loan!" |
| RestApi.Serve | app.php:60-90 | what the client receives from app.php: the handler's response, or an escaped exception rendered by the class's error handler |
| IndexScript.GetUsers | index.php:63-88 | computes `IndexGetUsers`: no rows is an ordinary `status:false` answer |
| IndexScript.GetLoansById | index.php:90-124 | computes `GetLoans` |
| IndexScript.PutLoan | index.php:126-175 | computes `UpdateLoans` on `getJSON()`'s result |
| IndexScript.DeleteLoanById | index.php:177-198 | sends `DELETE FROM loans WHERE id = n LIMIT 1` for the `(int)` path id, scoped to that row, and always answers 200. `status` is true exactly when the store did not throw, with "Loan with ID n was successfully deleted!", and otherwise "Internal error was raised, cant delete specified loan!" |
| IndexScript.PostLoan | index.php:200-250 | computes `CreateLoan` on `getJSON()`'s result |
| IndexScript.Serve | index.php:24-49 | what the client receives from index.php: an escaped exception is rendered with status 200 |

## Left out

- Routing, PSR-7 objects, headers and the `json_encode` output format. Routes are a datatype,
  and responses are a status plus an envelope value.
- `GET /` ("it works!") is a constant answer.
- The access and error loggers are left out.
- Reading `config.ini`, connecting to MySQL, and `mysql_connect()` in index.php possibly
  returning null. The call on null throws an `Error`, which index.php's error handler renders
  as HTTP 200 `{status:false, message:"Call to a member function query() on null", code:0}`.
  The model assumes a live connection.
- The MySQL server: the reply to each statement is an input (the `Connection` function). The
  model does not interpret the SQL. Whether the server actually throws, for example on the
  empty SET list, is the reply's business.
- The mysqli report mode is not modelled. Whether a failing statement throws or returns
  `false` depends on it, and the `Connection` input admits both: with reporting off, the
  update's and delete's `catch` branches are never reached.
- `json_decode` itself: its outcome on the raw body is an input. The `(int)` result of JSON
  floats and nested arrays is carried by the decoded value (`JOther`), not computed.
- PhpValues.LeadingInt: reads only the sign and the leading digits. Fractional and exponent
  strings cast to their integer prefix: "1e3" gives 1, where PHP 7.1 and later give 1000,
  and "1.5e3" gives 1, where PHP gives 1500. This applies to payload strings and to the path
  id. Reading them would need PHP's float conversion, which is not modelled.
- PhpValues.LeadingInt: does not model the saturation of `(int)` at the 64-bit bounds for
  digit strings that overflow. Integers are unbounded.
- Envelope.AppErrorResponse: an exception code outside 100..599 makes PSR-7's `withStatus`
  throw again inside the error handler. The model passes the code through as the status.
- A TypeError raised by a reader on a top-level JSON scalar is modelled as an escaping
  exception with code 0. The message PHP 7.4 writes is modelled, but not the rest of the
  error's rendering.
- Migrations, the PHPUnit tests, and the user routes of the tests are not part of this model.
- `mysql_connect($values)` in index.php's POST passes an argument that is ignored. It has no
  effect in the model.
