/** The relational store as the handlers see it through `mysqli`: the outcome of one
    `query()` call, and the result set whose `fetch_assoc()` hands out rows one at a time. */
module Mysqli {
  import opened Wrappers
  import opened Sql

  /** One fetched row, `fetch_assoc()` style: column name to text, or NULL. */
  type Row = map<string, Option<string>>

  /** What `mysqli::query` returns when it does not throw. */
  datatype QueryResult = QueryFalse | QueryTrue | ResultRows(rows: seq<Row>)

  /** The outcome of running one statement: the call throws a `mysqli_sql_exception` carrying
      the server's error code, or it returns; `insertId` is what `$mysqli->insert_id` then reads. */
  datatype Reply = Threw(code: int, message: string) | Returned(result: QueryResult, insertId: int)

  /** The connection: it answers each statement with a reply.  What the server does with the
      statement (constraints, triggers, ordering) is its own business. */
  type Connection = Statement -> Reply

  /** PHP truthiness of a query result: `false` is falsy, `true` and a result object are not. */
  predicate Truthy(q: QueryResult)
  {
    !q.QueryFalse?
  }

  /** `$res && $res->num_rows > 0`; on a bare `true` PHP reads `num_rows` as null. */
  predicate HasRows(q: QueryResult)
  {
    q.ResultRows? && |q.rows| > 0
  }

  /** A `mysqli_result`: its rows and the position of the next row `fetch_assoc()` hands out. */
  class ResultSet {
    const rows: seq<Row>
    var position: nat

    ghost predicate Valid()
      reads this
    {
      position <= |rows|
    }

    constructor (rows: seq<Row>)
      ensures Valid() && this.rows == rows && position == 0
    {
      this.rows := rows;
      position := 0;
    }

    /** The next row and one step further, or null once every row has been handed out. */
    method FetchAssoc() returns (row: Option<Row>)
      requires Valid()
      modifies this
      ensures Valid()
      ensures old(position) < |rows| ==> row == Some(rows[old(position)]) && position == old(position) + 1
      ensures old(position) == |rows| ==> row == None && position == old(position)
    {
      if position < |rows| {
        row := Some(rows[position]);
        position := position + 1;
      } else {
        row := None;
      }
    }
  }

  /** `while ($row = $res->fetch_assoc()) { $details[] = $row; }`: every row, in fetch order. */
  method FetchAll(result: ResultSet) returns (details: seq<Row>)
    requires result.Valid() && result.position == 0
    modifies result
    ensures result.Valid() && result.position == |result.rows|
    ensures details == result.rows
  {
    details := [];
    while true
      invariant result.Valid()
      invariant details == result.rows[..result.position]
      decreases |result.rows| - result.position
    {
      var row := result.FetchAssoc();
      if row.None? {
        break;
      }
      details := details + [row.value];
    }
    assert result.rows[..|result.rows|] == result.rows;
  }
}
