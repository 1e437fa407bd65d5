/** The SQL statements the loan handlers send to MySQL, as an abstract syntax, and the text each
    one is rendered to by string interpolation.  Every value the handlers splice into that text
    has been through `(int)` first, so the text is built from fixed keywords, fixed column names
    and integer literals only; the lemmas below state this and that the text of an UPDATE can be
    read back into the statement it came from. */
module Sql {
  import opened Wrappers
  import opened PhpValues

  /** The columns of table `loans` that a request may write. */
  datatype Column = UserId | Amount | CreateTime | PayTime

  function ColumnName(c: Column): string
  {
    match c
    case UserId => "user_id"
    case Amount => "amount"
    case CreateTime => "create_time"
    case PayTime => "pay_time"
  }

  /** One `column = value` item of an UPDATE's SET list. */
  datatype Assignment = Assignment(column: Column, value: int)

  datatype Statement =
    | InsertLoan(values: seq<int>)                        // INSERT INTO loans (user_id, amount, pay_time) VALUES (...)
    | UpdateLoan(assignments: seq<Assignment>, id: int)   // UPDATE loans SET ... WHERE id = ... LIMIT 1
    | DeleteLoanStmt(id: int)                             // DELETE FROM loans WHERE id = ... LIMIT 1
    | SelectLoans(loanId: Option<int>)                      // loans joined with their users, optionally one id
    | SelectUsers                                         // SELECT * FROM users

  /** `join(', ', $values)` over the integers of an INSERT. */
  function ValueList(vs: seq<int>): string
  {
    if |vs| == 0 then ""
    else if |vs| == 1 then IntToString(vs[0])
    else IntToString(vs[0]) + ", " + ValueList(vs[1..])
  }

  function AssignPrefix(c: Column): string
  {
    ColumnName(c) + " = "
  }

  /** `"{$param} = {$data[$param]}"` */
  function RenderAssignment(a: Assignment): string
  {
    AssignPrefix(a.column) + IntToString(a.value)
  }

  /** `join(',', $values)` over the items of an UPDATE's SET list. */
  function SetList(items: seq<Assignment>): string
  {
    if |items| == 0 then ""
    else if |items| == 1 then RenderAssignment(items[0])
    else RenderAssignment(items[0]) + "," + SetList(items[1..])
  }

  /** The row scope that ends every UPDATE and DELETE. */
  function WhereIdLimitOne(id: int): string
  {
    " WHERE id = " + IntToString(id) + " LIMIT 1"
  }

  const UpdateHead: string := "UPDATE loans SET "
  const DeleteHead: string := "DELETE FROM loans"
  const InsertHead: string := InsertInto + InsertColumns
  const InsertInto: string := "INSERT INTO loans "
  const InsertColumns: string := "(user_id, amount, pay_time) VALUES ("
  const SelectLoansHead: string := SelectFrom + JoinUsers
  const SelectFrom: string := "SELECT *\nFROM loans AS l\n"
  const JoinUsers: string := LeftJoin + JoinOn
  const LeftJoin: string := "  LEFT JOIN users AS u\n"
  const JoinOn: string := "    ON l.user_id = u.id\n"
  const SelectLoansTail: string := "\nORDER BY l.create_time, amount"

  /** The statement text the handler interpolates and passes to `mysqli::query`. */
  function Render(s: Statement): string
  {
    match s
    case InsertLoan(vs) => InsertHead + ValueList(vs) + ")"
    case UpdateLoan(items, id) => UpdateHead + SetList(items) + WhereIdLimitOne(id)
    case DeleteLoanStmt(id) => DeleteHead + WhereIdLimitOne(id)
    case SelectLoans(id) =>
      var condition := if id.Some? then "WHERE l.id = " + IntToString(id.value) else "";
      SelectLoansHead + condition + SelectLoansTail
    case SelectUsers => "SELECT * FROM users"
  }

  // ---------------------------------------------------------------------------------------
  // What the text can contain

  predicate IsLower(c: char) { 'a' <= c <= 'z' }
  predicate IsUpper(c: char) { 'A' <= c <= 'Z' }

  /** The characters of a SET list: lower-case column names, digits, signs and separators. */
  predicate SetListChar(c: char)
  {
    IsLower(c) || IsDigit(c) || c == '_' || c == ' ' || c == '=' || c == ',' || c == '-'
  }

  /** The characters any generated statement is made of.  Quotes, backslashes, `;`, `#` and `/`
      are not among them, so no string literal, second statement, `#` comment or slash-star comment
      can appear; `RenderHasNoCommentDash` rules out the `--` comment as well. */
  predicate SafeChar(c: char)
  {
    SetListChar(c) || IsUpper(c) || c == '\n' || c == '(' || c == ')' || c == '*' || c == '.'
  }

  lemma IntToStringChars(n: int)
    ensures forall c | c in IntToString(n) :: SetListChar(c)
  {
  }

  lemma {:induction false} SetListChars(items: seq<Assignment>)
    ensures forall c | c in SetList(items) :: SetListChar(c)
  {
    if |items| > 0 {
      var a := items[0];
      IntToStringChars(a.value);
      assert forall c | c in AssignPrefix(a.column) :: SetListChar(c);
      if |items| > 1 {
        SetListChars(items[1..]);
      }
    }
  }

  lemma {:induction false} ValueListChars(vs: seq<int>)
    ensures forall c | c in ValueList(vs) :: SetListChar(c)
  {
    if |vs| > 0 {
      IntToStringChars(vs[0]);
      if |vs| > 1 {
        ValueListChars(vs[1..]);
      }
    }
  }

  lemma ConcatIsSafe(a: string, b: string)
    requires forall c | c in a :: SafeChar(c)
    requires forall c | c in b :: SafeChar(c)
    ensures forall c | c in a + b :: SafeChar(c)
  {
  }

  lemma WhereIdLimitOneIsSafe(id: int)
    ensures forall c | c in WhereIdLimitOne(id) :: SafeChar(c)
  {
    var n := IntToString(id);
    IntToStringChars(id);
    assert forall c | c in " WHERE id = " :: SafeChar(c);
    assert forall c | c in " LIMIT 1" :: SafeChar(c);
    ConcatIsSafe(" WHERE id = ", n);
    ConcatIsSafe(" WHERE id = " + n, " LIMIT 1");
  }

  lemma SelectLoansIsSafe(id: Option<int>)
    ensures forall c | c in Render(SelectLoans(id)) :: SafeChar(c)
  {
    var condition := if id.Some? then "WHERE l.id = " + IntToString(id.value) else "";
    assert forall c | c in SelectFrom :: SafeChar(c);
    assert forall c | c in LeftJoin :: SafeChar(c);
    assert forall c | c in JoinOn :: SafeChar(c);
    ConcatIsSafe(LeftJoin, JoinOn);
    ConcatIsSafe(SelectFrom, JoinUsers);
    assert forall c | c in SelectLoansTail :: SafeChar(c);
    if id.Some? {
      IntToStringChars(id.value);
      assert forall c | c in "WHERE l.id = " :: SafeChar(c);
      ConcatIsSafe("WHERE l.id = ", IntToString(id.value));
    }
    ConcatIsSafe(SelectLoansHead, condition);
    ConcatIsSafe(SelectLoansHead + condition, SelectLoansTail);
  }

  /** Every generated statement, whatever the payload, is drawn from the safe alphabet. */
  lemma RenderIsSafe(s: Statement)
    ensures forall c | c in Render(s) :: SafeChar(c)
  {
    match s
    case InsertLoan(vs) =>
      ValueListChars(vs);
      assert forall c | c in InsertInto :: SafeChar(c);
      assert forall c | c in InsertColumns :: SafeChar(c);
      ConcatIsSafe(InsertInto, InsertColumns);
      ConcatIsSafe(InsertHead, ValueList(vs));
      ConcatIsSafe(InsertHead + ValueList(vs), ")");
    case UpdateLoan(items, id) =>
      SetListChars(items);
      WhereIdLimitOneIsSafe(id);
      assert forall c | c in UpdateHead :: SafeChar(c);
      ConcatIsSafe(UpdateHead, SetList(items));
      ConcatIsSafe(UpdateHead + SetList(items), WhereIdLimitOne(id));
    case DeleteLoanStmt(id) =>
      WhereIdLimitOneIsSafe(id);
      assert forall c | c in DeleteHead :: SafeChar(c);
      ConcatIsSafe(DeleteHead, WhereIdLimitOne(id));
    case SelectLoans(id) =>
      SelectLoansIsSafe(id);
    case SelectUsers =>
      assert forall c | c in "SELECT * FROM users" :: SafeChar(c);
  }

  /** Every `-` in the text is the sign of an integer literal: a digit follows it. */
  predicate SignsOnly(t: string)
  {
    forall i | 0 <= i < |t| && t[i] == '-' :: i + 1 < |t| && IsDigit(t[i + 1])
  }

  lemma NoDashSignsOnly(t: string)
    requires '-' !in t
    ensures SignsOnly(t)
  {
    forall i | 0 <= i < |t|
      ensures t[i] != '-'
    {
      assert t[i] in t;
    }
  }

  lemma ConcatSignsOnly(a: string, b: string)
    requires SignsOnly(a) && SignsOnly(b)
    ensures SignsOnly(a + b)
  {
    var t := a + b;
    forall i | 0 <= i < |t| && t[i] == '-'
      ensures i + 1 < |t| && IsDigit(t[i + 1])
    {
      if i < |a| {
        assert a[i] == '-';
      } else {
        assert b[i - |a|] == '-';
      }
    }
  }

  lemma IntToStringSignsOnly(n: int)
    ensures SignsOnly(IntToString(n))
  {
    var s := IntToString(n);
    if n < 0 {
      var d := NatToString(-n);
      assert s == "-" + d;
      forall i | 0 < i < |s|
        ensures IsDigit(s[i])
      {
        assert s[i] == d[i - 1];
        assert d[i - 1] in d;
      }
      assert s[1] == d[0];
    } else {
      var d := NatToString(n);
      forall i | 0 <= i < |s|
        ensures IsDigit(s[i])
      {
        assert s[i] in d;
      }
    }
  }

  lemma {:induction false} SetListSignsOnly(items: seq<Assignment>)
    ensures SignsOnly(SetList(items))
  {
    if |items| > 0 {
      var a := items[0];
      IntToStringSignsOnly(a.value);
      assert '-' !in AssignPrefix(a.column);
      NoDashSignsOnly(AssignPrefix(a.column));
      ConcatSignsOnly(AssignPrefix(a.column), IntToString(a.value));
      if |items| > 1 {
        SetListSignsOnly(items[1..]);
        NoDashSignsOnly(",");
        ConcatSignsOnly(RenderAssignment(a), ",");
        ConcatSignsOnly(RenderAssignment(a) + ",", SetList(items[1..]));
      }
    }
  }

  lemma {:induction false} ValueListSignsOnly(vs: seq<int>)
    ensures SignsOnly(ValueList(vs))
  {
    if |vs| == 0 {
      NoDashSignsOnly("");
    } else {
      IntToStringSignsOnly(vs[0]);
      if |vs| > 1 {
        ValueListSignsOnly(vs[1..]);
        NoDashSignsOnly(", ");
        ConcatSignsOnly(IntToString(vs[0]), ", ");
        ConcatSignsOnly(IntToString(vs[0]) + ", ", ValueList(vs[1..]));
      }
    }
  }

  lemma WhereIdLimitOneSignsOnly(id: int)
    ensures SignsOnly(WhereIdLimitOne(id))
  {
    IntToStringSignsOnly(id);
    NoDashSignsOnly(" WHERE id = ");
    NoDashSignsOnly(" LIMIT 1");
    ConcatSignsOnly(" WHERE id = ", IntToString(id));
    ConcatSignsOnly(" WHERE id = " + IntToString(id), " LIMIT 1");
  }

  lemma SelectLoansSignsOnly(id: Option<int>)
    ensures SignsOnly(Render(SelectLoans(id)))
  {
    var condition := if id.Some? then "WHERE l.id = " + IntToString(id.value) else "";
    NoDashSignsOnly(SelectFrom);
    NoDashSignsOnly(LeftJoin);
    NoDashSignsOnly(JoinOn);
    NoDashSignsOnly(SelectLoansTail);
    ConcatSignsOnly(LeftJoin, JoinOn);
    ConcatSignsOnly(SelectFrom, JoinUsers);
    if id.Some? {
      IntToStringSignsOnly(id.value);
      NoDashSignsOnly("WHERE l.id = ");
      ConcatSignsOnly("WHERE l.id = ", IntToString(id.value));
    } else {
      NoDashSignsOnly("");
    }
    ConcatSignsOnly(SelectLoansHead, condition);
    ConcatSignsOnly(SelectLoansHead + condition, SelectLoansTail);
  }

  /** No generated statement contains MySQL's `--` comment marker, or any `-` that is not the
      sign of an integer literal: every `-` is followed by a digit. */
  lemma RenderHasNoCommentDash(s: Statement)
    ensures forall i | 0 <= i < |Render(s)| && Render(s)[i] == '-' ::
      i + 1 < |Render(s)| && IsDigit(Render(s)[i + 1])
  {
    match s
    case InsertLoan(vs) =>
      ValueListSignsOnly(vs);
      NoDashSignsOnly(InsertInto);
      NoDashSignsOnly(InsertColumns);
      NoDashSignsOnly(")");
      ConcatSignsOnly(InsertInto, InsertColumns);
      ConcatSignsOnly(InsertHead, ValueList(vs));
      ConcatSignsOnly(InsertHead + ValueList(vs), ")");
    case UpdateLoan(items, id) =>
      SetListSignsOnly(items);
      WhereIdLimitOneSignsOnly(id);
      NoDashSignsOnly(UpdateHead);
      ConcatSignsOnly(UpdateHead, SetList(items));
      ConcatSignsOnly(UpdateHead + SetList(items), WhereIdLimitOne(id));
    case DeleteLoanStmt(id) =>
      WhereIdLimitOneSignsOnly(id);
      NoDashSignsOnly(DeleteHead);
      ConcatSignsOnly(DeleteHead, WhereIdLimitOne(id));
    case SelectLoans(id) =>
      SelectLoansSignsOnly(id);
    case SelectUsers =>
      NoDashSignsOnly("SELECT * FROM users");
  }

  // ---------------------------------------------------------------------------------------
  // UPDATE and DELETE touch one row

  /** The text ends in `WHERE id = <id> LIMIT 1`, and nothing before that suffix contains a `W`,
      so that WHERE clause is the statement's only one. */
  predicate ScopedToRow(text: string, id: int)
  {
    var tail := WhereIdLimitOne(id);
    |tail| <= |text| && text[|text| - |tail|..] == tail && 'W' !in text[..|text| - |tail|]
  }

  lemma ScopedAfterHead(head: string, id: int)
    requires 'W' !in head
    ensures ScopedToRow(head + WhereIdLimitOne(id), id)
  {
    var tail := WhereIdLimitOne(id);
    assert (head + tail)[..|head|] == head;
    assert (head + tail)[|head|..] == tail;
  }

  /** Every UPDATE and DELETE the handlers can build is scoped to the one row whose id it carries. */
  lemma MutationsScopedToOneRow(s: Statement)
    requires s.UpdateLoan? || s.DeleteLoanStmt?
    ensures ScopedToRow(Render(s), s.id)
  {
    if s.UpdateLoan? {
      SetListChars(s.assignments);
      assert 'W' !in UpdateHead;
      assert 'W' !in UpdateHead + SetList(s.assignments);
      ScopedAfterHead(UpdateHead + SetList(s.assignments), s.id);
    } else {
      assert 'W' !in DeleteHead;
      ScopedAfterHead(DeleteHead, s.id);
    }
  }

  // ---------------------------------------------------------------------------------------
  // Reading a SET list back

  /** The pieces of `s` between occurrences of `sep` (PHP's `explode`). */
  function Split(s: string, sep: char): (pieces: seq<string>)
    ensures |pieces| >= 1
  {
    if |s| == 0 then [""]
    else if s[0] == sep then [""] + Split(s[1..], sep)
    else
      var rest := Split(s[1..], sep);
      [[s[0]] + rest[0]] + rest[1..]
  }

  lemma {:induction false} SplitWithoutSeparator(x: string, sep: char)
    requires sep !in x
    ensures Split(x, sep) == [x]
  {
    if |x| > 0 {
      SplitWithoutSeparator(x[1..], sep);
      assert [x[0]] + x[1..] == x;
    }
  }

  lemma {:induction false} SplitAtFirstSeparator(x: string, y: string, sep: char)
    requires sep !in x
    ensures Split(x + [sep] + y, sep) == [x] + Split(y, sep)
  {
    if |x| == 0 {
      assert x + [sep] + y == [sep] + y;
      assert ([sep] + y)[1..] == y;
    } else {
      assert (x + [sep] + y)[1..] == x[1..] + [sep] + y;
      SplitAtFirstSeparator(x[1..], y, sep);
      assert [x[0]] + x[1..] == x;
    }
  }

  /** Reads one `column = value` item. */
  function ParseAssignment(item: string): Option<Assignment>
  {
    if AssignPrefix(UserId) <= item then Some(Assignment(UserId, LeadingInt(item[|AssignPrefix(UserId)|..])))
    else if AssignPrefix(Amount) <= item then Some(Assignment(Amount, LeadingInt(item[|AssignPrefix(Amount)|..])))
    else if AssignPrefix(CreateTime) <= item then Some(Assignment(CreateTime, LeadingInt(item[|AssignPrefix(CreateTime)|..])))
    else if AssignPrefix(PayTime) <= item then Some(Assignment(PayTime, LeadingInt(item[|AssignPrefix(PayTime)|..])))
    else None
  }

  function ParseAssignments(pieces: seq<string>): Option<seq<Assignment>>
  {
    if |pieces| == 0 then Some([])
    else
      match ParseAssignment(pieces[0])
      case None => None
      case Some(a) =>
        match ParseAssignments(pieces[1..])
        case None => None
        case Some(rest) => Some([a] + rest)
  }

  /** Reads the SET list of an UPDATE back into its items. */
  function ParseSetList(s: string): Option<seq<Assignment>>
  {
    if s == "" then Some([]) else ParseAssignments(Split(s, ','))
  }

  lemma ParseRenderedAssignment(a: Assignment)
    ensures ParseAssignment(RenderAssignment(a)) == Some(a)
  {
    var item := RenderAssignment(a);
    var prefix := AssignPrefix(a.column);
    assert item[0] == prefix[0];
    assert item[|prefix|..] == IntToString(a.value);
    CastOfIntString(a.value);
  }

  lemma {:induction false} ParseRenderedAssignments(items: seq<Assignment>)
    requires |items| > 0
    ensures ParseAssignments(Split(SetList(items), ',')) == Some(items)
  {
    var first := RenderAssignment(items[0]);
    IntToStringChars(items[0].value);
    assert ',' !in first;
    ParseRenderedAssignment(items[0]);
    if |items| == 1 {
      SplitWithoutSeparator(first, ',');
      assert SetList(items) == first;
      assert [first][1..] == [];
      assert ParseAssignments([]) == Some([]);
      assert [items[0]] + [] == [items[0]];
      assert ParseAssignments([first]) == Some([items[0]]);
      assert [items[0]] == items;
    } else {
      var rest := SetList(items[1..]);
      assert SetList(items) == first + [','] + rest;
      SplitAtFirstSeparator(first, rest, ',');
      var pieces := [first] + Split(rest, ',');
      assert pieces[0] == first && pieces[1..] == Split(rest, ',');
      ParseRenderedAssignments(items[1..]);
      assert ParseAssignments(pieces) == Some([items[0]] + items[1..]);
      assert [items[0]] + items[1..] == items;
    }
  }

  /** Reading back the rendered SET list gives exactly the items it was built from: no payload
      can make the list say more, less or something else than the assignments the handler made. */
  lemma SetListRoundTrip(items: seq<Assignment>)
    ensures ParseSetList(SetList(items)) == Some(items)
  {
    if |items| > 0 {
      assert SetList(items) != "" by {
        assert |RenderAssignment(items[0])| > 0;
      }
      ParseRenderedAssignments(items);
    }
  }

  /** The position of the first `m` in `s`, or `|s|` when there is none. */
  function FirstIndex(s: string, m: char): (i: nat)
    ensures i <= |s|
  {
    if |s| == 0 || s[0] == m then 0 else 1 + FirstIndex(s[1..], m)
  }

  lemma {:induction false} FirstIndexAfter(a: string, b: string, m: char)
    requires m !in a && |b| > 0 && b[0] == m
    ensures FirstIndex(a + b, m) == |a|
  {
    if |a| > 0 {
      assert (a + b)[1..] == a[1..] + b;
      FirstIndexAfter(a[1..], b, m);
    }
  }

  /** Two texts that agree, each cut just before its first `m`, are cut at the same place. */
  lemma SplitAtMarker(a: string, b: string, c: string, d: string, m: char)
    requires a + b == c + d
    requires m !in a && m !in c
    requires |b| > 0 && b[0] == m && |d| > 0 && d[0] == m
    ensures a == c && b == d
  {
    FirstIndexAfter(a, b, m);
    FirstIndexAfter(c, d, m);
    assert a == (a + b)[..|a|] && c == (c + d)[..|c|];
    assert b == (a + b)[|a|..] && d == (c + d)[|c|..];
  }

  /** After its fixed head, an UPDATE's text is its SET list, a space, and the WHERE clause
      starting at its `W`. */
  lemma UpdateTextAfterHead(items: seq<Assignment>, id: int)
    ensures Render(UpdateLoan(items, id))[|UpdateHead|..]
         == (SetList(items) + " ") + ("WHERE id = " + IntToString(id) + " LIMIT 1")
  {
    var l, n := SetList(items), IntToString(id);
    assert Render(UpdateLoan(items, id)) == UpdateHead + ((l + " ") + ("WHERE id = " + n + " LIMIT 1"));
  }

  lemma SameWhereSameLiteral(n1: string, n2: string)
    requires "WHERE id = " + n1 + " LIMIT 1" == "WHERE id = " + n2 + " LIMIT 1"
    ensures n1 == n2
  {
    var t1, t2 := "WHERE id = " + n1 + " LIMIT 1", "WHERE id = " + n2 + " LIMIT 1";
    assert n1 == t1[11..|t1| - 8];
    assert n2 == t2[11..|t2| - 8];
  }

  /** The text of an UPDATE determines the statement: two UPDATEs render alike only when they
      assign the same columns the same values, in the same order, to the same row. */
  lemma UpdateTextDeterminesStatement(items1: seq<Assignment>, id1: int, items2: seq<Assignment>, id2: int)
    requires Render(UpdateLoan(items1, id1)) == Render(UpdateLoan(items2, id2))
    ensures items1 == items2 && id1 == id2
  {
    var l1, l2 := SetList(items1), SetList(items2);
    var n1, n2 := IntToString(id1), IntToString(id2);
    UpdateTextAfterHead(items1, id1);
    UpdateTextAfterHead(items2, id2);
    SetListChars(items1);
    SetListChars(items2);
    assert 'W' !in l1 + " " && 'W' !in l2 + " ";
    SplitAtMarker(l1 + " ", "WHERE id = " + n1 + " LIMIT 1", l2 + " ", "WHERE id = " + n2 + " LIMIT 1", 'W');
    assert l1 == (l1 + " ")[..|l1|] && l2 == (l2 + " ")[..|l2|];
    SetListRoundTrip(items1);
    SetListRoundTrip(items2);
    SameWhereSameLiteral(n1, n2);
    CastOfIntString(id1);
    CastOfIntString(id2);
  }
}
