/** The two loops that turn a decoded payload into the values of a loan statement: the
    required-parameter scan of `POST /loans` and the allow-listed SET list of `PUT /loans/{id}`.
    Each loop is a method proved against a recursive function, and the lemmas below state what
    those functions promise. */
module LoanBuilder {
  import opened PhpValues
  import opened Sql

  /** `$requiredParams`, in the column order of the INSERT. */
  const RequiredColumns: seq<Column> := [UserId, Amount, PayTime]

  /** `$validParams`: the columns an update may set, in the order they are visited. */
  const ValidColumns: seq<Column> := [UserId, Amount, CreateTime, PayTime]

  /** `(int) $data[$key]`; PHP reads a missing key as null, whose cast is 0. */
  function CastOf(data: Payload, key: string): int
  {
    if key in data then IntCast(data[key]) else 0
  }

  /** The result of the required-parameter scan. */
  datatype Required = MissingParam(key: string) | AllPresent(values: seq<int>)

  /** Walks `cols` in order: the first column whose key is not set stops the scan and is named;
      otherwise every value, cast to int, in column order. */
  function ScanRequired(data: Payload, cols: seq<Column>): Required
  {
    if |cols| == 0 then AllPresent([])
    else if !IsSet(data, ColumnName(cols[0])) then MissingParam(ColumnName(cols[0]))
    else
      match ScanRequired(data, cols[1..])
      case MissingParam(key) => MissingParam(key)
      case AllPresent(rest) => AllPresent([IntCast(data[ColumnName(cols[0])])] + rest)
  }

  /** `cols[j]` is the first column of `cols` whose key is not set. */
  predicate FirstUnsetAt(data: Payload, cols: seq<Column>, j: int)
  {
    0 <= j < |cols| && !IsSet(data, ColumnName(cols[j]))
    && forall i | 0 <= i < j :: IsSet(data, ColumnName(cols[i]))
  }

  /** The scan names exactly the first unset key, and no key after it is looked at. */
  lemma {:induction false} ScanRequiredNamesFirstMissing(data: Payload, cols: seq<Column>, j: int)
    requires FirstUnsetAt(data, cols, j)
    ensures ScanRequired(data, cols) == MissingParam(ColumnName(cols[j]))
  {
    if j > 0 {
      assert FirstUnsetAt(data, cols[1..], j - 1) by {
        forall i | 0 <= i < j - 1
          ensures IsSet(data, ColumnName(cols[1..][i]))
        {
          assert cols[1..][i] == cols[i + 1];
        }
      }
      ScanRequiredNamesFirstMissing(data, cols[1..], j - 1);
    }
  }

  /** When every key is set, the scan yields one cast value per column, in column order. */
  lemma {:induction false} ScanRequiredAllSet(data: Payload, cols: seq<Column>)
    requires forall i | 0 <= i < |cols| :: IsSet(data, ColumnName(cols[i]))
    ensures ScanRequired(data, cols).AllPresent?
    ensures |ScanRequired(data, cols).values| == |cols|
    ensures forall i | 0 <= i < |cols| ::
      ScanRequired(data, cols).values[i] == CastOf(data, ColumnName(cols[i]))
  {
    if |cols| > 0 {
      assert IsSet(data, ColumnName(cols[0]));
      forall i | 0 <= i < |cols| - 1
        ensures IsSet(data, ColumnName(cols[1..][i]))
      {
        assert cols[1..][i] == cols[i + 1];
      }
      ScanRequiredAllSet(data, cols[1..]);
    }
  }

  /** The loop of `actionCreateLoan`: walk the required keys, append each `(int)` value, and
      return at the first key that is not set. */
  method CollectRequired(data: Payload) returns (r: Required)
    ensures r == ScanRequired(data, RequiredColumns)
  {
    var cols := RequiredColumns;
    var values: seq<int> := [];
    var i := 0;
    while i < |cols|
      invariant 0 <= i <= |cols|
      invariant forall j | 0 <= j < i :: IsSet(data, ColumnName(cols[j]))
      invariant |values| == i
      invariant forall j | 0 <= j < i :: values[j] == CastOf(data, ColumnName(cols[j]))
    {
      var key := ColumnName(cols[i]);
      if !IsSet(data, key) {
        ScanRequiredNamesFirstMissing(data, cols, i);
        return MissingParam(key);
      }
      values := values + [IntCast(data[key])];
      i := i + 1;
    }
    ScanRequiredAllSet(data, cols);
    r := AllPresent(values);
  }

  // ---------------------------------------------------------------------------------------
  // The SET list of an update

  /** One assignment per column of `cols` whose key is set, in the order of `cols`, each the
      `(int)` of the payload's value. */
  function Assignments(data: Payload, cols: seq<Column>): seq<Assignment>
  {
    if |cols| == 0 then []
    else
      var last := cols[|cols| - 1];
      var key := ColumnName(last);
      Assignments(data, cols[..|cols| - 1])
        + (if IsSet(data, key) then [Assignment(last, IntCast(data[key]))] else [])
  }

  /** The loop of `actionUpdateLoans`: skip unset keys, `settype` each set value to int in the
      payload itself, and append `column = value`. */
  method CollectAssignments(data: Payload) returns (items: seq<Assignment>)
    ensures items == Assignments(data, ValidColumns)
  {
    var cols := ValidColumns;
    var current := data;
    items := [];
    var i := 0;
    while i < |cols|
      invariant 0 <= i <= |cols|
      invariant current.Keys == data.Keys
      invariant forall k | k in data :: IsSet(current, k) == IsSet(data, k)
      invariant forall k | k in data :: IntCast(current[k]) == IntCast(data[k])
      invariant items == Assignments(data, cols[..i])
    {
      var key := ColumnName(cols[i]);
      assert cols[..i + 1][..i] == cols[..i];
      if IsSet(current, key) {
        current := current[key := JInt(IntCast(current[key]))];
        items := items + [Assignment(cols[i], current[key].i)];
      }
      i := i + 1;
    }
    assert cols[..|cols|] == cols;
  }

  function ColumnsOf(items: seq<Assignment>): seq<Column>
  {
    if |items| == 0 then [] else ColumnsOf(items[..|items| - 1]) + [items[|items| - 1].column]
  }

  /** The position of a column in `$validParams`. */
  function Ordinal(c: Column): nat
  {
    match c
    case UserId => 0
    case Amount => 1
    case CreateTime => 2
    case PayTime => 3
  }

  /** Strictly increasing positions: in allow-list order, and no column twice. */
  predicate InOrder(cols: seq<Column>)
  {
    forall i, j | 0 <= i < j < |cols| :: Ordinal(cols[i]) < Ordinal(cols[j])
  }

  lemma {:induction false} ColumnsOfSpec(items: seq<Assignment>)
    ensures |ColumnsOf(items)| == |items|
    ensures forall i | 0 <= i < |items| :: ColumnsOf(items)[i] == items[i].column
  {
    if |items| > 0 {
      ColumnsOfSpec(items[..|items| - 1]);
    }
  }

  /** The assignment is for a column of `cols` whose key is set, and carries that key's cast. */
  predicate SoundItem(data: Payload, cols: seq<Column>, a: Assignment)
  {
    a.column in cols && IsSet(data, ColumnName(a.column)) && a.value == CastOf(data, ColumnName(a.column))
  }

  lemma {:induction false} AssignmentsSound(data: Payload, cols: seq<Column>)
    ensures forall a | a in Assignments(data, cols) :: SoundItem(data, cols, a)
  {
    if |cols| > 0 {
      var init := cols[..|cols| - 1];
      var last := cols[|cols| - 1];
      AssignmentsSound(data, init);
      assert forall c | c in init :: c in cols;
      assert last in cols;
    }
  }

  /** A column has an assignment exactly when it is in `cols` and its key is set. */
  lemma {:induction false} AssignmentsComplete(data: Payload, cols: seq<Column>)
    ensures forall c :: c in ColumnsOf(Assignments(data, cols)) <==> c in cols && IsSet(data, ColumnName(c))
  {
    if |cols| > 0 {
      var init := cols[..|cols| - 1];
      var last := cols[|cols| - 1];
      AssignmentsComplete(data, init);
      assert cols == init + [last];
      var r0 := Assignments(data, init);
      var r := Assignments(data, cols);
      if IsSet(data, ColumnName(last)) {
        assert r[..|r| - 1] == r0;
        assert ColumnsOf(r) == ColumnsOf(r0) + [last];
      } else {
        assert r == r0;
      }
    }
  }

  /** The assignments keep the order of `cols`. */
  lemma {:induction false} AssignmentsOrdered(data: Payload, cols: seq<Column>)
    requires InOrder(cols)
    ensures InOrder(ColumnsOf(Assignments(data, cols)))
  {
    if |cols| > 0 {
      var init := cols[..|cols| - 1];
      var last := cols[|cols| - 1];
      assert InOrder(init);
      AssignmentsOrdered(data, init);
      var r0 := Assignments(data, init);
      var r := Assignments(data, cols);
      if IsSet(data, ColumnName(last)) {
        assert r[..|r| - 1] == r0;
        assert ColumnsOf(r) == ColumnsOf(r0) + [last];
        AssignmentsComplete(data, init);
        forall i | 0 <= i < |ColumnsOf(r0)|
          ensures Ordinal(ColumnsOf(r0)[i]) < Ordinal(last)
        {
          assert ColumnsOf(r0)[i] in ColumnsOf(r0);
          var k :| 0 <= k < |init| && init[k] == ColumnsOf(r0)[i];
          assert cols[k] == init[k];
        }
      } else {
        assert r == r0;
      }
    }
  }

  /** The SET list is empty exactly when the payload sets none of the four allow-listed keys;
      the update still goes ahead with it. */
  lemma AssignmentsEmptyIffNoneSet(data: Payload)
    ensures Assignments(data, ValidColumns) == []
        <==> forall c: Column :: !IsSet(data, ColumnName(c))
  {
    AssignmentsSound(data, ValidColumns);
    AssignmentsComplete(data, ValidColumns);
    var r := Assignments(data, ValidColumns);
    if r != [] {
      assert ColumnsOf(r)[0] in ColumnsOf(r);
    }
    forall c: Column | IsSet(data, ColumnName(c))
      ensures r != []
    {
      assert c in ValidColumns by {
        assert ValidColumns[Ordinal(c)] == c;
      }
      assert c in ColumnsOf(r);
    }
  }

  /** The update's items: allow-listed columns only, in allow-list order, each at most once,
      exactly those whose keys are set, with their cast values. */
  lemma UpdateAssignmentsInAllowListOrder(data: Payload)
    ensures var r := Assignments(data, ValidColumns);
      InOrder(ColumnsOf(r))
      && (forall c: Column :: c in ColumnsOf(r) <==> IsSet(data, ColumnName(c)))
      && (forall a | a in r :: a.value == CastOf(data, ColumnName(a.column)))
  {
    AssignmentsSound(data, ValidColumns);
    AssignmentsComplete(data, ValidColumns);
    assert InOrder(ValidColumns);
    AssignmentsOrdered(data, ValidColumns);
    forall c: Column
      ensures c in ValidColumns
    {
      assert ValidColumns[Ordinal(c)] == c;
    }
  }

  /** Keys outside the allow-list have no influence: two payloads that agree on the allow-listed
      keys build the same SET list. */
  lemma {:induction false} AssignmentsIgnoreOtherKeys(d1: Payload, d2: Payload, cols: seq<Column>)
    requires forall c | c in cols :: (ColumnName(c) in d1 <==> ColumnName(c) in d2)
    requires forall c | c in cols && ColumnName(c) in d1 :: d1[ColumnName(c)] == d2[ColumnName(c)]
    ensures Assignments(d1, cols) == Assignments(d2, cols)
  {
    if |cols| > 0 {
      var init := cols[..|cols| - 1];
      assert forall c | c in init :: c in cols;
      AssignmentsIgnoreOtherKeys(d1, d2, init);
      assert cols[|cols| - 1] in cols;
    }
  }
}
