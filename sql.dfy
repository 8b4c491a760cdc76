/**
 * The partial-update statements the repositories assemble at execution time: a
 * list of `column = ?` (or `column = CURRENT_TIMESTAMP`) assignments joined
 * with ", ", followed by `WHERE id = ?`, and the list of values bound to the
 * placeholders in order.
 */
module Sql {

  import opened Wrappers
  import Seqs

  /** A value bound to a placeholder. */
  datatype SqlValue =
    | SqlInt(i: int)
    | SqlReal(r: real)
    | SqlText(s: string)
    | SqlJson(items: seq<string>)   // the JSON text of a list of strings
    | SqlNull

  /** One entry of the SET list. */
  datatype Assignment =
    | Bind(column: string, value: SqlValue)   // `column = ?`, the value is bound
    | SetNow(column: string)                  // `column = CURRENT_TIMESTAMP`, nothing bound

  /** `UPDATE table SET assignments WHERE id = ?`, with `id` bound last. */
  datatype UpdateStatement = UpdateStatement(table: string, assignments: seq<Assignment>, id: string)

  /** A piece of statement text: literal SQL, or a `?` placeholder. */
  datatype Fragment = Sql(text: string) | Placeholder

  /** The fragments of one assignment. */
  function AssignmentFragments(a: Assignment): seq<Fragment>
  {
    match a
    case Bind(c, _) => [Sql(c + " = "), Placeholder]
    case SetNow(c) => [Sql(c + " = CURRENT_TIMESTAMP")]
  }

  /** The fragments of the SET list: the assignments separated by ", ". */
  function SetList(assignments: seq<Assignment>): seq<Fragment>
  {
    if |assignments| == 0 then []
    else if |assignments| == 1 then AssignmentFragments(assignments[0])
    else AssignmentFragments(assignments[0]) + [Sql(", ")] + SetList(assignments[1..])
  }

  /** The statement as text fragments. */
  function Render(st: UpdateStatement): seq<Fragment>
  {
    [Sql("UPDATE " + st.table + " SET ")] + SetList(st.assignments) + [Sql(" WHERE id = "), Placeholder]
  }

  /** The SQL text of a fragment sequence, each placeholder written `?`. */
  function Text(fs: seq<Fragment>): string
  {
    if |fs| == 0 then ""
    else (match fs[0] case Sql(t) => t case Placeholder => "?") + Text(fs[1..])
  }

  /** The number of placeholders among the fragments. */
  function Placeholders(fs: seq<Fragment>): nat
  {
    if |fs| == 0 then 0 else (if fs[0].Placeholder? then 1 else 0) + Placeholders(fs[1..])
  }

  lemma {:induction false} PlaceholdersAppend(a: seq<Fragment>, b: seq<Fragment>)
    ensures Placeholders(a + b) == Placeholders(a) + Placeholders(b)
  {
    if |a| == 0 {
      assert a + b == b;
    } else {
      assert (a + b)[0] == a[0];
      assert (a + b)[1..] == a[1..] + b;
      PlaceholdersAppend(a[1..], b);
    }
  }

  /** The values bound to the assignments' placeholders, in order. */
  function AssignmentValues(assignments: seq<Assignment>): (vs: seq<SqlValue>)
    ensures |vs| <= |assignments|
  {
    if |assignments| == 0 then []
    else
      (match assignments[0]
       case Bind(_, v) => [v]
       case SetNow(_) => [])
      + AssignmentValues(assignments[1..])
  }

  /** Every value the statement binds: the assignments' values, then the id. */
  function BoundValues(st: UpdateStatement): (vs: seq<SqlValue>)
    ensures |vs| >= 1 && vs[|vs| - 1] == SqlText(st.id)
  {
    AssignmentValues(st.assignments) + [SqlText(st.id)]
  }

  /** The columns the statement assigns, in order. */
  function Columns(assignments: seq<Assignment>): (cs: seq<string>)
    ensures |cs| == |assignments|
    ensures forall i :: 0 <= i < |cs| ==> cs[i] == assignments[i].column
  {
    Seqs.Map(assignments, (a: Assignment) => a.column)
  }

  /** Every assignment binds a value (none uses CURRENT_TIMESTAMP). */
  predicate AllBound(assignments: seq<Assignment>)
  {
    forall i :: 0 <= i < |assignments| ==> assignments[i].Bind?
  }

  lemma {:induction false} AllBoundValues(assignments: seq<Assignment>)
    requires AllBound(assignments)
    ensures |AssignmentValues(assignments)| == |assignments|
  {
    if |assignments| > 0 {
      AllBoundValues(assignments[1..]);
    }
  }

  /** An assignment holds a placeholder exactly when it binds a value. */
  lemma AssignmentPlaceholders(a: Assignment)
    ensures Placeholders(AssignmentFragments(a)) == if a.Bind? then 1 else 0
  {
    match a
    case Bind(c, _) =>
      assert Placeholders([Placeholder]) == 1;
    case SetNow(c) =>
  }

  /** The SET list has one placeholder per bound value. */
  lemma {:induction false} SetListPlaceholders(assignments: seq<Assignment>)
    ensures Placeholders(SetList(assignments)) == |AssignmentValues(assignments)|
  {
    if |assignments| == 1 {
      AssignmentPlaceholders(assignments[0]);
      assert AssignmentValues(assignments[1..]) == [];
    } else if |assignments| > 1 {
      SetListPlaceholders(assignments[1..]);
      var head := AssignmentFragments(assignments[0]);
      PlaceholdersAppend(head + [Sql(", ")], SetList(assignments[1..]));
      PlaceholdersAppend(head, [Sql(", ")]);
      AssignmentPlaceholders(assignments[0]);
    }
  }

  /** The statement has exactly one placeholder per bound value. */
  lemma PlaceholdersMatchValues(st: UpdateStatement)
    ensures Placeholders(Render(st)) == |BoundValues(st)|
  {
    SetListPlaceholders(st.assignments);
    PlaceholdersAppend([Sql("UPDATE " + st.table + " SET ")] + SetList(st.assignments), [Sql(" WHERE id = "), Placeholder]);
    PlaceholdersAppend([Sql("UPDATE " + st.table + " SET ")], SetList(st.assignments));
  }

  /**
   * The value `column` holds after the SET list runs at clock `now`. The
   * rightmost assignment to a column wins, as in SQLite; None when the list
   * does not assign the column.
   */
  function ValueAfter(assignments: seq<Assignment>, column: string, now: string): Option<SqlValue>
  {
    if |assignments| == 0 then None
    else
      var last := assignments[|assignments| - 1];
      if last.column == column then
        (match last
         case Bind(_, v) => Some(v)
         case SetNow(_) => Some(SqlText(now)))
      else ValueAfter(assignments[..|assignments| - 1], column, now)
  }

  /** Of two joined SET lists, the second one's assignment to a column wins. */
  lemma {:induction false} ValueAfterAppend(a: seq<Assignment>, b: seq<Assignment>, column: string, now: string)
    ensures ValueAfter(a + b, column, now)
      == if ValueAfter(b, column, now).Some? then ValueAfter(b, column, now) else ValueAfter(a, column, now)
  {
    if |b| == 0 {
      assert a + b == a;
    } else {
      assert (a + b)[..|a + b| - 1] == a + b[..|b| - 1];
      assert (a + b)[|a + b| - 1] == b[|b| - 1];
      ValueAfterAppend(a, b[..|b| - 1], column, now);
    }
  }

  /**
   * A column a partial update may set. `value` is None when the caller left
   * the field `undefined`, so that no `column = ?` is pushed for it.
   */
  datatype Field = Field(column: string, value: Option<SqlValue>)

  /** A field holding an integer, a number or a text, bound as is when supplied. */
  function IntField(column: string, o: Option<int>): Field
  {
    Field(column, if o.Some? then Some(SqlInt(o.value)) else None)
  }

  function RealField(column: string, o: Option<real>): Field
  {
    Field(column, if o.Some? then Some(SqlReal(o.value)) else None)
  }

  function TextField(column: string, o: Option<string>): Field
  {
    Field(column, if o.Some? then Some(SqlText(o.value)) else None)
  }

  /** The fields named `columns`, holding `values` in the same order. */
  function FieldsOf(columns: seq<string>, values: seq<Option<SqlValue>>): (fields: seq<Field>)
    requires |columns| == |values|
    ensures |fields| == |columns|
    ensures forall i :: 0 <= i < |fields| ==> fields[i] == Field(columns[i], values[i])
  {
    if |columns| == 0 then []
    else FieldsOf(columns[..|columns| - 1], values[..|values| - 1]) + [Field(columns[|columns| - 1], values[|values| - 1])]
  }

  /** No field was supplied. */
  predicate NoneSupplied(fields: seq<Field>)
  {
    forall i :: 0 <= i < |fields| ==> fields[i].value.None?
  }

  /** How many fields were supplied. */
  function SuppliedCount(fields: seq<Field>): (n: nat)
    ensures n <= |fields|
    ensures n == 0 <==> NoneSupplied(fields)
  {
    if |fields| == 0 then 0
    else (if fields[0].value.Some? then 1 else 0) + SuppliedCount(fields[1..])
  }

  /**
   * The assignments a sequence of `if (x !== undefined) { fields.push('c = ?');
   * values.push(x) }` statements produces: one bound assignment per supplied
   * field, in field order.
   */
  function Supplied(fields: seq<Field>): (r: seq<Assignment>)
    ensures |r| == SuppliedCount(fields)
    ensures AllBound(r)
  {
    if |fields| == 0 then []
    else
      SuppliedOne(fields[0]) + Supplied(fields[1..])
  }

  lemma {:induction false} SuppliedAppend(a: seq<Field>, b: seq<Field>)
    ensures Supplied(a + b) == Supplied(a) + Supplied(b)
  {
    if |a| == 0 {
      assert a + b == b;
    } else {
      SuppliedAppendStep(a, b);
      SuppliedAppend(a[1..], b);
      Associative(SuppliedOne(a[0]), Supplied(a[1..]), Supplied(b));
    }
  }

  lemma SuppliedAppendStep(a: seq<Field>, b: seq<Field>)
    requires |a| > 0
    ensures Supplied(a + b) == SuppliedOne(a[0]) + Supplied(a[1..] + b)
  {
    assert (a + b)[0] == a[0];
    assert (a + b)[1..] == a[1..] + b;
  }

  lemma SuppliedSingle(f: Field)
    ensures Supplied([f]) == SuppliedOne(f)
  {
    assert [f][1..] == [];
  }

  lemma Associative(x: seq<Assignment>, y: seq<Assignment>, z: seq<Assignment>)
    ensures x + (y + z) == (x + y) + z
  {
  }

  /** The assignment one field contributes: one when it is supplied, none otherwise. */
  function SuppliedOne(f: Field): seq<Assignment>
  {
    if f.value.Some? then [Bind(f.column, f.value.value)] else []
  }

  /** The value of the last supplied field for `column`. */
  function LastValue(fields: seq<Field>, column: string): Option<SqlValue>
  {
    if |fields| == 0 then None
    else if fields[|fields| - 1].column == column && fields[|fields| - 1].value.Some? then fields[|fields| - 1].value
    else LastValue(fields[..|fields| - 1], column)
  }

  /** After the pushed assignments, each column holds the value of the last field supplied for it. */
  lemma {:induction false} ValueAfterSupplied(fields: seq<Field>, column: string, now: string)
    ensures ValueAfter(Supplied(fields), column, now) == LastValue(fields, column)
  {
    if |fields| > 0 {
      var init := fields[..|fields| - 1];
      var last := fields[|fields| - 1];
      assert fields == init + [last];
      SuppliedAppend(init, [last]);
      ValueAfterSupplied(init, column, now);
      ValueAfterAppend(Supplied(init), Supplied([last]), column, now);
      SuppliedSingle(last);
    }
  }

  /** The columns the fields name, in order. */
  function FieldColumns(fields: seq<Field>): (cs: seq<string>)
    ensures |cs| == |fields|
    ensures forall i :: 0 <= i < |fields| ==> cs[i] == fields[i].column
  {
    Seqs.Map(fields, (f: Field) => f.column)
  }

  /** Every assignment the pushes produce is to a column some field names. */
  lemma {:induction false} SuppliedColumnsNamed(fields: seq<Field>)
    ensures forall i :: 0 <= i < |Supplied(fields)| ==> Supplied(fields)[i].column in FieldColumns(fields)
  {
    if |fields| > 0 {
      SuppliedColumnsNamed(fields[1..]);
      assert FieldColumns(fields) == [fields[0].column] + FieldColumns(fields[1..]);
    }
  }

  /** When no column is named twice, a column gets the value of its own field, if supplied. */
  lemma {:induction false} LastValueAt(fields: seq<Field>, k: nat)
    requires k < |fields|
    requires Seqs.NoDuplicates(FieldColumns(fields))
    ensures LastValue(fields, fields[k].column) == fields[k].value
  {
    var n := |fields|;
    var init := fields[..n - 1];
    assert forall i :: 0 <= i < n && i != k ==> FieldColumns(fields)[i] != FieldColumns(fields)[k];
    if k < n - 1 {
      assert init[k] == fields[k];
      forall i, j | 0 <= i < j < n - 1
        ensures FieldColumns(init)[i] != FieldColumns(init)[j]
      {
        assert FieldColumns(init)[i] == FieldColumns(fields)[i];
        assert FieldColumns(init)[j] == FieldColumns(fields)[j];
      }
      LastValueAt(init, k);
    } else if fields[k].value.None? {
      LastValueAbsent(init, fields[k].column);
    }
  }

  /** A column no field names is never assigned. */
  lemma {:induction false} LastValueAbsent(fields: seq<Field>, column: string)
    requires forall i :: 0 <= i < |fields| ==> fields[i].column != column
    ensures LastValue(fields, column) == None
  {
    if |fields| > 0 {
      LastValueAbsent(fields[..|fields| - 1], column);
    }
  }

  /** A SET list that never names `column` leaves it unassigned. */
  lemma {:induction false} ValueAfterNotAssigned(assignments: seq<Assignment>, column: string, now: string)
    requires forall i :: 0 <= i < |assignments| ==> assignments[i].column != column
    ensures ValueAfter(assignments, column, now) == None
  {
    if |assignments| > 0 {
      ValueAfterNotAssigned(assignments[..|assignments| - 1], column, now);
    }
  }

  /**
   * Fields named by distinct `columns`, followed by assignments to other
   * columns: column `columns[k]` ends up holding `values[k]` when that value
   * is supplied, and is not assigned when it is not.
   */
  lemma ValueAfterFieldsOf(columns: seq<string>, values: seq<Option<SqlValue>>, tail: seq<Assignment>, k: nat, now: string)
    requires |columns| == |values| && k < |columns|
    requires Seqs.NoDuplicates(columns)
    requires forall i :: 0 <= i < |tail| ==> tail[i].column != columns[k]
    ensures ValueAfter(Supplied(FieldsOf(columns, values)) + tail, columns[k], now) == values[k]
  {
    var fields := FieldsOf(columns, values);
    assert FieldColumns(fields) == columns;
    ValueAfterFields(fields, tail, k, now);
  }

  /** When no column is named twice, the k-th field's column ends up with that field's value, if supplied. */
  lemma ValueAfterFields(fields: seq<Field>, tail: seq<Assignment>, k: nat, now: string)
    requires k < |fields|
    requires Seqs.NoDuplicates(FieldColumns(fields))
    requires forall i :: 0 <= i < |tail| ==> tail[i].column != fields[k].column
    ensures ValueAfter(Supplied(fields) + tail, fields[k].column, now) == fields[k].value
  {
    ValueAfterAppend(Supplied(fields), tail, fields[k].column, now);
    ValueAfterNotAssigned(tail, fields[k].column, now);
    ValueAfterSupplied(fields, fields[k].column, now);
    LastValueAt(fields, k);
  }

  /** Fields followed by other assignments leave a column that none of them names unassigned. */
  lemma ValueAfterFieldsOfOther(columns: seq<string>, values: seq<Option<SqlValue>>, tail: seq<Assignment>, column: string, now: string)
    requires |columns| == |values|
    requires column !in columns
    requires forall i :: 0 <= i < |tail| ==> tail[i].column != column
    ensures ValueAfter(Supplied(FieldsOf(columns, values)) + tail, column, now) == None
  {
    var fields := FieldsOf(columns, values);
    ValueAfterAppend(Supplied(fields), tail, column, now);
    ValueAfterNotAssigned(tail, column, now);
    ValueAfterSupplied(fields, column, now);
    LastValueAbsent(fields, column);
  }

  /** The `fields`/`values` push sequence of a repository's `update`, field by field. */
  method BuildAssignments(fields: seq<Field>) returns (assignments: seq<Assignment>)
    ensures assignments == Supplied(fields)
  {
    assignments := [];
    var i := 0;
    while i < |fields|
      invariant 0 <= i <= |fields|
      invariant assignments == Supplied(fields[..i])
    {
      assert fields[..i + 1] == fields[..i] + [fields[i]];
      SuppliedAppend(fields[..i], [fields[i]]);
      SuppliedSingle(fields[i]);
      if fields[i].value.Some? {
        assignments := assignments + [Bind(fields[i].column, fields[i].value.value)];
      }
      i := i + 1;
    }
    assert fields[..i] == fields;
  }

  /** A statement that assigns only bound values, plus possibly a CURRENT_TIMESTAMP column, binds one value per bound assignment plus the id. */
  lemma BoundValuesCount(table: string, fields: seq<Field>, tail: seq<Assignment>, id: string)
    ensures |BoundValues(UpdateStatement(table, Supplied(fields) + tail, id))| == SuppliedCount(fields) + |AssignmentValues(tail)| + 1
    ensures Placeholders(Render(UpdateStatement(table, Supplied(fields) + tail, id))) == |BoundValues(UpdateStatement(table, Supplied(fields) + tail, id))|
  {
    AssignmentValuesAppend(Supplied(fields), tail);
    AllBoundValues(Supplied(fields));
    PlaceholdersMatchValues(UpdateStatement(table, Supplied(fields) + tail, id));
  }

  lemma {:induction false} AssignmentValuesAppend(a: seq<Assignment>, b: seq<Assignment>)
    ensures AssignmentValues(a + b) == AssignmentValues(a) + AssignmentValues(b)
  {
    if |a| == 0 {
      assert a + b == b;
    } else {
      assert (a + b)[0] == a[0];
      assert (a + b)[1..] == a[1..] + b;
      AssignmentValuesAppend(a[1..], b);
    }
  }

  /** The encoding of an optional text column: NULL when absent. */
  function TextOrNull(o: Option<string>): SqlValue
  {
    if o.Some? then SqlText(o.value) else SqlNull
  }

  /** The encoding of an optional number column: NULL when absent. */
  function RealOrNull(o: Option<real>): SqlValue
  {
    if o.Some? then SqlReal(o.value) else SqlNull
  }

  /** JavaScript's `text || null`: an absent or empty text is stored as NULL. */
  function NonEmpty(o: Option<string>): (r: Option<string>)
    ensures r.Some? <==> o.Some? && o.value != ""
    ensures r.Some? ==> r == o
  {
    if o.Some? && o.value != "" then o else None
  }

  /** The encoding of an optional list column: its JSON text, NULL when absent. */
  function JsonOrNull(o: Option<seq<string>>): SqlValue
  {
    if o.Some? then SqlJson(o.value) else SqlNull
  }
}
