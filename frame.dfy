/** A one-row data frame: an ordered sequence of labelled cells, with the
    handful of pandas operations that the recommendation function applies to it
    (column selection, column labelling, column dropping and reindexing). */
module Frame {

  datatype Option<T> = None | Some(value: T)

  /** A cell value. Values are only moved between columns, never computed on;
      the one value the frame itself produces is Zero, the reindex fill value. */
  datatype Value = Text(s: string) | Int(i: int) | Float(f: real)

  const Zero: Value := Int(0)

  datatype Column = Column(name: string, value: Value)

  /** The single row of a frame, column by column, left to right. */
  type Row = seq<Column>

  /** The column labels of a row, in order. */
  function Names(row: Row): (labels: seq<string>)
  {
    seq(|row|, i requires 0 <= i < |row| => row[i].name)
  }

  lemma NamesConcat(a: Row, b: Row)
    ensures Names(a + b) == Names(a) + Names(b)
  {
  }

  predicate Distinct(labels: seq<string>)
  {
    forall i, j :: 0 <= i < j < |labels| ==> labels[i] != labels[j]
  }

  /** Position of the first occurrence of `target`, or |labels| when absent. */
  function IndexOf(labels: seq<string>, target: string): (k: nat)
    ensures k <= |labels|
    ensures k < |labels| <==> target in labels
    ensures k < |labels| ==> labels[k] == target
    ensures forall j :: 0 <= j < k ==> labels[j] != target
    decreases |labels|
  {
    if labels == [] then 0
    else if labels[0] == target then 0
    else 1 + IndexOf(labels[1..], target)
  }

  /** The value under `target` (its first column), or Zero when no column has it. */
  function Lookup(row: Row, target: string): (v: Value)
    ensures target !in Names(row) ==> v == Zero
    ensures forall j :: 0 <= j < |row| && row[j].name == target && Distinct(Names(row)) ==> v == row[j].value
  {
    var ns := Names(row);
    assert forall j :: 0 <= j < |row| ==> ns[j] == row[j].name;
    var k := IndexOf(ns, target);
    if k < |row| then row[k].value else Zero
  }

  /** `frame[labels]`: the columns named by `labels`, in that order; a label the
      frame lacks is a KeyError. */
  function Select(row: Row, labels: seq<string>): (r: Option<Row>)
    ensures r.Some? <==> forall l :: l in labels ==> l in Names(row)
    ensures r.Some? ==> Names(r.value) == labels
    ensures r.Some? ==> forall i :: 0 <= i < |labels| ==> r.value[i].value == Lookup(row, labels[i])
  {
    if forall l :: l in labels ==> l in Names(row) then
      Some(seq(|labels|, i requires 0 <= i < |labels| => Column(labels[i], Lookup(row, labels[i]))))
    else
      None
  }

  /** `DataFrame(values)` followed by `frame.columns = labels`: the values are
      labelled positionally, and a length mismatch is a ValueError. */
  function Labelled(values: seq<Value>, labels: seq<string>): (r: Option<Row>)
    ensures r.Some? <==> |values| == |labels|
    ensures r.Some? ==> Names(r.value) == labels
    ensures r.Some? ==> forall i :: 0 <= i < |values| ==> r.value[i].value == values[i]
  {
    if |values| == |labels| then
      Some(seq(|values|, i requires 0 <= i < |values| => Column(labels[i], values[i])))
    else
      None
  }

  /** `[c for c in wanted if c in present]`. */
  function KeepPresent(wanted: seq<string>, present: seq<string>): (r: seq<string>)
    ensures forall c :: c in r <==> c in wanted && c in present
    ensures (forall c :: c in wanted ==> c in present) ==> r == wanted
    ensures |r| <= |wanted|
    decreases |wanted|
  {
    if wanted == [] then []
    else (if wanted[0] in present then [wanted[0]] else []) + KeepPresent(wanted[1..], present)
  }

  /** The columns of `row` whose label is not in `labels`, in their original order. */
  function Without(row: Row, labels: seq<string>): (r: Row)
    ensures |r| <= |row|
    decreases |row|
  {
    if row == [] then []
    else (if row[0].name in labels then [] else [row[0]]) + Without(row[1..], labels)
  }

  /** A column survives dropping exactly when its label is not dropped. */
  lemma {:induction false} WithoutMembers(row: Row, labels: seq<string>)
    ensures forall c :: c in Without(row, labels) <==> c in row && c.name !in labels
    decreases |row|
  {
    if row != [] {
      WithoutMembers(row[1..], labels);
      assert forall c :: c in row <==> c == row[0] || c in row[1..];
    }
  }

  /** Dropping labels no column carries leaves the row as it is. */
  lemma {:induction false} WithoutNone(row: Row, labels: seq<string>)
    requires forall c :: c in row ==> c.name !in labels
    ensures Without(row, labels) == row
    decreases |row|
  {
    if row != [] {
      assert row[0] in row;
      assert forall c :: c in row[1..] ==> c in row;
      WithoutNone(row[1..], labels);
      assert row == [row[0]] + row[1..];
    }
  }

  /** Dropping keeps the remaining columns in order: it distributes over `+`. */
  lemma {:induction false} WithoutConcat(a: Row, b: Row, labels: seq<string>)
    ensures Without(a + b, labels) == Without(a, labels) + Without(b, labels)
    decreases |a|
  {
    if a == [] {
      assert a + b == b;
    } else {
      assert (a + b)[0] == a[0];
      assert (a + b)[1..] == a[1..] + b;
      WithoutConcat(a[1..], b, labels);
    }
  }

  /** `frame.drop(columns=labels)`: every column carrying one of the labels goes;
      a label the frame lacks is a KeyError. */
  function Drop(row: Row, labels: seq<string>): (r: Option<Row>)
    ensures r.Some? <==> forall l :: l in labels ==> l in Names(row)
    ensures r.Some? ==> r.value == Without(row, labels)
  {
    if forall l :: l in labels ==> l in Names(row) then Some(Without(row, labels)) else None
  }

  /** `frame.reindex(columns=schema, fill_value=0)`. A frame whose labels already
      equal `schema` comes back unchanged. Otherwise a frame with a duplicated label
      cannot be reindexed (pandas raises ValueError); a frame with distinct labels
      gets one column per schema entry, holding the frame's value under that label,
      or Zero when the frame has no such column. Columns not in the schema vanish. */
  function Reindex(row: Row, schema: seq<string>): (r: Option<Row>)
    ensures r.None? <==> Names(row) != schema && !Distinct(Names(row))
    ensures r.Some? ==> Names(r.value) == schema
    ensures Names(row) == schema ==> r == Some(row)
  {
    if Names(row) == schema then Some(row)
    else if !Distinct(Names(row)) then None
    else Some(seq(|schema|, i requires 0 <= i < |schema| => Column(schema[i], Lookup(row, schema[i]))))
  }

  /** The alignment law: with distinct labels, reindexing always succeeds; position
      i is labelled schema[i] and holds the frame's value under that label, or Zero
      when the frame has no column of that name. */
  lemma ReindexAligns(row: Row, schema: seq<string>)
    requires Distinct(Names(row))
    ensures Reindex(row, schema).Some?
    ensures |Reindex(row, schema).value| == |schema|
    ensures forall i :: 0 <= i < |schema| ==> Reindex(row, schema).value[i].name == schema[i]
    ensures forall i, j :: 0 <= i < |schema| && 0 <= j < |row| && row[j].name == schema[i] ==>
              Reindex(row, schema).value[i].value == row[j].value
    ensures forall i :: 0 <= i < |schema| && schema[i] !in Names(row) ==>
              Reindex(row, schema).value[i].value == Zero
  {
    var r := Reindex(row, schema).value;
    assert |Names(r)| == |schema|;
    if Names(row) == schema {
      forall i, j | 0 <= i < |schema| && 0 <= j < |row| && row[j].name == schema[i]
        ensures r[i].value == row[j].value
      {
        assert Names(row)[i] == schema[i] && Names(row)[j] == schema[i];
      }
      forall i | 0 <= i < |schema| ensures schema[i] in Names(row) {
        assert Names(row)[i] == schema[i];
      }
    }
  }

  /** The alignment law for a row built by concatenation: a column of either
      part whose label the schema names reaches the aligned row with its value. */
  lemma ReindexConcat(a: Row, b: Row, schema: seq<string>)
    requires Distinct(Names(a + b))
    ensures Reindex(a + b, schema).Some?
    ensures forall i, j :: 0 <= i < |schema| && 0 <= j < |a| && a[j].name == schema[i] ==>
              Reindex(a + b, schema).value[i].value == a[j].value
    ensures forall i, k :: 0 <= i < |schema| && 0 <= k < |b| && b[k].name == schema[i] ==>
              Reindex(a + b, schema).value[i].value == b[k].value
  {
    var row := a + b;
    ReindexAligns(row, schema);
    forall i, j | 0 <= i < |schema| && 0 <= j < |a| && a[j].name == schema[i]
      ensures Reindex(row, schema).value[i].value == a[j].value
    {
      assert row[j] == a[j];
    }
    forall i, k | 0 <= i < |schema| && 0 <= k < |b| && b[k].name == schema[i]
      ensures Reindex(row, schema).value[i].value == b[k].value
    {
      assert row[|a| + k] == b[k];
    }
  }

  /** Reindexing an aligned row to the same schema changes nothing. */
  lemma ReindexIdempotent(row: Row, schema: seq<string>)
    requires Reindex(row, schema).Some?
    ensures Reindex(Reindex(row, schema).value, schema) == Reindex(row, schema)
  {
  }
}
