/**
 * The pandas DataFrame the runner works on, as `read_excel` produces it:
 * distinct column names and rows at positions 0 .. N-1, each row a map
 * from column name to cell text. Columns are added and cells written in
 * place.
 */
module Tables {

  predicate Distinct(names: seq<string>) {
    forall a, b :: 0 <= a < b < |names| ==> names[a] != names[b]
  }

  /** Every row has a cell for exactly the given columns. */
  ghost predicate Shaped(columns: seq<string>, rows: seq<map<string, string>>) {
    forall i, c :: 0 <= i < |rows| ==> (c in rows[i] <==> c in columns)
  }

  /** Rows keep their shape when only the values of existing cells change. */
  lemma ShapeKept(columns: seq<string>, before: seq<map<string, string>>, after: seq<map<string, string>>)
    requires Shaped(columns, before) && |after| == |before|
    requires forall i :: 0 <= i < |before| ==> after[i].Keys == before[i].Keys
    ensures Shaped(columns, after)
  {
    forall i, c | 0 <= i < |after|
      ensures c in after[i] <==> c in columns
    {
      assert c in after[i] <==> c in before[i].Keys;
    }
  }

  /** The column list after `df[name] = value`: a new name goes last, an existing one keeps its place. */
  function WithColumn(columns: seq<string>, name: string): (r: seq<string>)
    ensures forall c :: c in r <==> c in columns || c == name
    ensures Distinct(columns) ==> Distinct(r)
    ensures |columns| <= |r| && r[..|columns|] == columns
  {
    if name in columns then columns else columns + [name]
  }

  /** The values of one column, in row order (`df[name]`). */
  function ColumnOf(rows: seq<map<string, string>>, name: string): (col: seq<string>)
    requires forall i :: 0 <= i < |rows| ==> name in rows[i]
  {
    seq(|rows|, i requires 0 <= i < |rows| => rows[i][name])
  }

  /** The rows after writing `values[i]` into column `name` of row i, for every i. */
  function SetColumn(rows: seq<map<string, string>>, name: string, values: seq<string>): (r: seq<map<string, string>>)
    requires |values| == |rows|
    ensures |r| == |rows|
  {
    seq(|rows|, i requires 0 <= i < |rows| => rows[i][name := values[i]])
  }

  /** The rows after `df[name] = value`: the same value in every row. */
  function Fill(rows: seq<map<string, string>>, name: string, value: string): seq<map<string, string>> {
    SetColumn(rows, name, seq(|rows|, _ => value))
  }

  /** Reading back a column just written gives the values written, in row order. */
  lemma ReadWritten(rows: seq<map<string, string>>, name: string, values: seq<string>)
    requires |values| == |rows|
    ensures ColumnOf(SetColumn(rows, name, values), name) == values
  {
  }

  /** Writing one column leaves every other column as it was. */
  lemma ReadOther(rows: seq<map<string, string>>, name: string, values: seq<string>, other: string)
    requires |values| == |rows| && other != name
    requires forall i :: 0 <= i < |rows| ==> other in rows[i]
    ensures ColumnOf(SetColumn(rows, name, values), other) == ColumnOf(rows, other)
  {
  }

  /**
   * Filling two different columns with placeholders and then writing both
   * columns gives the same rows as writing the two columns directly.
   */
  lemma {:induction false} FilledThenWritten(rows: seq<map<string, string>>, a: string, b: string,
                                             x: string, y: string, xs: seq<string>, ys: seq<string>)
    requires a != b && |xs| == |rows| && |ys| == |rows|
    ensures SetColumn(SetColumn(Fill(Fill(rows, a, x), b, y), a, xs), b, ys)
         == SetColumn(SetColumn(rows, a, xs), b, ys)
  {
    var lhs := SetColumn(SetColumn(Fill(Fill(rows, a, x), b, y), a, xs), b, ys);
    var rhs := SetColumn(SetColumn(rows, a, xs), b, ys);
    forall i | 0 <= i < |rows|
      ensures lhs[i] == rhs[i]
    {
      assert lhs[i] == rows[i][a := x][b := y][a := xs[i]][b := ys[i]];
    }
  }

  class Table {
    var columns: seq<string>
    var rows: seq<map<string, string>>

    ghost predicate Valid()
      reads this
    {
      Distinct(columns) && Shaped(columns, rows)
    }

    constructor (columns: seq<string>, records: seq<map<string, string>>)
      requires Distinct(columns) && Shaped(columns, records)
      ensures Valid()
      ensures this.columns == columns && rows == records
    {
      this.columns := columns;
      rows := records;
    }

    /** `df[name] = value`: every row gets `value` in column `name`. */
    method AssignColumn(name: string, value: string)
      requires Valid()
      modifies this
      ensures Valid()
      ensures columns == WithColumn(old(columns), name)
      ensures rows == Fill(old(rows), name, value)
    {
      rows := Fill(rows, name, value);
      columns := WithColumn(columns, name);
    }

    /** `df[name]`: the column's values in row order. */
    method Column(name: string) returns (col: seq<string>)
      requires Valid() && name in columns
      ensures col == ColumnOf(rows, name)
    {
      col := ColumnOf(rows, name);
    }

    /** `df.at[i, name] = value` for an existing column. */
    method SetAt(i: nat, name: string, value: string)
      requires Valid() && i < |rows| && name in columns
      modifies this
      ensures Valid()
      ensures rows == old(rows)[i := old(rows)[i][name := value]]
      ensures columns == old(columns)
    {
      var before := rows;
      rows := rows[i := rows[i][name := value]];
      assert rows[i].Keys == before[i].Keys;
      ShapeKept(columns, before, rows);
    }
  }
}
