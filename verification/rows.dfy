/** The loader's structured rows (dify-batch-processor/loader/main.py): a
    sheet row becomes one single-entry map per named header column, and a
    column is looked up by name in the first map that holds it. */
module Rows {
  import opened Basics

  /** A structured row: one single-entry map {column name: cell} per named column. */
  type StructuredRow = seq<map<string, string>>

  /** A structured row with its spreadsheet row number. */
  datatype NumberedRow = NumberedRow(number: int, cells: StructuredRow)

  // ---------------------------------------------------------------------------
  // Row structuring and lookup

  /** `find_data_by_name`: the value under `name` in the first map holding it. */
  function FindDataByName(row: StructuredRow, name: string): Option<string> {
    if |row| == 0 then None
    else if name in row[0] then Some(row[0][name])
    else FindDataByName(row[1..], name)
  }

  /** The lookup finds nothing exactly when no map holds the name, and
      otherwise the value in the first map that does. */
  lemma {:induction false} FindDataByNameFirst(row: StructuredRow, name: string)
    ensures FindDataByName(row, name).None? <==> forall i :: 0 <= i < |row| ==> name !in row[i]
    ensures FindDataByName(row, name).Some? ==>
              exists i :: 0 <= i < |row| && name in row[i] && FindDataByName(row, name).value == row[i][name]
                          && forall j :: 0 <= j < i ==> name !in row[j]
  {
    if |row| > 0 && name !in row[0] {
      FindDataByNameFirst(row[1..], name);
      assert forall i :: 1 <= i < |row| ==> row[i] == row[1..][i - 1];
      var r := FindDataByName(row, name);
      if r.Some? {
        var i' :| 0 <= i' < |row[1..]| && name in row[1..][i'] && r.value == row[1..][i'][name]
                   && forall j :: 0 <= j < i' ==> name !in row[1..][j];
        assert name in row[i' + 1] && forall j :: 0 <= j < i' + 1 ==> name !in row[j];
      }
    }
  }

  /** A lookup in a concatenation looks in the second part only when the first lacks the name. */
  lemma {:induction false} FindInConcat(a: StructuredRow, b: StructuredRow, name: string)
    ensures FindDataByName(a + b, name)
            == if FindDataByName(a, name).Some? then FindDataByName(a, name) else FindDataByName(b, name)
  {
    if |a| > 0 {
      assert (a + b)[1..] == a[1..] + b;
      FindInConcat(a[1..], b, name);
    } else {
      assert a + b == b;
    }
  }

  /** The cell in column `j` once the row is padded with "" to the header width. */
  function CellAt(row: seq<string>, j: nat): string {
    if j < |row| then row[j] else ""
  }

  /** The entry column `j` contributes: nothing for an unnamed column. */
  function ColumnEntry(header: seq<string>, row: seq<string>, j: nat): StructuredRow
    requires j < |header|
  {
    if header[j] != "" then [map[header[j] := CellAt(row, j)]] else []
  }

  /** The structured row built from the first `n` header columns. */
  function StructurePrefix(header: seq<string>, row: seq<string>, n: nat): StructuredRow
    requires n <= |header|
  {
    if n == 0 then [] else StructurePrefix(header, row, n - 1) + ColumnEntry(header, row, n - 1)
  }

  /** The structured form of `row` under `header`. */
  function Structured(header: seq<string>, row: seq<string>): StructuredRow {
    StructurePrefix(header, row, |header|)
  }

  /** How many of the first `n` header names are non-empty. */
  function NamedColumns(header: seq<string>, n: nat): nat
    requires n <= |header|
  {
    if n == 0 then 0 else NamedColumns(header, n - 1) + (if header[n - 1] != "" then 1 else 0)
  }

  /** The row structuring loop of `stream_structured_sheet_data`: pad the row
      with "" to the header width, walk the padded cells, and keep one entry
      for each column that lies within the header and has a name. */
  method StructureRow(header: seq<string>, row: seq<string>) returns (structured: StructuredRow)
    ensures structured == Structured(header, row)
  {
    var padded := if |row| < |header| then row + seq(|header| - |row|, _ => "") else row;
    structured := [];
    var j := 0;
    while j < |padded|
      invariant 0 <= j <= |padded| && |header| <= |padded|
      invariant forall i :: 0 <= i < |padded| ==> padded[i] == CellAt(row, i)
      invariant structured == StructurePrefix(header, row, if j < |header| then j else |header|)
    {
      if j < |header| && header[j] != "" {
        structured := structured + [map[header[j] := padded[j]]];
      }
      j := j + 1;
    }
  }

  /** One entry per named column, each a single name and its padded cell. */
  lemma {:induction false} StructuredShape(header: seq<string>, row: seq<string>, n: nat)
    requires n <= |header|
    ensures |StructurePrefix(header, row, n)| == NamedColumns(header, n)
    ensures forall k :: 0 <= k < |StructurePrefix(header, row, n)| ==>
              exists j :: 0 <= j < n && header[j] != ""
                          && StructurePrefix(header, row, n)[k] == map[header[j] := CellAt(row, j)]
  {
    if n > 0 {
      StructuredShape(header, row, n - 1);
      var p := StructurePrefix(header, row, n - 1);
      var e := ColumnEntry(header, row, n - 1);
      forall k | 0 <= k < |p + e|
        ensures exists j :: 0 <= j < n && header[j] != "" && (p + e)[k] == map[header[j] := CellAt(row, j)]
      {
        if k < |p| {
          assert (p + e)[k] == p[k];
        } else {
          assert (p + e)[k] == map[header[n - 1] := CellAt(row, n - 1)];
        }
      }
    }
  }

  /** The entry of one column holds a non-empty name exactly when the column
      carries it. */
  lemma LookupEntry(header: seq<string>, row: seq<string>, j: nat, name: string)
    requires j < |header| && name != ""
    ensures FindDataByName(ColumnEntry(header, row, j), name)
            == if header[j] == name then Some(CellAt(row, j)) else None
  {
  }

  /** None of the first `n` header columns has the name. */
  predicate NameAbsent(header: seq<string>, n: nat, name: string)
    requires n <= |header|
  {
    forall k :: 0 <= k < n ==> header[k] != name
  }

  lemma NameAbsentStep(header: seq<string>, n: nat, name: string)
    requires 0 < n <= |header|
    ensures NameAbsent(header, n, name) <==> NameAbsent(header, n - 1, name) && header[n - 1] != name
  {
  }

  /** One more column: the lookup keeps an earlier hit, and otherwise finds
      the new column's cell when the column has the name. */
  lemma LookupStep(header: seq<string>, row: seq<string>, n: nat, name: string)
    requires 0 < n <= |header| && name != ""
    ensures FindDataByName(StructurePrefix(header, row, n), name)
            == if FindDataByName(StructurePrefix(header, row, n - 1), name).Some?
               then FindDataByName(StructurePrefix(header, row, n - 1), name)
               else if header[n - 1] == name then Some(CellAt(row, n - 1)) else None
  {
    var p := StructurePrefix(header, row, n - 1);
    var e := ColumnEntry(header, row, n - 1);
    assert StructurePrefix(header, row, n) == p + e;
    FindInConcat(p, e, name);
    LookupEntry(header, row, n - 1, name);
  }

  /** The lookup over the first `n` columns, column by column. */
  function ColumnLookup(header: seq<string>, row: seq<string>, n: nat, name: string): Option<string>
    requires n <= |header|
  {
    if n == 0 then None
    else
      var before := ColumnLookup(header, row, n - 1, name);
      if before.Some? then before
      else if header[n - 1] == name then Some(CellAt(row, n - 1))
      else None
  }

  /** One more column keeps the lookup in step with the column-by-column one. */
  lemma AgreesStep(header: seq<string>, row: seq<string>, n: nat, name: string)
    requires 0 < n <= |header| && name != ""
    requires FindDataByName(StructurePrefix(header, row, n - 1), name) == ColumnLookup(header, row, n - 1, name)
    ensures FindDataByName(StructurePrefix(header, row, n), name) == ColumnLookup(header, row, n, name)
  {
    LookupStep(header, row, n, name);
  }

  /** The lookup in a structured prefix is the column-by-column lookup. */
  lemma {:induction false} ColumnLookupAgrees(header: seq<string>, row: seq<string>, n: nat, name: string)
    requires n <= |header| && name != ""
    ensures FindDataByName(StructurePrefix(header, row, n), name) == ColumnLookup(header, row, n, name)
  {
    if n > 0 {
      ColumnLookupAgrees(header, row, n - 1, name);
      AgreesStep(header, row, n, name);
    }
  }

  /** Looking a column up by name finds nothing exactly when no header column
      has the name. */
  lemma {:induction false} ColumnLookupAbsent(header: seq<string>, row: seq<string>, n: nat, name: string)
    requires n <= |header|
    ensures ColumnLookup(header, row, n, name).None? <==> NameAbsent(header, n, name)
  {
    if n > 0 {
      ColumnLookupAbsent(header, row, n - 1, name);
      NameAbsentStep(header, n, name);
    }
  }

  /** The lookup finds the cell under the first column that has the name. */
  lemma {:induction false} ColumnLookupFirst(header: seq<string>, row: seq<string>, n: nat, name: string, j: nat)
    requires j < n <= |header|
    requires header[j] == name && NameAbsent(header, j, name)
    ensures ColumnLookup(header, row, n, name) == Some(CellAt(row, j))
  {
    if j == n - 1 {
      ColumnLookupAbsent(header, row, j, name);
    } else {
      ColumnLookupFirst(header, row, n - 1, name, j);
    }
  }

  /** Looking a column up by name in a structured row yields the cell under the
      first header column with that name, the padding "" past the row's end,
      and None when no column has the name. */
  lemma LookupStructured(header: seq<string>, row: seq<string>, n: nat, name: string)
    requires n <= |header| && name != ""
    ensures FindDataByName(StructurePrefix(header, row, n), name).None? <==> NameAbsent(header, n, name)
    ensures forall j :: 0 <= j < n && header[j] == name && NameAbsent(header, j, name) ==>
              FindDataByName(StructurePrefix(header, row, n), name) == Some(CellAt(row, j))
  {
    ColumnLookupAgrees(header, row, n, name);
    ColumnLookupAbsent(header, row, n, name);
    forall j | 0 <= j < n && header[j] == name && NameAbsent(header, j, name)
      ensures ColumnLookup(header, row, n, name) == Some(CellAt(row, j))
    {
      ColumnLookupFirst(header, row, n, name, j);
    }
  }
}
