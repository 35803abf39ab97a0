/** Pending-row parsing of src/services/sheets.ts, given the rows the Sheets API returned. */
module Sheets {
  import opened Wrappers
  import opened Strings
  import opened Lists
  import opened Types

  const CompletedStatus := "COMPLETADO"

  predicate IsNameHeader(h: string) {
    Contains(h, "NOMBRE_ESTABLECIMIENTO") || Contains(h, "NOMBRE_COMERCIAL")
  }

  predicate IsLocationHeader(h: string) {
    Contains(h, "LOCALIDAD") || Contains(h, "CIUDAD")
  }

  predicate IsStatusHeader(h: string) {
    Contains(h, "ESTADO")
  }

  /** The column positions found in the header row (-1 when absent). */
  datatype Columns = Columns(name: int, location: int, status: int)

  function FindColumns(headers: seq<string>): (c: Columns)
    ensures c.name == FindIndex(headers, IsNameHeader)
    ensures c.location == FindIndex(headers, IsLocationHeader)
    ensures c.status == FindIndex(headers, IsStatusHeader)
  {
    Columns(FindIndex(headers, IsNameHeader), FindIndex(headers, IsLocationHeader), FindIndex(headers, IsStatusHeader))
  }

  /** `row[index] || ''`: a missing cell, or a missing column (index -1), reads as the empty string. */
  function Cell(row: seq<string>, index: int): (c: string)
    ensures 0 <= index < |row| ==> c == row[index]
    ensures !(0 <= index < |row|) ==> c == ""
  {
    if 0 <= index < |row| then row[index] else ""
  }

  /** A row is pending unless its status cell is exactly `COMPLETADO`. */
  predicate IsPending(row: seq<string>, columns: Columns) {
    Cell(row, columns.status) != CompletedStatus
  }

  /** The company of the data row at index `i`; sheet rows are numbered from 1. */
  function RowCompany(row: seq<string>, columns: Columns, i: int): Company {
    Company(Cell(row, columns.name), Some(Cell(row, columns.location)), i + 1, None, None)
  }

  /** `c` is the company of a pending data row of `rows`. */
  predicate FromPendingRow(rows: seq<seq<string>>, columns: Columns, c: Company) {
    && 2 <= c.rowNumber <= |rows|
    && IsPending(rows[c.rowNumber - 1], columns)
    && c == RowCompany(rows[c.rowNumber - 1], columns, c.rowNumber - 1)
  }

  /** The companies of the pending data rows among `rows[1..n]`, in row order. */
  function PendingRows(rows: seq<seq<string>>, columns: Columns, n: nat): (r: seq<Company>)
    requires n <= |rows|
    ensures n <= 1 ==> r == []
    ensures n >= 1 ==> |r| <= n - 1
    ensures forall k :: 0 <= k < |r| ==> 2 <= r[k].rowNumber <= n
  {
    if n <= 1 then []
    else
      var r := PendingRows(rows, columns, n - 1);
      if IsPending(rows[n - 1], columns) then r + [RowCompany(rows[n - 1], columns, n - 1)] else r
  }

  /** Every listed company is the company of a pending data row. */
  lemma {:induction false} PendingRowsSound(rows: seq<seq<string>>, columns: Columns, n: nat, k: int)
    requires n <= |rows|
    requires 0 <= k < |PendingRows(rows, columns, n)|
    ensures FromPendingRow(rows, columns, PendingRows(rows, columns, n)[k])
  {
    var r := PendingRows(rows, columns, n - 1);
    if k < |r| {
      PendingRowsSound(rows, columns, n - 1, k);
    }
  }

  /** The companies are listed in increasing row order. */
  lemma {:induction false} PendingRowsOrdered(rows: seq<seq<string>>, columns: Columns, n: nat, k: int, l: int)
    requires n <= |rows|
    requires 0 <= k < l < |PendingRows(rows, columns, n)|
    ensures PendingRows(rows, columns, n)[k].rowNumber < PendingRows(rows, columns, n)[l].rowNumber
  {
    var r := PendingRows(rows, columns, n - 1);
    if l < |r| {
      PendingRowsOrdered(rows, columns, n - 1, k, l);
    }
  }

  /** Every pending data row among `rows[1..n]` is listed. */
  lemma {:induction false} PendingRowsComplete(rows: seq<seq<string>>, columns: Columns, n: nat, i: int)
    requires n <= |rows|
    requires 1 <= i < n && IsPending(rows[i], columns)
    ensures exists k :: 0 <= k < |PendingRows(rows, columns, n)| && PendingRows(rows, columns, n)[k].rowNumber == i + 1
  {
    var r := PendingRows(rows, columns, n - 1);
    var full := PendingRows(rows, columns, n);
    if i == n - 1 {
      assert full[|r|].rowNumber == i + 1;
    } else {
      PendingRowsComplete(rows, columns, n - 1, i);
      var k :| 0 <= k < |r| && r[k].rowNumber == i + 1;
      assert full[k] == r[k];
    }
  }

  /** The companies `getPendingCompanies` returns for the `values` of the response (`None` when absent). */
  function PendingCompanies(values: Option<seq<seq<string>>>): (r: seq<Company>)
    ensures values.None? || |values.value| < 2 ==> r == []
    ensures values.Some? && |values.value| >= 2 ==> |r| <= |values.value| - 1
  {
    if values.None? || |values.value| < 2 then []
    else PendingRows(values.value, FindColumns(values.value[0]), |values.value|)
  }

  /** What `getPendingCompanies` promises: exactly the pending data rows, each once, in sheet order,
      with its name, location and 1-based row number. */
  lemma PendingCompaniesSpec(values: Option<seq<seq<string>>>)
    requires values.Some? && |values.value| >= 2
    ensures var rows := values.value;
      var columns := FindColumns(rows[0]);
      var r := PendingCompanies(values);
      && (forall k :: 0 <= k < |r| ==> FromPendingRow(rows, columns, r[k]))
      && (forall k, l :: 0 <= k < l < |r| ==> r[k].rowNumber < r[l].rowNumber)
      && (forall i :: 1 <= i < |rows| && IsPending(rows[i], columns) ==>
            exists k :: 0 <= k < |r| && r[k].rowNumber == i + 1)
  {
    var rows := values.value;
    var columns := FindColumns(rows[0]);
    var r := PendingCompanies(values);
    forall k | 0 <= k < |r| ensures FromPendingRow(rows, columns, r[k]) {
      PendingRowsSound(rows, columns, |rows|, k);
    }
    forall k, l | 0 <= k < l < |r| ensures r[k].rowNumber < r[l].rowNumber {
      PendingRowsOrdered(rows, columns, |rows|, k, l);
    }
    forall i | 1 <= i < |rows| && IsPending(rows[i], columns)
      ensures exists k :: 0 <= k < |r| && r[k].rowNumber == i + 1
    {
      PendingRowsComplete(rows, columns, |rows|, i);
    }
  }

  /** `getPendingCompanies`, after the fetch: the header row fixes the columns, then every data row
      whose status is not `COMPLETADO` is pushed in order. */
  method GetPendingCompanies(values: Option<seq<seq<string>>>) returns (companies: seq<Company>)
    ensures companies == PendingCompanies(values)
  {
    if values.None? || |values.value| < 2 {
      return [];
    }
    var rows := values.value;
    var headers := rows[0];
    var columns := Columns(FindIndex(headers, IsNameHeader), FindIndex(headers, IsLocationHeader), FindIndex(headers, IsStatusHeader));
    companies := [];
    var i := 1;
    while i < |rows|
      invariant 1 <= i <= |rows|
      invariant companies == PendingRows(rows, columns, i)
    {
      var row := rows[i];
      var status := Cell(row, columns.status);
      if status != CompletedStatus {
        companies := companies + [Company(Cell(row, columns.name), Some(Cell(row, columns.location)), i + 1, None, None)];
      }
      i := i + 1;
    }
  }

  /** A data row is left out exactly when its status cell reads `COMPLETADO`; a row without a
      status column or cell is kept. */
  lemma ListedIffPending(rows: seq<seq<string>>, columns: Columns, i: int)
    requires 1 <= i < |rows|
    ensures (exists k :: 0 <= k < |PendingRows(rows, columns, |rows|)| && PendingRows(rows, columns, |rows|)[k].rowNumber == i + 1)
      <==> Cell(rows[i], columns.status) != CompletedStatus
  {
    var r := PendingRows(rows, columns, |rows|);
    if IsPending(rows[i], columns) {
      PendingRowsComplete(rows, columns, |rows|, i);
    } else if k :| 0 <= k < |r| && r[k].rowNumber == i + 1 {
      PendingRowsSound(rows, columns, |rows|, k);
      assert false;
    }
  }
}
