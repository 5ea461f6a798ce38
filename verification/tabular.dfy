/** The lookup-table builders of place/imagery/place/imagery/util/tabular.py.
    Reading the workbook or the delimited file is left to the caller: the
    builders see the rows as sequences of cells. The xlsx and csv builders
    share one row logic, modelled once. */
module Tabular {
  import opened Common

  /** A record: column heading to cell. */
  type Record<C> = map<C, C>

  /** The lookup: first cell of a row to that row's record. */
  type LookupTable<C> = map<C, Record<C>>

  /** The record `parse_row` builds: heading j maps to cell j for every
      column of the header; a repeated heading keeps its last column. */
  function RowRecord<C>(header: seq<C>, row: seq<C>): (r: Record<C>)
    requires |row| >= |header|
    ensures forall j :: 0 <= j < |header| ==> header[j] in r
    ensures forall k :: k in r ==> k in header
  {
    if |header| == 0 then map[]
    else
      var n := |header| - 1;
      var prefix := RowRecord(header[..n], row);
      assert forall j :: 0 <= j < n ==> header[..n][j] == header[j];
      prefix[header[n] := row[n]]
  }

  /** A heading that does not occur again to its right maps to the cell in
      its own column. */
  lemma {:induction false} RowRecordValue<C>(header: seq<C>, row: seq<C>, j: nat)
    requires |row| >= |header| && j < |header|
    requires forall k :: j < k < |header| ==> header[k] != header[j]
    ensures RowRecord(header, row)[header[j]] == row[j]
  {
    var n := |header| - 1;
    if j < n {
      assert header[..n][j] == header[j];
      RowRecordValue(header[..n], row, j);
    }
  }

  /** A data row fits when it has at least as many cells as the header and
      at least one cell (its key). */
  predicate RowFits<C>(header: seq<C>, row: seq<C>) {
    |row| >= |header| && |row| > 0
  }

  /** `parse_row` applied to one data row: the record is stored under the
      row's first cell, replacing any earlier record with that key. A short
      row is an IndexError. */
  function ParseRow<C>(header: seq<C>, records: LookupTable<C>, row: seq<C>): (r: Result<LookupTable<C>>)
    ensures r.Ok? <==> RowFits(header, row)
    ensures r.Err? ==> r.error == IndexError
    ensures r.Ok? ==> (r.value.Keys == records.Keys + {row[0]}
      && r.value[row[0]] == RowRecord(header, row)
      && forall k :: k in records && k != row[0] ==> r.value[k] == records[k])
  {
    if |row| < |header| || |row| == 0 then Err(IndexError)
    else Ok(records[row[0] := RowRecord(header, row)])
  }

  /** The records of the data rows below a header, in row order. */
  function Records<C>(header: seq<C>, data: seq<seq<C>>): (r: Result<LookupTable<C>>)
    ensures r.Err? ==> r.error == IndexError
  {
    if |data| == 0 then Ok(map[])
    else
      var n := |data| - 1;
      var records :- Records(header, data[..n]);
      ParseRow(header, records, data[n])
  }

  /** The records build exactly when every data row fits the header. */
  lemma {:induction false} RecordsOk<C>(header: seq<C>, data: seq<seq<C>>)
    ensures Records(header, data).Ok? <==> forall j :: 0 <= j < |data| ==> RowFits(header, data[j])
  {
    if |data| > 0 {
      var n := |data| - 1;
      assert forall j :: 0 <= j < n ==> data[..n][j] == data[j];
      RecordsOk(header, data[..n]);
    }
  }

  /** What a builder returns for the rows of a table with the header at
      index `offset`. Rows above the header are skipped; no header row means
      an empty lookup. A negative offset never reaches the header, so the
      first row calls the still-undefined `parse_row`: a NameError. */
  function Lookup<C>(rows: seq<seq<C>>, offset: int): (r: Result<LookupTable<C>>)
    ensures offset < 0 ==> (r.Err? <==> |rows| > 0)
    ensures r.Err? ==> r.error == (if offset < 0 then NameError else IndexError)
    ensures 0 <= offset && |rows| <= offset + 1 ==> r == Ok(map[])
  {
    if offset < 0 then (if |rows| == 0 then Ok(map[]) else Err(NameError))
    else if |rows| <= offset then Ok(map[])
    else Records(rows[offset], rows[offset + 1..])
  }

  /** `_construct_lookup_from_csv` / `_construct_lookup_from_xlsx` over the
      rows already read: one pass, the header captured when the index
      reaches the offset. */
  method ConstructLookup<C>(rows: seq<seq<C>>, offset: int) returns (r: Result<LookupTable<C>>)
    ensures r == Lookup(rows, offset)
  {
    var records: LookupTable<C> := map[];
    var header: Option<seq<C>> := None;
    var i := 0;
    while i < |rows|
      invariant 0 <= i <= |rows|
      invariant offset < 0 ==> i == 0 && header.None? && records == map[]
      invariant 0 <= offset && i <= offset ==> header.None? && records == map[]
      invariant 0 <= offset < i ==> (header == Some(rows[offset])
        && Records(rows[offset], rows[offset + 1..i]) == Ok(records))
    {
      if i < offset {
      } else if i == offset {
        header := Some(rows[i]);
        assert rows[offset + 1..i + 1] == [];
      } else {
        if header.None? {
          return Err(NameError);
        }
        var row := rows[i];
        var data := rows[offset + 1..i + 1];
        assert data[..|data| - 1] == rows[offset + 1..i];
        assert data[|data| - 1] == row;
        if |row| < |header.value| || |row| == 0 {
          var all := rows[offset + 1..];
          assert all[i - offset - 1] == row;
          RecordsOk(rows[offset], all);
          assert Lookup(rows, offset) == Records(rows[offset], all);
          return Err(IndexError);
        }
        records := records[row[0] := RowRecord(header.value, row)];
      }
      i := i + 1;
    }
    if 0 <= offset < |rows| {
      assert rows[offset + 1..i] == rows[offset + 1..];
    }
    r := Ok(records);
  }

  /** Skipping the rows above the header is the same as dropping them. */
  lemma OffsetDropsRows<C>(rows: seq<seq<C>>, offset: nat)
    requires offset <= |rows|
    ensures Lookup(rows, offset) == Lookup(rows[offset..], 0)
  {
    if offset < |rows| {
      assert rows[offset..][0] == rows[offset];
      assert rows[offset..][1..] == rows[offset + 1..];
    }
  }

  /** The lookup's keys are the first cells of the data rows. */
  lemma {:induction false} RecordsKeys<C>(header: seq<C>, data: seq<seq<C>>)
    requires Records(header, data).Ok?
    ensures forall j :: 0 <= j < |data| ==> |data[j]| > 0 && data[j][0] in Records(header, data).value
    ensures forall k :: k in Records(header, data).value ==> exists j :: 0 <= j < |data| && data[j][0] == k
  {
    if |data| > 0 {
      var n := |data| - 1;
      assert forall j :: 0 <= j < n ==> data[..n][j] == data[j];
      RecordsKeys(header, data[..n]);
    }
  }

  /** A key's record comes from the last row carrying it. */
  lemma {:induction false} RecordsLastRowWins<C>(header: seq<C>, data: seq<seq<C>>, j: nat)
    requires Records(header, data).Ok? && j < |data| && RowFits(header, data[j])
    requires forall k :: j < k < |data| ==> |data[k]| > 0 && data[k][0] != data[j][0]
    ensures data[j][0] in Records(header, data).value
      && Records(header, data).value[data[j][0]] == RowRecord(header, data[j])
  {
    var n := |data| - 1;
    RecordsKeys(header, data);
    if j < n {
      assert data[..n][j] == data[j];
      assert forall k :: j < k < n ==> data[..n][k] == data[k];
      RecordsLastRowWins(header, data[..n], j);
    }
  }

  /** A later row with the same key replaces the earlier record: the result
      is as if the earlier row had not been there. */
  lemma LaterRowReplaces<C>(header: seq<C>, data: seq<seq<C>>, first: seq<C>, second: seq<C>)
    requires RowFits(header, first) && RowFits(header, second) && first[0] == second[0]
    ensures Records(header, data + [first, second]) == Records(header, data + [second])
  {
    var all := data + [first, second];
    assert all[..|all| - 1] == data + [first];
    assert (data + [first])[..|data|] == data;
    assert (data + [second])[..|data|] == data;
    var base := Records(header, data);
    if base.Ok? {
      var key := first[0];
      var m1 := base.value[key := RowRecord(header, first)];
      assert Records(header, data + [first]) == Ok(m1);
      assert Records(header, all) == Ok(m1[key := RowRecord(header, second)]);
      assert m1[key := RowRecord(header, second)] == base.value[key := RowRecord(header, second)];
    }
  }

  /** The builders' formats: a workbook, or a delimited text file. */
  datatype TableFormat = Xlsx | Delimited(delimiter: char)

  /** `parse_table`'s dispatch on the text after the last '.' of the path
      (the whole path when it has none). */
  function TableFormatOf(path: string): (r: Result<TableFormat>)
    ensures r.Err? <==> Last(Split(path, '.')) !in {"xlsx", "csv", "txt"}
    ensures r.Err? ==> r.error == ValueError
    ensures r == Ok(Xlsx) <==> Last(Split(path, '.')) == "xlsx"
    ensures r == Ok(Delimited(',')) <==> Last(Split(path, '.')) == "csv"
    ensures r == Ok(Delimited('\t')) <==> Last(Split(path, '.')) == "txt"
  {
    var extension := Last(Split(path, '.'));
    if extension == "xlsx" then Ok(Xlsx)
    else if extension == "csv" then Ok(Delimited(','))
    else if extension == "txt" then Ok(Delimited('\t'))
    else Err(ValueError)
  }

  /** Only the last extension counts: "data.csv.xlsx" is a workbook. */
  lemma FormatOfLastExtension(stem: string, ext: string)
    requires '.' !in ext
    ensures TableFormatOf(stem + "." + ext) == TableFormatOf(ext)
  {
    SplitAppend(stem, ext, '.');
    assert stem + "." + ext == stem + ['.'] + ext;
  }

  /** `parse_table`: dispatch, then the shared row logic on the rows the
      chosen reader returns. */
  method ParseTable<C>(path: string, offset: int, readRows: TableFormat -> seq<seq<C>>) returns (r: Result<LookupTable<C>>)
    ensures TableFormatOf(path).Err? ==> r == Err(ValueError)
    ensures TableFormatOf(path).Ok? ==> r == Lookup(readRows(TableFormatOf(path).value), offset)
  {
    var format := TableFormatOf(path);
    if format.Err? {
      return Err(ValueError);
    }
    r := ConstructLookup(readRows(format.value), offset);
  }
}
