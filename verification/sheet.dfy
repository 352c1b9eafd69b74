/**
 The worksheet as the invoicing script sees it through its spreadsheet client:
 a rectangular grid of text cells whose first row is the header. The script
 reads the rows below the header as records keyed by the header
 (`get_all_records`) and writes single cells back by 1-based row and column
 (`update_cell`).
 */
module Sheet {

  datatype Option<T> = None | Some(value: T)

  datatype Result<T, E> = Ok(value: T) | Err(error: E)

  /** Position of the first occurrence of `x` in `s`, as Python's `list.index`
      finds it; None where `list.index` raises ValueError. */
  function IndexOf(s: seq<string>, x: string): (r: Option<nat>)
    ensures r.Some? <==> x in s
    ensures r.Some? ==> r.value < |s| && s[r.value] == x
    ensures r.Some? ==> forall j :: 0 <= j < r.value ==> s[j] != x
  {
    if |s| == 0 then None
    else if s[0] == x then Some(0)
    else match IndexOf(s[1..], x)
      case None => None
      case Some(i) => Some(i + 1)
  }

  predicate Distinct(s: seq<string>) {
    forall i, j :: 0 <= i < j < |s| ==> s[i] != s[j]
  }

  /** A record: its keys in insertion (header) order and the value under each. */
  datatype Fields = Fields(keys: seq<string>, values: seq<string>)

  /** A Python dict built from a header row and a data row: one value per key,
      and no key twice. */
  type Record = r: Fields | |r.keys| == |r.values| && Distinct(r.keys) witness Fields([], [])

  /** `record[key]`; None where Python raises KeyError. */
  function Get(r: Record, key: string): (v: Option<string>)
    ensures v.Some? <==> key in r.keys
    ensures forall i :: 0 <= i < |r.keys| && r.keys[i] == key ==> v == Some(r.values[i])
  {
    match IndexOf(r.keys, key)
    case None => None
    case Some(i) => Some(r.values[i])
  }

  /** Every row of the grid is as wide as the first one (blank cells read ""). */
  predicate Rectangular(cells: seq<seq<string>>) {
    forall i :: 0 <= i < |cells| ==> |cells[i]| == |cells[0]|
  }

  /** A 1-based (row, column) address that lies inside the grid. */
  predicate InGrid(cells: seq<seq<string>>, row: int, col: int) {
    1 <= row <= |cells| && 1 <= col <= |cells[row - 1]|
  }

  /** The cell at a 1-based address. */
  function Cell(cells: seq<seq<string>>, row: int, col: int): string
    requires InGrid(cells, row, col)
  {
    cells[row - 1][col - 1]
  }

  /** The grid after one cell, at a 1-based address, is overwritten. */
  function SetCell(cells: seq<seq<string>>, row: nat, col: nat, value: string): (r: seq<seq<string>>)
    requires InGrid(cells, row, col)
    ensures |r| == |cells|
    ensures forall i :: 0 <= i < |r| ==> |r[i]| == |cells[i]|
    ensures Rectangular(cells) ==> Rectangular(r)
    ensures InGrid(r, row, col) && Cell(r, row, col) == value
    ensures forall i, j :: 0 <= i < |r| && 0 <= j < |r[i]| && (i != row - 1 || j != col - 1) ==> r[i][j] == cells[i][j]
  {
    cells[row - 1 := cells[row - 1][col - 1 := value]]
  }

  datatype ReadError = HeaderNotUnique

  /** `get_all_records()` with the header in row 1: an empty sheet has no
      records; a header naming a column twice is refused; otherwise the
      record at 0-based position i is sheet row i + 2 keyed by the header. */
  function ReadRecords(cells: seq<seq<string>>): (r: Result<seq<Record>, ReadError>)
    requires Rectangular(cells)
    ensures r.Err? <==> |cells| > 0 && !Distinct(cells[0])
    ensures r.Ok? ==> |r.value| == if |cells| == 0 then 0 else |cells| - 1
    ensures r.Ok? ==> forall i :: 0 <= i < |r.value| ==> r.value[i].keys == cells[0] && r.value[i].values == cells[i + 1]
  {
    if |cells| == 0 then Ok([])
    else if !Distinct(cells[0]) then Err(HeaderNotUnique)
    else
      var records: seq<Record> := seq(|cells| - 1, i requires 0 <= i < |cells| - 1 => Fields(cells[0], cells[i + 1]));
      Ok(records)
  }

  /** Reading field `key` of the record at 0-based position i is reading the
      sheet cell in row i + 2 (row 1 holds the header) and in the 1-based
      column where the header names `key`. */
  lemma {:induction false} FieldIsCell(cells: seq<seq<string>>, i: nat, key: string)
    requires Rectangular(cells) && ReadRecords(cells).Ok? && i < |ReadRecords(cells).value|
    ensures IndexOf(cells[0], key).None? ==> Get(ReadRecords(cells).value[i], key).None?
    ensures IndexOf(cells[0], key).Some? ==>
              var col := IndexOf(cells[0], key).value + 1;
              InGrid(cells, i + 2, col) && Get(ReadRecords(cells).value[i], key) == Some(Cell(cells, i + 2, col))
  {
  }

  /** The remote worksheet, written in place one cell at a time. */
  class Worksheet {
    var cells: seq<seq<string>>

    ghost predicate Valid()
      reads this
    {
      Rectangular(cells)
    }

    /** `worksheet.update_cell(row, col, value)`: overwrites exactly one cell. */
    method UpdateCell(row: nat, col: nat, value: string)
      requires Valid() && InGrid(cells, row, col)
      modifies this
      ensures Valid()
      ensures cells == SetCell(old(cells), row, col, value)
    {
      cells := SetCell(cells, row, col, value);
    }
  }
}
