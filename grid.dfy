/** The worksheet as an abstract grid: a map from (row, column), both
    zero-based as in `worksheet.write(row, col, value)`, to a cell value.
    Formats, merged ranges and column widths are not part of the grid. */
module Grid {

  /** (row, column), zero-based: cell "A1" is (0, 0), "A3" is (2, 0). */
  type Pos = (nat, nat)

  datatype Cell = Text(text: string) | Number(value: int)

  /** One `worksheet.write(row, col, value)` call. */
  datatype CellWrite = CellWrite(row: nat, col: nat, cell: Cell) {
    function At(): Pos { (row, col) }
  }

  /** The grid after the writes of `log`, in order; a later write to a cell
      replaces an earlier one. */
  function Sheet(log: seq<CellWrite>): map<Pos, Cell>
  {
    if log == [] then map[]
    else
      var last := log[|log| - 1];
      Sheet(log[..|log| - 1])[last.At() := last.cell]
  }

  /** The grid holds exactly the cells some write of the log went to. */
  lemma {:induction false} SheetKeys(log: seq<CellWrite>)
    ensures forall p :: p in Sheet(log) <==> exists i :: 0 <= i < |log| && log[i].At() == p
  {
    if log != [] {
      SheetKeys(log[..|log| - 1]);
      assert forall i :: 0 <= i < |log| - 1 ==> log[..|log| - 1][i] == log[i];
    }
  }

  lemma AppendAssoc(a: seq<CellWrite>, b: seq<CellWrite>, c: seq<CellWrite>)
    ensures a + (b + c) == (a + b) + c
  {
  }

  /** The grid shows `c` in cell (`row`, `col`). */
  ghost predicate CellIs(grid: map<Pos, Cell>, row: nat, col: nat, c: Cell)
  {
    (row, col) in grid && grid[(row, col)] == c
  }

  /** Row `row` shows three text cells followed by a number, in columns
      0-3. */
  ghost predicate RowIs(grid: map<Pos, Cell>, row: nat, t0: string, t1: string, t2: string, n: int)
  {
    CellIs(grid, row, 0, Text(t0)) &&
    CellIs(grid, row, 1, Text(t1)) &&
    CellIs(grid, row, 2, Text(t2)) &&
    CellIs(grid, row, 3, Number(n))
  }

  /** No two writes of `log` go to the same cell. */
  ghost predicate Distinct(log: seq<CellWrite>)
  {
    forall i, j :: 0 <= i < j < |log| ==> log[i].At() != log[j].At()
  }

  /** Every write of `log` is to a row in [lo, hi). */
  ghost predicate RowsWithin(log: seq<CellWrite>, lo: int, hi: int)
  {
    forall i :: 0 <= i < |log| ==> lo <= log[i].row < hi
  }

  /** Two overwrite-free logs that write disjoint row bands make an
      overwrite-free log. */
  lemma DistinctBands(a: seq<CellWrite>, b: seq<CellWrite>, lo: int, mid: int, hi: int)
    requires lo <= mid <= hi
    requires Distinct(a) && RowsWithin(a, lo, mid)
    requires Distinct(b) && RowsWithin(b, mid, hi)
    ensures Distinct(a + b) && RowsWithin(a + b, lo, hi)
  {
    assert forall i :: 0 <= i < |a + b| ==> (a + b)[i] == if i < |a| then a[i] else b[i - |a|];
    forall i, j | 0 <= i < j < |a + b|
      ensures (a + b)[i].At() != (a + b)[j].At()
    {
      if j < |a| {
        assert (a + b)[i] == a[i] && (a + b)[j] == a[j];
      } else if i >= |a| {
        assert (a + b)[i] == b[i - |a|] && (a + b)[j] == b[j - |a|];
      } else {
        assert (a + b)[i].row < mid <= (a + b)[j].row;
      }
    }
  }

  /** When no cell is written twice, each write of the log is what the grid
      holds at its cell. */
  lemma {:induction false} SheetAt(log: seq<CellWrite>, w: CellWrite)
    requires Distinct(log)
    requires w in log
    ensures CellIs(Sheet(log), w.row, w.col, w.cell)
  {
    var last := log[|log| - 1];
    var init := log[..|log| - 1];
    if w != last {
      var i :| 0 <= i < |log| && log[i] == w;
      assert i < |log| - 1;
      assert init[i] == w;
      assert Distinct(init) by {
        assert forall a :: 0 <= a < |init| ==> init[a] == log[a];
      }
      SheetAt(init, w);
    }
  }

  /** The grid shows every write of `log` at its cell. */
  ghost predicate Shows(grid: map<Pos, Cell>, log: seq<CellWrite>)
  {
    forall w :: w in log ==> CellIs(grid, w.row, w.col, w.cell)
  }

  /** A log that writes no cell twice leaves every one of its writes
      visible. */
  lemma SheetShows(log: seq<CellWrite>)
    requires Distinct(log)
    ensures Shows(Sheet(log), log)
  {
    forall w | w in log
      ensures CellIs(Sheet(log), w.row, w.col, w.cell)
    {
      SheetAt(log, w);
    }
  }

  /** The worksheet that `generate_excel` writes into. `log` records every
      write so far, in order; `cells` is what the sheet shows. */
  class Worksheet {
    var cells: map<Pos, Cell>
    ghost var log: seq<CellWrite>

    ghost predicate Valid()
      reads this
    {
      cells == Sheet(log)
    }

    constructor ()
      ensures Valid() && log == []
    {
      cells := map[];
      log := [];
    }

    /** `worksheet.write(row, col, value)`. */
    method Write(row: nat, col: nat, cell: Cell)
      requires Valid()
      modifies this
      ensures Valid()
      ensures log == old(log) + [CellWrite(row, col, cell)]
      ensures cells == old(cells)[(row, col) := cell]
    {
      log := log + [CellWrite(row, col, cell)];
      assert log[..|log| - 1] == old(log);
      cells := cells[(row, col) := cell];
    }
  }
}
