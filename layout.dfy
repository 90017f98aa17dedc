/** The layout step of `generate_excel`: which value goes to which cell.
    `ReportWrites` is the sequence of `worksheet.write` calls the method
    issues, in order, and `Report` the grid they leave behind;
    `GenerateExcel` is the method itself, filling a `Worksheet`. */
module Layout {
  import opened Payments
  import opened Grouping
  import opened Grid

  const SupplierTitle := "Análisis de Órdenes de Pago - ANALISIS DE ORDENES DE PAGO IRR"
  const CustomerTitle := "Análisis de Órdenes de Cobranza - ANALISIS DE ORDENES DE COBRANZA IRR"
  const GeneralTitle := "Análisis de Pagos - REPORTE GENERAL"
  const Supplier := "supplier"
  const Customer := "customer"

  const DatePrefix := "Fecha: "
  const NoDate := "N/A"
  const CompanyLabel := "Empresa-Sucursal: Ing. Ramón Russo"
  const ColumnHeaders := ["Orden de Pago N°", "Fecha", "Cuenta", "Importe"]
  const TotalLabel := "Total"

  /** Row 7 of the sheet (index 6) holds the column headers; the groups
      start right below it. */
  const HeaderRow := 6
  const FirstDataRow := 7

  /** The title, chosen from the partner type of the first payment only. */
  function Title(ps: seq<Payment>): (t: string)
    ensures t == SupplierTitle <==> ps != [] && ps[0].partnerType == Supplier
    ensures t == CustomerTitle <==> ps != [] && ps[0].partnerType == Customer
    ensures t == GeneralTitle <==> ps == [] || (ps[0].partnerType != Supplier && ps[0].partnerType != Customer)
  {
    if ps != [] && ps[0].partnerType == Supplier then SupplierTitle
    else if ps != [] && ps[0].partnerType == Customer then CustomerTitle
    else GeneralTitle
  }

  /** The date of the first payment, or "N/A" without payments. */
  function DateLabel(ps: seq<Payment>): string
  {
    if ps != [] then ps[0].date else NoDate
  }

  /** Title in A1, date line in A3, company line in A4. */
  function Preamble(ps: seq<Payment>): seq<CellWrite>
  {
    [CellWrite(0, 0, Text(Title(ps))),
     CellWrite(2, 0, Text(DatePrefix + DateLabel(ps))),
     CellWrite(3, 0, Text(CompanyLabel))]
  }

  /** The first `n` column headers, in row 6. */
  function HeaderCells(n: nat): seq<CellWrite>
    requires n <= |ColumnHeaders|
  {
    if n == 0 then []
    else HeaderCells(n - 1) + [CellWrite(HeaderRow, n - 1, Text(ColumnHeaders[n - 1]))]
  }

  function HeaderWrites(ps: seq<Payment>): seq<CellWrite>
  {
    Preamble(ps) + HeaderCells(|ColumnHeaders|)
  }

  /** The four cells of one payment line. */
  function LineRow(p: Payment, row: nat): seq<CellWrite>
  {
    [CellWrite(row, 0, Text(p.name)),
     CellWrite(row, 1, Text(p.date)),
     CellWrite(row, 2, Text(p.journal)),
     CellWrite(row, 3, Number(p.amount))]
  }

  /** The lines of `ps`, one per row from row `r` on. */
  function LineWrites(ps: seq<Payment>, r: nat): seq<CellWrite>
  {
    if ps == [] then []
    else LineWrites(ps[..|ps| - 1], r) + LineRow(ps[|ps| - 1], r + |ps| - 1)
  }

  /** The "Total" row of a group. */
  function TotalRow(g: Group, row: nat): seq<CellWrite>
  {
    [CellWrite(row, 2, Text(TotalLabel)), CellWrite(row, 3, Number(Sum(g.payments)))]
  }

  /** A group starting at row `s`: partner row, payment lines, total row. */
  function BlockWrites(g: Group, s: nat): seq<CellWrite>
  {
    [CellWrite(s, 0, Text(g.partner))] + LineWrites(g.payments, s + 1) + TotalRow(g, s + |g.payments| + 1)
  }

  /** Rows a group takes, its blank separator row included. */
  function Span(g: Group): nat
  {
    |g.payments| + 3
  }

  /** The row counter after laying out `gs` from row `s`. */
  function EndRow(gs: seq<Group>, s: nat): nat
  {
    if gs == [] then s else EndRow(gs[..|gs| - 1], s) + Span(gs[|gs| - 1])
  }

  /** The groups `gs`, laid out one below the other from row `s`. */
  function BodyWrites(gs: seq<Group>, s: nat): seq<CellWrite>
  {
    if gs == [] then []
    else BodyWrites(gs[..|gs| - 1], s) + BlockWrites(gs[|gs| - 1], EndRow(gs[..|gs| - 1], s))
  }

  /** Every `worksheet.write` call of `generate_excel(ps)`, in order. */
  function ReportWrites(ps: seq<Payment>): seq<CellWrite>
  {
    HeaderWrites(ps) + BodyWrites(Groups(ps), FirstDataRow)
  }

  /** The grid `generate_excel(ps)` produces. */
  function Report(ps: seq<Payment>): map<Pos, Cell>
  {
    Sheet(ReportWrites(ps))
  }

  /** The row where group `k` of `gs` starts. */
  function GroupStart(gs: seq<Group>, k: nat): nat
    requires k <= |gs|
  {
    EndRow(gs[..k], FirstDataRow)
  }

  /** The row of payment `j` of a group that starts at row `s`. */
  function PaymentRow(s: nat, j: nat): nat
  {
    s + 1 + j
  }

  /** The "Total" row of group `k` of `gs`: right below its payment lines. */
  function TotalRowOf(gs: seq<Group>, k: nat): nat
    requires k < |gs|
  {
    GroupStart(gs, k) + |gs[k].payments| + 1
  }

  /** `generate_excel` without the formatting and the file encoding: it fills
      a fresh worksheet and returns what the worksheet holds. */
  method GenerateExcel(payments: seq<Payment>) returns (sheet: map<Pos, Cell>)
    ensures sheet == Report(payments)
  {
    var ws := new Worksheet();
    WriteHeader(ws, payments);
    var order, grouped := GroupByPartner(payments);
    ghost var gs := Groups(payments);
    var row := FirstDataRow;
    for gi := 0 to |order|
      invariant ws.Valid()
      invariant row == EndRow(gs[..gi], FirstDataRow)
      invariant ws.log == HeaderWrites(payments) + BodyWrites(gs[..gi], FirstDataRow)
    {
      var partner := order[gi];
      var pagos := grouped[partner];
      assert gs[gi] == Group(partner, pagos);
      row := WriteGroup(ws, partner, pagos, row);
      BodyStep(gs, gi);
      AppendAssoc(HeaderWrites(payments), BodyWrites(gs[..gi], FirstDataRow), BlockWrites(gs[gi], GroupStart(gs, gi)));
    }
    assert gs[..|order|] == gs;
    sheet := ws.cells;
  }

  /** Title, date line, company line and column headers (lines 29-50). */
  method WriteHeader(ws: Worksheet, payments: seq<Payment>)
    requires ws.Valid()
    modifies ws
    ensures ws.Valid()
    ensures ws.log == old(ws.log) + HeaderWrites(payments)
  {
    ghost var before := ws.log;
    ws.Write(0, 0, Text(Title(payments)));
    ws.Write(2, 0, Text(DatePrefix + DateLabel(payments)));
    ws.Write(3, 0, Text(CompanyLabel));
    assert ws.log == before + Preamble(payments);
    for col := 0 to |ColumnHeaders|
      invariant ws.Valid()
      invariant ws.log == before + Preamble(payments) + HeaderCells(col)
    {
      ws.Write(HeaderRow, col, Text(ColumnHeaders[col]));
    }
    AppendAssoc(before, Preamble(payments), HeaderCells(|ColumnHeaders|));
  }

  /** One pass of the layout loop (lines 61-78): the partner row at `start`,
      one line per payment, the "Total" row, and the row counter moved past a
      blank row. */
  method WriteGroup(ws: Worksheet, partner: string, pagos: seq<Payment>, start: nat) returns (row: nat)
    requires ws.Valid()
    modifies ws
    ensures ws.Valid()
    ensures ws.log == old(ws.log) + BlockWrites(Group(partner, pagos), start)
    ensures row == start + |pagos| + 3
  {
    ghost var before := ws.log;
    ws.Write(start, 0, Text(partner));
    row := WriteLines(ws, pagos, start + 1);
    var total := Sum(pagos);
    ghost var lines := ws.log;
    ws.Write(row, 2, Text(TotalLabel));
    ws.Write(row, 3, Number(total));
    ghost var tot := TotalRow(Group(partner, pagos), row);
    assert ws.log == lines + tot;
    AppendAssoc(before, [CellWrite(start, 0, Text(partner))], LineWrites(pagos, start + 1));
    AppendAssoc(before, [CellWrite(start, 0, Text(partner))] + LineWrites(pagos, start + 1), tot);
    row := row + 2;
  }

  /** The inner loop over a partner's payments (lines 67-72): one line per
      payment, from row `first` down. */
  method WriteLines(ws: Worksheet, pagos: seq<Payment>, first: nat) returns (row: nat)
    requires ws.Valid()
    modifies ws
    ensures ws.Valid()
    ensures ws.log == old(ws.log) + LineWrites(pagos, first)
    ensures row == first + |pagos|
  {
    ghost var before := ws.log;
    row := first;
    for j := 0 to |pagos|
      invariant ws.Valid()
      invariant row == first + j
      invariant ws.log == before + LineWrites(pagos[..j], first)
    {
      WriteLine(ws, pagos[j], row);
      LineWritesStep(pagos, j, first);
      AppendAssoc(before, LineWrites(pagos[..j], first), LineRow(pagos[j], row));
      row := row + 1;
    }
    assert pagos[..|pagos|] == pagos;
  }

  /** The four writes of one payment line (lines 68-71). */
  method WriteLine(ws: Worksheet, pago: Payment, row: nat)
    requires ws.Valid()
    modifies ws
    ensures ws.Valid()
    ensures ws.log == old(ws.log) + LineRow(pago, row)
  {
    ws.Write(row, 0, Text(pago.name));
    ws.Write(row, 1, Text(pago.date));
    ws.Write(row, 2, Text(pago.journal));
    ws.Write(row, 3, Number(pago.amount));
  }

  // ---------------------------------------------------------------------
  // Shape of the layout: which rows each part writes, and no overwrites.

  lemma {:induction false} LineWritesShape(ps: seq<Payment>, r: nat)
    ensures Distinct(LineWrites(ps, r)) && RowsWithin(LineWrites(ps, r), r, r + |ps|)
  {
    if ps != [] {
      var n := |ps|;
      LineWritesShape(ps[..n - 1], r);
      DistinctBands(LineWrites(ps[..n - 1], r), LineRow(ps[n - 1], r + n - 1), r, r + n - 1, r + n);
    }
  }

  lemma BlockShape(g: Group, s: nat)
    ensures Distinct(BlockWrites(g, s)) && RowsWithin(BlockWrites(g, s), s, s + |g.payments| + 2)
  {
    var n := |g.payments|;
    LineWritesShape(g.payments, s + 1);
    DistinctBands([CellWrite(s, 0, Text(g.partner))], LineWrites(g.payments, s + 1), s, s + 1, s + n + 1);
    DistinctBands([CellWrite(s, 0, Text(g.partner))] + LineWrites(g.payments, s + 1), TotalRow(g, s + n + 1),
                  s, s + n + 1, s + n + 2);
  }

  lemma {:induction false} BodyShape(gs: seq<Group>, s: nat)
    ensures s <= EndRow(gs, s)
    ensures Distinct(BodyWrites(gs, s)) && RowsWithin(BodyWrites(gs, s), s, EndRow(gs, s))
  {
    if gs != [] {
      var init := gs[..|gs| - 1];
      var last := gs[|gs| - 1];
      BodyShape(init, s);
      BlockShape(last, EndRow(init, s));
      DistinctBands(BodyWrites(init, s), BlockWrites(last, EndRow(init, s)),
                    s, EndRow(init, s), EndRow(gs, s));
    }
  }

  lemma {:induction false} HeaderCellsShape(n: nat)
    requires n <= |ColumnHeaders|
    ensures |HeaderCells(n)| == n
    ensures forall i :: 0 <= i < n ==> HeaderCells(n)[i] == CellWrite(HeaderRow, i, Text(ColumnHeaders[i]))
  {
    if n > 0 {
      HeaderCellsShape(n - 1);
    }
  }

  lemma HeaderShape(ps: seq<Payment>)
    ensures Distinct(HeaderWrites(ps)) && RowsWithin(HeaderWrites(ps), 0, FirstDataRow)
  {
    HeaderCellsShape(|ColumnHeaders|);
    var cells := HeaderCells(|ColumnHeaders|);
    assert Distinct(cells) by {
      forall i, j | 0 <= i < j < |cells|
        ensures cells[i].At() != cells[j].At()
      {
        assert cells[i].col == i && cells[j].col == j;
      }
    }
    DistinctBands(Preamble(ps), cells, 0, HeaderRow, FirstDataRow);
  }

  /** No cell is written twice: the header block and every group write
      pairwise different cells, and nothing is written below the last group. */
  lemma NoOverwrite(ps: seq<Payment>)
    ensures Distinct(ReportWrites(ps))
    ensures RowsWithin(ReportWrites(ps), 0, EndRow(Groups(ps), FirstDataRow))
  {
    HeaderShape(ps);
    BodyShape(Groups(ps), FirstDataRow);
    DistinctBands(HeaderWrites(ps), BodyWrites(Groups(ps), FirstDataRow),
                  0, FirstDataRow, EndRow(Groups(ps), FirstDataRow));
  }

  // ---------------------------------------------------------------------
  // Where each group goes, and what its cells hold.

  /** Laying out a prefix of the groups writes a prefix of the log; what the
      remaining groups write lies below the row counter reached so far. */
  lemma {:induction false} BodyPrefix(gs: seq<Group>, m: nat, s: nat)
    requires m <= |gs|
    ensures BodyWrites(gs[..m], s) <= BodyWrites(gs, s)
    ensures EndRow(gs[..m], s) <= EndRow(gs, s)
    ensures forall i :: |BodyWrites(gs[..m], s)| <= i < |BodyWrites(gs, s)| ==>
              BodyWrites(gs, s)[i].row >= EndRow(gs[..m], s)
  {
    if m == |gs| {
      assert gs[..m] == gs;
    } else {
      var init := gs[..|gs| - 1];
      var last := gs[|gs| - 1];
      assert init[..m] == gs[..m];
      BodyPrefix(init, m, s);
      BlockShape(last, EndRow(init, s));
      var blk := BlockWrites(last, EndRow(init, s));
      assert BodyWrites(gs, s) == BodyWrites(init, s) + blk;
      forall i | |BodyWrites(gs[..m], s)| <= i < |BodyWrites(gs, s)|
        ensures BodyWrites(gs, s)[i].row >= EndRow(gs[..m], s)
      {
        if i >= |BodyWrites(init, s)| {
          assert BodyWrites(gs, s)[i] == blk[i - |BodyWrites(init, s)|];
        }
      }
    }
  }

  /** Laying out the first `k + 1` groups is laying out the first `k` and
      then group `k` at `GroupStart(gs, k)`. */
  lemma BodyStep(gs: seq<Group>, k: nat)
    requires k < |gs|
    ensures BodyWrites(gs[..k + 1], FirstDataRow) == BodyWrites(gs[..k], FirstDataRow) + BlockWrites(gs[k], GroupStart(gs, k))
    ensures GroupStart(gs, k + 1) == GroupStart(gs, k) + |gs[k].payments| + 3
  {
    assert gs[..k + 1][..k] == gs[..k];
  }

  /** Laying out one more payment appends its line. */
  lemma LineWritesStep(ps: seq<Payment>, j: nat, r: nat)
    requires j < |ps|
    ensures LineWrites(ps[..j + 1], r) == LineWrites(ps[..j], r) + LineRow(ps[j], r + j)
  {
    assert ps[..j + 1][..j] == ps[..j];
  }

  /** Payment `j` of `ps` is written in row `r + j`. */
  lemma {:induction false} LineWritesAt(ps: seq<Payment>, r: nat, j: nat)
    requires j < |ps|
    ensures forall w :: w in LineRow(ps[j], r + j) ==> w in LineWrites(ps, r)
  {
    if j < |ps| - 1 {
      assert ps[..|ps| - 1][j] == ps[j];
      LineWritesAt(ps[..|ps| - 1], r, j);
    }
  }

  /** The cells of payment `p` in row `row`. */
  ghost predicate LineAt(grid: map<Pos, Cell>, row: nat, p: Payment)
  {
    RowIs(grid, row, p.name, p.date, p.journal, p.amount)
  }

  /** Every write of group `k`'s block is in the log of the whole layout. */
  lemma BlockInBody(gs: seq<Group>, k: nat)
    requires k < |gs|
    ensures forall w :: w in BlockWrites(gs[k], GroupStart(gs, k)) ==> w in BodyWrites(gs, FirstDataRow)
  {
    BodyPrefix(gs, k + 1, FirstDataRow);
    BodyStep(gs, k);
    PrefixMembers(BodyWrites(gs[..k], FirstDataRow), BlockWrites(gs[k], GroupStart(gs, k)), BodyWrites(gs, FirstDataRow));
  }

  lemma PrefixMembers(a: seq<CellWrite>, b: seq<CellWrite>, c: seq<CellWrite>)
    requires a + b <= c
    ensures forall w :: w in b ==> w in c
  {
    forall w | w in b
      ensures w in c
    {
      var i :| 0 <= i < |b| && b[i] == w;
      assert c[|a| + i] == (a + b)[|a| + i] == w;
    }
  }

  /** What the block of group `g` at row `s` writes. */
  lemma BlockMembers(g: Group, s: nat)
    ensures CellWrite(s, 0, Text(g.partner)) in BlockWrites(g, s)
    ensures CellWrite(s + |g.payments| + 1, 2, Text(TotalLabel)) in BlockWrites(g, s)
    ensures CellWrite(s + |g.payments| + 1, 3, Number(Sum(g.payments))) in BlockWrites(g, s)
  {
  }

  /** The payment lines of the block of group `g` at row `s` are part of it. */
  lemma BlockLines(g: Group, s: nat)
    ensures forall w :: w in LineWrites(g.payments, s + 1) ==> w in BlockWrites(g, s)
  {
    PrefixMembers([CellWrite(s, 0, Text(g.partner))], LineWrites(g.payments, s + 1), BlockWrites(g, s));
  }

  /** Group `k` starts at row 7 or below. */
  lemma GroupStartBound(gs: seq<Group>, k: nat)
    requires k <= |gs|
    ensures FirstDataRow <= GroupStart(gs, k)
  {
    BodyShape(gs[..k], FirstDataRow);
  }

  /** The grid of the report shows every write of the layout. */
  lemma ReportShows(ps: seq<Payment>)
    ensures Shows(Report(ps), ReportWrites(ps))
  {
    NoOverwrite(ps);
    SheetShows(ReportWrites(ps));
  }

  /** The grid of the report shows every write of group `k`'s block. */
  lemma ReportShowsBlock(ps: seq<Payment>, k: nat)
    requires k < |Groups(ps)|
    ensures Shows(Report(ps), BlockWrites(Groups(ps)[k], GroupStart(Groups(ps), k)))
  {
    ReportShows(ps);
    BlockInBody(Groups(ps), k);
  }

  /** The grid of the report shows every write of the header. */
  lemma ReportShowsHeader(ps: seq<Payment>)
    ensures Shows(Report(ps), HeaderWrites(ps))
  {
    ReportShows(ps);
  }

  /** A grid that shows the block of group `g` at row `s` has the partner
      name at (`s`, 0) and, in its "Total" row `t`, the label and the sum. */
  lemma BlockEdgeCells(grid: map<Pos, Cell>, g: Group, s: nat, t: nat)
    requires t == s + |g.payments| + 1
    requires Shows(grid, BlockWrites(g, s))
    ensures CellIs(grid, s, 0, Text(g.partner))
    ensures CellIs(grid, t, 2, Text(TotalLabel))
    ensures CellIs(grid, t, 3, Number(Sum(g.payments)))
  {
    BlockMembers(g, s);
  }

  /** A grid that shows the block of group `g` at row `s` has payment `j` in
      row `s + 1 + j`. */
  lemma BlockLineCells(grid: map<Pos, Cell>, g: Group, s: nat)
    requires Shows(grid, BlockWrites(g, s))
    ensures forall j :: 0 <= j < |g.payments| ==> LineAt(grid, PaymentRow(s, j), g.payments[j])
  {
    BlockLines(g, s);
    forall j | 0 <= j < |g.payments|
      ensures LineAt(grid, PaymentRow(s, j), g.payments[j])
    {
      LinesCell(BlockWrites(g, s), grid, g.payments, s + 1, j);
    }
  }

  /** Payment `j` of payment lines laid out from row `r` shows in row
      `r + j` of a grid that shows the log they are part of. */
  lemma LinesCell(log: seq<CellWrite>, grid: map<Pos, Cell>, ps: seq<Payment>, r: nat, j: nat)
    requires j < |ps|
    requires Shows(grid, log)
    requires forall w :: w in LineWrites(ps, r) ==> w in log
    ensures LineAt(grid, r + j, ps[j])
  {
    LineWritesAt(ps, r, j);
    var line := LineRow(ps[j], r + j);
    assert line[0] in log && line[1] in log && line[2] in log && line[3] in log;
  }

  /** Group `k` starts at `GroupStart`, at row 7 or below (the first group
      at row 7 itself), with its partner name in column 0 of that row; its
      "Total" row `TotalRowOf`, which is `GroupStart + n + 1` right after its
      `n` payment lines, has the label in column 2 and the group's sum in
      column 3. */
  lemma GroupPartnerAndTotal(ps: seq<Payment>, k: nat)
    requires k < |Groups(ps)|
    ensures FirstDataRow <= GroupStart(Groups(ps), k)
    ensures k == 0 ==> GroupStart(Groups(ps), k) == FirstDataRow
    ensures CellIs(Report(ps), GroupStart(Groups(ps), k), 0, Text(Groups(ps)[k].partner))
    ensures CellIs(Report(ps), TotalRowOf(Groups(ps), k), 2, Text(TotalLabel))
    ensures CellIs(Report(ps), TotalRowOf(Groups(ps), k), 3, Number(Sum(Groups(ps)[k].payments)))
  {
    ReportShowsBlock(ps, k);
    GroupStartBound(Groups(ps), k);
    BlockEdgeCells(Report(ps), Groups(ps)[k], GroupStart(Groups(ps), k), TotalRowOf(Groups(ps), k));
  }

  /** Payment `j` of group `k` fills columns 0-3 (order name, date, journal,
      amount) of row `GroupStart + 1 + j`. */
  lemma GroupPaymentLines(ps: seq<Payment>, k: nat)
    requires k < |Groups(ps)|
    ensures forall j :: 0 <= j < |Groups(ps)[k].payments| ==>
              LineAt(Report(ps), PaymentRow(GroupStart(Groups(ps), k), j), Groups(ps)[k].payments[j])
  {
    ReportShowsBlock(ps, k);
    BlockLineCells(Report(ps), Groups(ps)[k], GroupStart(Groups(ps), k));
  }

  /** No write of the layout is to the row right below group `k`'s "Total"
      row. */
  lemma BlockGap(head: seq<CellWrite>, gs: seq<Group>, k: nat)
    requires k < |gs|
    requires RowsWithin(head, 0, FirstDataRow)
    ensures var row := GroupStart(gs, k) + |gs[k].payments| + 2;
            forall i :: 0 <= i < |head + BodyWrites(gs, FirstDataRow)| ==> (head + BodyWrites(gs, FirstDataRow))[i].row != row
  {
    var g := gs[k];
    var s := GroupStart(gs, k);
    var n := |g.payments|;
    var pre := BodyWrites(gs[..k], FirstDataRow);
    var blk := BlockWrites(g, s);
    var body := BodyWrites(gs, FirstDataRow);
    var log := head + body;
    BodyStep(gs, k);
    BodyPrefix(gs, k + 1, FirstDataRow);
    BodyShape(gs[..k], FirstDataRow);
    BlockShape(g, s);
    forall i | 0 <= i < |log|
      ensures log[i].row != s + n + 2
    {
      if i < |head| {
        assert log[i] == head[i];
      } else {
        var b := i - |head|;
        assert log[i] == body[b];
        if b < |pre| {
          assert body[b] == pre[b];
        } else if b < |pre| + |blk| {
          assert body[b] == (pre + blk)[b] == blk[b - |pre|];
        }
      }
    }
  }

  /** The next group starts three rows below the last payment line of group
      `k`, and the row between its "Total" row and the next group is blank. */
  lemma GroupSpacing(ps: seq<Payment>, k: nat)
    requires k < |Groups(ps)|
    ensures var s := GroupStart(Groups(ps), k);
            var n := |Groups(ps)[k].payments|;
            GroupStart(Groups(ps), k + 1) == s + n + 3 &&
            forall p :: p in Report(ps) ==> p.0 != s + n + 2
  {
    BodyStep(Groups(ps), k);
    HeaderShape(ps);
    BlockGap(HeaderWrites(ps), Groups(ps), k);
    SheetKeys(ReportWrites(ps));
  }

  /** Title in A1, the date line in A3, the company line in A4 and the four
      column headers in row 6, columns 0-3. */
  lemma ReportHeader(ps: seq<Payment>)
    ensures var grid := Report(ps);
            CellIs(grid, 0, 0, Text(Title(ps))) &&
            CellIs(grid, 2, 0, Text(DatePrefix + (if ps == [] then NoDate else ps[0].date))) &&
            CellIs(grid, 3, 0, Text(CompanyLabel)) &&
            forall c :: 0 <= c < |ColumnHeaders| ==> CellIs(grid, HeaderRow, c, Text(ColumnHeaders[c]))
  {
    ReportShowsHeader(ps);
    HeaderCellsShape(|ColumnHeaders|);
    var head := HeaderWrites(ps);
    assert forall i :: 0 <= i < |head| ==> head[i] in head;
  }

  // ---------------------------------------------------------------------
  // Conservation of amounts in the rendered sheet.

  /** The amount in the "Total" cell of group `k`. */
  ghost function TotalCell(ps: seq<Payment>, k: nat): int
    requires k < |Groups(ps)|
  {
    var row := TotalRowOf(Groups(ps), k);
    var grid := Report(ps);
    if (row, 3) in grid && grid[(row, 3)].Number? then grid[(row, 3)].value else 0
  }

  /** The sum of the "Total" cells of groups `k` onwards. */
  ghost function TotalCellsFrom(ps: seq<Payment>, k: nat): int
    requires k <= |Groups(ps)|
    decreases |Groups(ps)| - k
  {
    if k == |Groups(ps)| then 0 else TotalCell(ps, k) + TotalCellsFrom(ps, k + 1)
  }

  lemma {:induction false} TotalCellsFromGroups(ps: seq<Payment>, k: nat)
    requires k <= |Groups(ps)|
    ensures TotalCellsFrom(ps, k) == SumOfTotals(Groups(ps)[k..])
    decreases |Groups(ps)| - k
  {
    var gs := Groups(ps);
    if k < |gs| {
      GroupPartnerAndTotal(ps, k);
      TotalCellsFromGroups(ps, k + 1);
      assert gs[k..][1..] == gs[k + 1..];
    }
  }

  /** The "Total" cells of the sheet add up to the sum of all payment
      amounts: nothing is counted twice and nothing is left out. */
  lemma ReportTotals(ps: seq<Payment>)
    ensures TotalCellsFrom(ps, 0) == Sum(ps)
  {
    TotalCellsFromGroups(ps, 0);
    assert Groups(ps)[0..] == Groups(ps);
    TotalsConserve(ps);
  }
}
