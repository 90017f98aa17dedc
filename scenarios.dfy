/** A worked example: two payments to partner "A" (100 and 200) and one to
    partner "B" (50), all posted supplier payments. */
module Scenarios {
  import opened Payments
  import opened Grouping
  import opened Grid
  import opened Layout

  const PayA1 := Payment("OP-001", "2024-03-01", "Banco", "A", 100, "posted", "supplier")
  const PayA2 := Payment("OP-002", "2024-03-02", "Banco", "A", 200, "posted", "supplier")
  const PayB := Payment("OP-003", "2024-03-03", "Caja", "B", 50, "posted", "supplier")

  /** A is seen first, so its group comes first, and B second. A's second
      payment joins A's group even though B's payment comes between the two
      in the input. */
  lemma ExampleGroups()
    ensures Groups([PayA1, PayB, PayA2]) == [Group("A", [PayA1, PayA2]), Group("B", [PayB])]
  {
    var ps := [PayA1, PayB, PayA2];
    assert Partners(ps) == ["A", "B"] by {
      assert ps[..2] == [PayA1, PayB] && ps[..2][..1] == [PayA1] && [PayA1][..0] == [];
      assert Partners([PayA1]) == ["A"];
      assert Partners([PayA1, PayB]) == ["A", "B"];
    }
    assert PaymentsOf(ps, "A") == [PayA1, PayA2] by {
      assert ps[..2] == [PayA1, PayB] && ps[..2][..1] == [PayA1] && [PayA1][..0] == [];
      assert PaymentsOf([PayA1], "A") == [PayA1];
      assert PaymentsOf([PayA1, PayB], "A") == [PayA1];
    }
    assert PaymentsOf(ps, "B") == [PayB] by {
      assert ps[..2] == [PayA1, PayB] && ps[..2][..1] == [PayA1] && [PayA1][..0] == [];
      assert PaymentsOf([PayA1], "B") == [];
      assert PaymentsOf([PayA1, PayB], "B") == [PayB];
    }
  }

  /** The sheet shows the supplier title, A's total of 300 in row 10 and,
      after a blank row 11, B's group from row 12 with its total of 50 in
      row 14. */
  lemma ExampleTotals()
    ensures var grid := Report([PayA1, PayB, PayA2]);
            CellIs(grid, 0, 0, Text(SupplierTitle)) &&
            CellIs(grid, 7, 0, Text("A")) &&
            CellIs(grid, 10, 2, Text(TotalLabel)) &&
            CellIs(grid, 10, 3, Number(300)) &&
            CellIs(grid, 12, 0, Text("B")) &&
            CellIs(grid, 14, 3, Number(50))
  {
    var ps := [PayA1, PayB, PayA2];
    var gs := Groups(ps);
    ExampleGroups();
    ReportHeader(ps);
    assert gs[..0] == [] && gs[..1] == [gs[0]] && [gs[0]][..0] == [];
    assert GroupStart(gs, 0) == 7;
    assert GroupStart(gs, 1) == 12;
    assert gs[0].payments == [PayA1, PayA2] && gs[1].payments == [PayB];
    assert Sum([PayA2]) == 200 by {
      assert [PayA2][1..] == [];
    }
    assert Sum([PayA1, PayA2]) == 300 by {
      assert [PayA1, PayA2][1..] == [PayA2];
    }
    assert Sum([PayB]) == 50 by {
      assert [PayB][1..] == [];
    }
    GroupPartnerAndTotal(ps, 0);
    GroupPartnerAndTotal(ps, 1);
  }
}
