/** Worked examples on a three-row time sheet. */
module Scenarios {
  import opened Records
  import opened Graph
  import opened Filter
  import opened Metrics

  function Sheet(second: string): seq<Record>
  {
    [Record("P1", "A", "X", "Y", 10.0), Record("P1", second, "X", "Y", 5.0), Record("P2", "A", "Z", "Y", 8.0)]
  }

  lemma SheetNeighbours()
    ensures Neighbors(Sheet("B"), "P1") == {"A", "B"}
    ensures Neighbors(Sheet("B"), "P2") == {"A"}
    ensures Neighbors(Sheet("B"), "A") == {"P1", "P2"}
  {
    var data := Sheet("B");
    assert forall r :: r in data <==> r == data[0] || r == data[1] || r == data[2];
  }

  /**
   * Choosing P1 shows P1 and its two projects; P2 is adjacent to the displayed project A but is
   * not displayed, because the expansion stops after one hop.
   */
  lemma ChoosingOnePerson()
    ensures GraphNodes(Sheet("B"), Selection(["P1"], [], [], [])) == {"P1", "A", "B"}
    ensures "P2" in Neighbors(Sheet("B"), "A")
  {
    var data := Sheet("B");
    var sel := Selection(["P1"], [], [], []);
    assert Chosen(sel) == {"P1"} by {
      assert sel.persons + sel.projects == ["P1"];
    }
    SheetNeighbours();
    HopInsert(data, {}, "P1");
    assert Hop(data, {"P1"}) == {"A", "B"};
    assert BaseNodes(data, sel) == Expand(data, {"P1"});
    assert GraphNodes(data, sel) == BaseNodes(data, sel);
  }

  lemma ChosenPersonHours()
    ensures TotalHours(Sheet("B"), "P1") == 15.0 && ProductiveHours(Sheet("B"), "P1") == 15.0
    ensures ColourOf(Sheet("B"), "P1") == Green
  {
    var data := Sheet("B");
    assert data[0] in data;
    assert Keep(data, PersonIn(["P1"])) == [data[0], data[1]];
    assert Keep(data, ProductiveOnly) == data;
  }

  /** With B an excluded project ("Vacaciones"), a third of P1's hours are idle, above the 20% of the red band. */
  lemma ExcludedProjectCounts()
    ensures TotalHours(Sheet("Vacaciones"), "P1") == 15.0
    ensures ProductiveHours(Sheet("Vacaciones"), "P1") == 10.0
    ensures Inefficiency(Sheet("Vacaciones"), "P1") == 1.0 / 3.0
    ensures ColourOf(Sheet("Vacaciones"), "P1") == Red
  {
    var data := Sheet("Vacaciones");
    assert data[0] in data;
    assert Keep(data, PersonIn(["P1"])) == [data[0], data[1]];
    assert Keep(data, ProductiveOnly) == [data[0], data[2]];
    assert Keep([data[0], data[2]], PersonIn(["P1"])) == [data[0]];
  }

  /** A clan choice keeps P2 (clan Z) and its project A, drops P1, and the KPI counts P2 alone. */
  lemma ChoosingOneClan()
    ensures GraphNodes(Sheet("B"), Selection([], [], ["Z"], [])) == {"P2", "A"}
    ensures KpiNodes(Sheet("B"), Selection([], [], ["Z"], [])) == {"P2"}
  {
    var data := Sheet("B");
    var sel := Selection([], [], ["Z"], []);
    assert BaseNodes(data, sel) == Nodes(data);
    SheetMatch();
    assert OrgMatch(data, BaseNodes(data, sel), sel) == {"P2"};
    SheetNeighbours();
    HopInsert(data, {}, "P2");
    assert Hop(data, {"P2"}) == {"A"};
    assert GraphNodes(data, sel) == Expand(data, {"P2"});
  }

  lemma SheetMatch()
    ensures OrgMatch(Sheet("B"), Nodes(Sheet("B")), Selection([], [], ["Z"], [])) == {"P2"}
  {
    var data := Sheet("B");
    assert forall r :: r in data <==> r == data[0] || r == data[1] || r == data[2];
    assert Persons(data) == {"P1", "P2"};
    OrgMapIsLastRow(data, "P1", Clan);
    OrgMapIsLastRow(data, "P2", Clan);
    var m := OrgMatch(data, Nodes(data), Selection([], [], ["Z"], []));
    assert "P2" in m;
    assert "P1" !in m;
  }

  /**
   * The hover rounds the ratio and the colour does not: 7951 productive hours out of 10000 is an
   * inefficiency of 20.49%, red by the legend's "> 20%", yet the rounded hover IO is 0.2 in exact
   * arithmetic (Python's floats give 0.19999999999999996).
   */
  lemma RedNodeShowsTwentyPercent()
    ensures var data := [Record("Q", "A", "X", "Y", 7951.0), Record("Q", "Vacaciones", "X", "Y", 2049.0)];
      && TotalHours(data, "Q") == 10000.0
      && Inefficiency(data, "Q") == 0.2049
      && ColourOf(data, "Q") == Red
      && HoverIO(data, "Q") == 0.2
  {
    var data := [Record("Q", "A", "X", "Y", 7951.0), Record("Q", "Vacaciones", "X", "Y", 2049.0)];
    assert data[0] in data;
    assert Keep(data, PersonIn(["Q"])) == data;
    assert Keep(data, ProductiveOnly) == [data[0]];
    assert Keep([data[0]], PersonIn(["Q"])) == [data[0]];
    assert (0.7951 * 100.0).Floor == 79;
  }
}
