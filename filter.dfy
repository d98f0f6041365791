/**
 * Which graph nodes are displayed for a dropdown selection (`update_graph`, app.py lines 84-106
 * and 153-154) and which nodes the KPI counts (`update_kpi`, app.py lines 332-351).
 */
module Filter {
  import opened Records
  import opened Graph

  /** The four dropdown values; an empty list leaves that dimension unconstrained. */
  datatype Selection = Selection(persons: seq<string>, projects: seq<string>, clans: seq<string>, consejos: seq<string>)

  predicate NodesChosen(sel: Selection)
  {
    sel.persons != [] || sel.projects != []
  }

  predicate OrgChosen(sel: Selection)
  {
    sel.clans != [] || sel.consejos != []
  }

  /** `set(selected_persons + selected_projects)`. */
  function Chosen(sel: Selection): set<string>
  {
    set n | n in sel.persons + sel.projects
  }

  /** Every chosen name is a graph node, as the dropdown options come from the data columns. */
  predicate ChoiceInGraph(data: seq<Record>, sel: Selection)
  {
    Chosen(sel) <= Nodes(data)
  }

  /** The neighbours of the nodes in `s`. */
  function Hop(data: seq<Record>, s: set<string>): set<string>
  {
    set n, m | n in s && m in Neighbors(data, n) :: m
  }

  /** `s` together with its neighbours: one hop, not a transitive closure. */
  function Expand(data: seq<Record>, s: set<string>): set<string>
  {
    s + Hop(data, s)
  }

  /**
   * The persons in `shown` whose clan (last row) is among the chosen clans or whose consejo is
   * among the chosen consejos; a node absent from the maps, such as a project, never matches.
   */
  function OrgMatch(data: seq<Record>, shown: set<string>, sel: Selection): (r: set<string>)
    ensures r <= shown && r <= Persons(data)
  {
    var clanOf := OrgMap(data, Clan);
    var consejoOf := OrgMap(data, Consejo);
    set n | n in shown &&
      ((n in clanOf && clanOf[n] in sel.clans) || (n in consejoOf && consejoOf[n] in sel.consejos))
  }

  /** The node set after the person/project phase. */
  function BaseNodes(data: seq<Record>, sel: Selection): set<string>
  {
    if !NodesChosen(sel) then Nodes(data) else Expand(data, Chosen(sel))
  }

  /** The node set `update_graph` draws. */
  function GraphNodes(data: seq<Record>, sel: Selection): set<string>
  {
    if OrgChosen(sel) then Expand(data, OrgMatch(data, BaseNodes(data, sel), sel)) else BaseNodes(data, sel)
  }

  /** The node set `update_kpi` counts: reset to all nodes without a clan/consejo, never re-expanded. */
  function KpiNodes(data: seq<Record>, sel: Selection): set<string>
  {
    if !OrgChosen(sel) then Nodes(data) else OrgMatch(data, BaseNodes(data, sel), sel)
  }

  /** Adding one node to a set adds exactly its neighbours to the hop: the step of the expansion loop. */
  lemma HopInsert(data: seq<Record>, d: set<string>, n: string)
    ensures Hop(data, d + {n}) == Hop(data, d) + Neighbors(data, n)
  {
  }

  /** The copy-then-update loop: `shown = s.copy()` and `shown.update(G.neighbors(n))` for each `n`. */
  method ExpandOneHop(data: seq<Record>, s: set<string>) returns (shown: set<string>)
    requires s <= Nodes(data)
    ensures shown == Expand(data, s)
  {
    shown := s;
    var todo := s;
    while todo != {}
      invariant todo <= s
      invariant shown == s + Hop(data, s - todo)
      decreases todo
    {
      var n :| n in todo;
      HopInsert(data, s - todo, n);
      assert s - (todo - {n}) == (s - todo) + {n};
      shown := shown + Neighbors(data, n);
      todo := todo - {n};
    }
    assert s - todo == s;
  }

  /** The node-set phases of `update_graph`. */
  method ResolveGraphNodes(data: seq<Record>, sel: Selection) returns (shown: set<string>)
    requires ChoiceInGraph(data, sel)
    ensures shown == GraphNodes(data, sel)
  {
    if !NodesChosen(sel) {
      shown := Nodes(data);
    } else {
      shown := ExpandOneHop(data, Chosen(sel));
    }
    if OrgChosen(sel) {
      var matched := OrgMatch(data, shown, sel);
      assert matched <= Nodes(data);
      shown := ExpandOneHop(data, matched);
    }
  }

  /** The node-set phases of `update_kpi`. */
  method ResolveKpiNodes(data: seq<Record>, sel: Selection) returns (shown: set<string>)
    requires ChoiceInGraph(data, sel)
    ensures shown == KpiNodes(data, sel)
  {
    if !NodesChosen(sel) {
      shown := Nodes(data);
    } else {
      shown := ExpandOneHop(data, Chosen(sel));
    }
    if !OrgChosen(sel) {
      shown := Nodes(data);
    } else {
      shown := OrgMatch(data, shown, sel);
    }
  }

  /** The edge loop: an edge is drawn exactly when both of its endpoints are displayed. */
  method VisibleEdges(data: seq<Record>, shown: set<string>) returns (drawn: set<(string, string)>)
    ensures forall e :: e in drawn <==> e in Edges(data) && e.0 in shown && e.1 in shown
  {
    drawn := {};
    var todo := Edges(data);
    while todo != {}
      invariant todo <= Edges(data)
      invariant forall e :: e in drawn <==> e in Edges(data) && e !in todo && e.0 in shown && e.1 in shown
      decreases todo
    {
      var e :| e in todo;
      if e.0 in shown && e.1 in shown {
        drawn := drawn + {e};
      }
      todo := todo - {e};
    }
  }

  /** A node is in `Expand(s)` exactly when it is in `s` or adjacent to a node of `s`. */
  lemma ExpandIsOneHop(data: seq<Record>, s: set<string>, m: string)
    ensures m in Expand(data, s) <==> m in s || exists n :: n in s && Adjacent(data, n, m)
  {
    if m !in s && exists n :: n in s && Adjacent(data, n, m) {
      var n :| n in s && Adjacent(data, n, m);
      assert m in Neighbors(data, n);
    }
  }

  /** No person, project, clan or consejo chosen: every node is displayed. */
  lemma NothingChosenShowsAll(data: seq<Record>, sel: Selection)
    requires !NodesChosen(sel) && !OrgChosen(sel)
    ensures GraphNodes(data, sel) == Nodes(data)
  {
  }

  /** With persons or projects chosen and no clan/consejo, the display is the chosen names and their neighbours. */
  lemma ChosenShowsOneHop(data: seq<Record>, sel: Selection, m: string)
    requires NodesChosen(sel) && !OrgChosen(sel)
    ensures m in GraphNodes(data, sel) <==> m in Chosen(sel) || exists n :: n in Chosen(sel) && Adjacent(data, n, m)
  {
    ExpandIsOneHop(data, Chosen(sel), m);
  }

  /**
   * With a clan or consejo chosen, the display is the matching persons of the first phase and their
   * neighbours; every displayed node is such a person or adjacent to one.
   */
  lemma OrgShowsMatchesAndNeighbours(data: seq<Record>, sel: Selection, m: string)
    requires OrgChosen(sel)
    ensures m in GraphNodes(data, sel) <==>
      var r := OrgMatch(data, BaseNodes(data, sel), sel);
      m in r || exists n :: n in r && Adjacent(data, n, m)
  {
    ExpandIsOneHop(data, OrgMatch(data, BaseNodes(data, sel), sel), m);
  }

  /**
   * With a clan or consejo chosen and disjoint names, a project is displayed only as the
   * neighbour of a matching person.
   */
  lemma OrgProjectsViaMatchedPerson(data: seq<Record>, sel: Selection, j: string)
    requires OrgChosen(sel) && NamesDisjoint(data) && j in Projects(data)
    ensures j in GraphNodes(data, sel) <==>
      exists p :: p in OrgMatch(data, BaseNodes(data, sel), sel) && Adjacent(data, p, j)
  {
    OrgShowsMatchesAndNeighbours(data, sel, j);
  }

  /** Without a clan/consejo choice, every edge touching a chosen name has both endpoints displayed. */
  lemma ChosenEdgesDrawn(data: seq<Record>, sel: Selection, e: (string, string))
    requires NodesChosen(sel) && !OrgChosen(sel)
    requires e in Edges(data) && (e.0 in Chosen(sel) || e.1 in Chosen(sel))
    ensures e.0 in GraphNodes(data, sel) && e.1 in GraphNodes(data, sel)
  {
    ExpandIsOneHop(data, Chosen(sel), e.0);
    ExpandIsOneHop(data, Chosen(sel), e.1);
    NeighborsSymmetric(data, e.0, e.1);
    assert e.1 in Neighbors(data, e.0);
  }

  /**
   * A node survives the clan/consejo phase exactly when it was displayed and the clan or the
   * consejo on its last row is chosen; a node with no row as a person never survives.
   */
  lemma OrgMatchCharacterised(data: seq<Record>, shown: set<string>, sel: Selection, p: string)
    ensures p in OrgMatch(data, shown, sel) <==>
      p in shown && exists i :: LastRowOf(data, p, i) && (data[i].clan in sel.clans || data[i].consejo in sel.consejos)
  {
    if p in Persons(data) {
      OrgMapIsLastRow(data, p, Clan);
      OrgMapIsLastRow(data, p, Consejo);
      var i :| LastRowOf(data, p, i) && Tag(data[i], Clan) == OrgMap(data, Clan)[p];
      var k :| LastRowOf(data, p, k) && Tag(data[k], Consejo) == OrgMap(data, Consejo)[p];
      LastRowUnique(data, p, i, k);
      forall j | LastRowOf(data, p, j) ensures j == i {
        LastRowUnique(data, p, i, j);
      }
    } else {
      forall i | 0 <= i < |data| ensures data[i].person != p {
        assert data[i] in data;
      }
    }
  }

  /** Expanding a set of nodes stays inside the graph. */
  lemma ExpandWithinNodes(data: seq<Record>, s: set<string>)
    requires s <= Nodes(data)
    ensures Expand(data, s) <= Nodes(data)
  {
    forall m | m in Expand(data, s) ensures m in Nodes(data) {
      if m !in s {
        var n :| n in s && m in Neighbors(data, n);
        NeighborsAreNodes(data, n);
      }
    }
  }

  /** Every displayed node is a node of the graph. */
  lemma GraphNodesWithinGraph(data: seq<Record>, sel: Selection)
    requires ChoiceInGraph(data, sel)
    ensures GraphNodes(data, sel) <= Nodes(data)
    ensures KpiNodes(data, sel) <= Nodes(data)
  {
    ExpandWithinNodes(data, Chosen(sel));
    ExpandWithinNodes(data, OrgMatch(data, BaseNodes(data, sel), sel));
  }

  /** The KPI ignores the person/project choice whenever no clan or consejo is chosen. */
  lemma KpiIgnoresChoiceWithoutOrg(data: seq<Record>, sel: Selection)
    requires ChoiceInGraph(data, sel) && !OrgChosen(sel)
    ensures KpiNodes(data, sel) == Nodes(data)
    ensures GraphNodes(data, sel) <= KpiNodes(data, sel)
  {
    GraphNodesWithinGraph(data, sel);
  }

  /** Person and project names never coincide. */
  predicate NamesDisjoint(data: seq<Record>)
  {
    Persons(data) !! Projects(data)
  }

  /**
   * With a clan or consejo chosen, the KPI counts the matching persons but not their neighbours;
   * on a graph whose person and project names are disjoint the graph shows the same persons.
   */
  lemma KpiPersonsMatchGraphPersons(data: seq<Record>, sel: Selection)
    requires OrgChosen(sel) && NamesDisjoint(data)
    ensures KpiNodes(data, sel) <= GraphNodes(data, sel)
    ensures GraphNodes(data, sel) * Persons(data) == KpiNodes(data, sel)
  {
    var r := OrgMatch(data, BaseNodes(data, sel), sel);
    forall n, m | n in r && m in Persons(data) ensures m !in Neighbors(data, n) {
      PersonsAreNotNeighbours(data, n, m);
    }
  }

  /** With disjoint names no two persons are adjacent: the graph is bipartite. */
  lemma PersonsAreNotNeighbours(data: seq<Record>, n: string, m: string)
    requires NamesDisjoint(data) && n in Persons(data) && m in Persons(data)
    ensures m !in Neighbors(data, n)
  {
    forall row | row in data ensures !((row.person == n && row.project == m) || (row.project == n && row.person == m)) {
      assert row.project in Projects(data);
    }
  }
}
