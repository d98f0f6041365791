/**
 * The graph and KPI callbacks: `update_graph` builds the hover list and the colour list by
 * appending inside loops over the displayed set (app.py lines 136-148 and 166-185) and keeps the
 * edges whose endpoints are both displayed (lines 153-154); `update_kpi` computes its ratio over
 * its own node set (lines 332-360).
 */
module Dashboard {
  import opened Records
  import opened Graph
  import opened Filter
  import opened Metrics

  /** The content of a node's hover text; its HTML formatting is not modelled. */
  datatype Hover =
    | PersonHover(person: string, productive: real, io: real, clan: string, consejo: string)
    | ProjectHover(project: string)

  /** A person (a key of `hours_sum`) shows productive hours, IO and the clan/consejo of its first row. */
  function HoverOf(data: seq<Record>, n: string): (h: Hover)
    ensures h.PersonHover? <==> n in Persons(data)
    ensures h.PersonHover? ==> h.person == n && h.productive == ProductiveHours(data, n) && h.io == HoverIO(data, n)
    ensures h.PersonHover? ==> h.clan == FirstTag(data, n, Clan) && h.consejo == FirstTag(data, n, Consejo)
    ensures h.ProjectHover? ==> h.project == n
  {
    if n in Persons(data) then
      PersonHover(n, ProductiveHours(data, n), HoverIO(data, n), FirstTag(data, n, Clan), FirstTag(data, n, Consejo))
    else ProjectHover(n)
  }

  /** Iteration over the displayed set: every element exactly once, in an order the set chooses. */
  method Enumerate(shown: set<string>) returns (order: seq<string>)
    ensures forall x :: x in order <==> x in shown
    ensures forall i, j :: 0 <= i < j < |order| ==> order[i] != order[j]
  {
    order := [];
    var todo := shown;
    while todo != {}
      invariant todo <= shown
      invariant forall x :: x in order <==> x in shown && x !in todo
      invariant forall i, j :: 0 <= i < j < |order| ==> order[i] != order[j]
      decreases todo
    {
      var x :| x in todo;
      order := order + [x];
      todo := todo - {x};
    }
  }

  /** `node_info.append(info)` for each displayed node, in iteration order. */
  method HoverTexts(data: seq<Record>, order: seq<string>) returns (info: seq<Hover>)
    ensures |info| == |order|
    ensures forall i :: 0 <= i < |order| ==> info[i] == HoverOf(data, order[i])
  {
    info := [];
    var k := 0;
    while k < |order|
      invariant 0 <= k <= |order|
      invariant |info| == k
      invariant forall i :: 0 <= i < k ==> info[i] == HoverOf(data, order[i])
    {
      info := info + [HoverOf(data, order[k])];
      k := k + 1;
    }
  }

  /** `node_colors.append(...)` for each displayed node, in the same iteration order. */
  method NodeColours(data: seq<Record>, order: seq<string>) returns (colours: seq<Colour>)
    ensures |colours| == |order|
    ensures forall i :: 0 <= i < |order| ==> colours[i] == ColourOf(data, order[i])
  {
    colours := [];
    var k := 0;
    while k < |order|
      invariant 0 <= k <= |order|
      invariant |colours| == k
      invariant forall i :: 0 <= i < k ==> colours[i] == ColourOf(data, order[i])
    {
      colours := colours + [ColourOf(data, order[k])];
      k := k + 1;
    }
  }

  /** What `update_graph` hands to the plotting library, positions left out. */
  datatype GraphView = GraphView(nodes: seq<string>, hover: seq<Hover>, colours: seq<Colour>, edges: set<(string, string)>)

  /** `update_graph`: the displayed nodes, one hover text and one colour for each, and the drawn edges. */
  method UpdateGraph(data: seq<Record>, sel: Selection) returns (view: GraphView)
    requires ChoiceInGraph(data, sel)
    ensures forall n :: n in view.nodes <==> n in GraphNodes(data, sel)
    ensures forall i, j :: 0 <= i < j < |view.nodes| ==> view.nodes[i] != view.nodes[j]
    ensures |view.hover| == |view.nodes| && |view.colours| == |view.nodes|
    ensures forall i :: 0 <= i < |view.nodes| ==>
      view.hover[i] == HoverOf(data, view.nodes[i]) && view.colours[i] == ColourOf(data, view.nodes[i])
    ensures forall e :: e in view.edges <==>
      e in Edges(data) && e.0 in GraphNodes(data, sel) && e.1 in GraphNodes(data, sel)
  {
    var shown := ResolveGraphNodes(data, sel);
    var order := Enumerate(shown);
    var info := HoverTexts(data, order);
    var drawn := VisibleEdges(data, shown);
    var colours := NodeColours(data, order);
    view := GraphView(order, info, colours, drawn);
  }

  /** `update_kpi`: the KPI ratio over the KPI node set, a share between 0 and 1 on non-negative hours. */
  method UpdateKpi(data: seq<Record>, sel: Selection) returns (kpi: real)
    requires ChoiceInGraph(data, sel)
    ensures kpi == Kpi(data, KpiNodes(data, sel))
    ensures NonNegative(data) ==> 0.0 <= kpi <= 1.0
  {
    var nodes := ResolveKpiNodes(data, sel);
    var recs := Keep(data, PersonAmong(nodes));
    var prod := Sum(Keep(recs, ProductiveOnly));
    var total := Sum(recs);
    kpi := if total != 0.0 then 1.0 - prod / total else 0.0;
    if NonNegative(data) {
      KpiWithinUnit(data, nodes);
    }
  }

  /** When a person's rows agree, the clan and consejo their hover shows are the ones the clan/consejo filter tests. */
  lemma HoverShowsFilteredOrg(data: seq<Record>, p: string)
    requires OrgConsistent(data, p) && p in Persons(data)
    ensures HoverOf(data, p).clan == OrgMap(data, Clan)[p]
    ensures HoverOf(data, p).consejo == OrgMap(data, Consejo)[p]
  {
    MapAgreesWithFirstRow(data, p, Clan);
    MapAgreesWithFirstRow(data, p, Consejo);
  }
}
