# Anti-I.O. dashboard: a verified model of its filtering and metrics core

The dashboard (`app.py`) reads a time sheet of rows (PERSONA, PROYECTO, CLAN, CONSEJO, HORAS),
builds a person/project graph from it, and redraws a graph, three bar charts and a KPI card
whenever one of four dropdowns (persons, projects, clans, consejos) changes. Hours on seven
hard-coded projects (training, business management, risk prevention, internal meetings,
justified absence, "Concilia Days", holidays) count as non-productive: "I.O." (operational
inefficiency) is the share of a person's hours spent there.

This project models the computation inside those callbacks, and proves what it guarantees:

- `records.dfy` (module `Records`): the row datatype, the excluded-project set, pandas boolean
  masks as `Keep`, hour sums, and the per-person total, productive and idle hours.
- `graph.dfy` (module `Graph`): graph nodes, neighbours, edges, and the clan/consejo maps.
  The maps are dict comprehensions, so a person's last row wins. The hover text reads the
  person's first row instead.
- `filter.dfy` (module `Filter`): which nodes `update_graph` displays and which nodes
  `update_kpi` counts. Both are written as loops that copy a set and add neighbours, like the
  source. Each is proved equal to a specification function, and lemmas characterise those
  functions. The edge filter is here too.
- `metrics.dfy` (module `Metrics`): the node colour bands, the hover IO figure and the KPI ratio.
- `charts.dfy` (module `Charts`): the chained record filters of the three chart callbacks,
  the group-by aggregates, `sort_values` as an insertion sort, and the dropping of zero totals.
- `dashboard.dfy` (module `Dashboard`): the hover and colour lists, built by appending inside
  loops over the displayed set, and the `update_graph` and `update_kpi` callbacks as methods.
- `scenarios.dfy` (module `Scenarios`): worked examples on a three-row sheet.

Hours are Dafny `real`s, so sums and the 0.8 / 0.9 comparisons are exact. A loaded sheet has
non-negative hours (`NonNegative`); lemmas that need it say so.

## Model

| member | source | states |
|---|---|---|
| Records.Keep | app.py:81-82 | a pandas mask keeps exactly the rows satisfying the criterion, never more rows than it was given |
| Records.KeepCounts | app.py:81-82 | a mask keeps every copy of a matching row and no copy of any other, so repeated rows all count towards the sums |
| Records.KeepWithinSum | app.py:81-82 | on non-negative hours the hours of a masked subset lie between 0 and the hours of the whole |
| Records.KeepCommutes | app.py:81-82 | applying two masks in either order yields the same rows |
| Records.ExclusionSplitsSum | app.py:81-82 | productive hours plus hours on excluded projects equal all hours |
| Records.HoursSplit | app.py:78-82 | a person's productive hours plus idle hours equal the person's total hours |
| Records.ProductiveWithinTotal | app.py:78-82 | on non-negative hours a person's productive and idle hours each lie between 0 and the total |
| Records.TotalHours | app.py:78 | `hours_sum[p]`, the sum of p's HORAS; HoursSplit and ProductiveWithinTotal relate it to the productive and idle hours |
| Records.ProductiveHours | app.py:81-82 | `hours_sum_prod.get(p, 0)`, p's hours outside the excluded projects; 0 when p has none (Metrics.OnlyExcludedHours) |
| Records.IdleHours | app.py:265-280 | p's hours on excluded projects, the value of the idle chart (Charts.IdleChartMatchesIdleHours) |
| Graph.Nodes | app.py:17 | the nodes are exactly the PERSONA and PROYECTO values |
| Graph.Neighbors | app.py:93 | `m` is a neighbour of `n` exactly when some row pairs them, in either direction |
| Graph.NeighborsSymmetric | app.py:17 | the graph is undirected |
| Graph.NeighborsAreNodes | app.py:17 | neighbours are graph nodes |
| Graph.Edges | app.py:153 | every row's (person, project) pair is an edge, and every edge joins two adjacent graph nodes |
| Graph.EdgesListedOnce | app.py:153 | with disjoint person and project names the reversed pair of an edge is never an edge, so each undirected edge appears once |
| Graph.OrgMap | app.py:12-14 | the clan and consejo maps have exactly the persons as keys |
| Graph.OrgMapIsLastRow | app.py:12-14 | a person's map entry is the value on that person's last row |
| Graph.LastRowUnique | app.py:12-14 | a person has exactly one last row, so the map entry is determined |
| Graph.FirstTag | app.py:140-141 | the `.iloc[0]` lookup of a person's clan or consejo; FirstTagIsFirstRow states which row it reads |
| Graph.FirstTagIsFirstRow | app.py:140-141 | the hover clan/consejo is the value on the person's first row |
| Graph.MapAgreesWithFirstRow | app.py:140-141 | when every row of a person has the same clan and consejo, the last-row map and the first row agree for that person |
| Filter.OrgMatch | app.py:97-102 | the clan/consejo phase keeps a subset of the displayed nodes, all of them persons |
| Filter.OrgMatchCharacterised | app.py:97-102 | a node passes the clan/consejo test exactly when it was displayed and the clan or consejo on its last row is chosen; a node that is never a person never passes |
| Filter.BaseNodes | app.py:84-94 | the node set after the person/project phase: all nodes, or the chosen names plus their neighbours (ChosenShowsOneHop) |
| Filter.GraphNodes | app.py:84-106 | the node set `update_graph` draws, characterised by NothingChosenShowsAll, ChosenShowsOneHop and OrgShowsMatchesAndNeighbours |
| Filter.KpiNodes | app.py:332-351 | the node set `update_kpi` counts, characterised by KpiIgnoresChoiceWithoutOrg and KpiPersonsMatchGraphPersons |
| Filter.ExpandOneHop | app.py:91-94 | the copy-and-update loop yields the chosen set plus the neighbours of its members |
| Filter.ExpandIsOneHop | app.py:89-94 | a node is in the expansion exactly when it is chosen or adjacent to a chosen node |
| Filter.ResolveGraphNodes | app.py:84-106 | `update_graph` displays the base expansion, then the clan/consejo matches plus their neighbours |
| Filter.ResolveKpiNodes | app.py:332-351 | `update_kpi` counts all nodes when no clan or consejo is chosen, else the matches with no re-expansion |
| Filter.VisibleEdges | app.py:153-154 | an edge is drawn exactly when both endpoints are displayed |
| Filter.NothingChosenShowsAll | app.py:84-87 | with no dropdown set, every node is displayed |
| Filter.ChosenShowsOneHop | app.py:89-94 | with persons/projects chosen and no clan/consejo, the display is exactly the chosen names and their direct neighbours |
| Filter.OrgShowsMatchesAndNeighbours | app.py:96-106 | with a clan or consejo chosen, the display is exactly the matching persons and their neighbours |
| Filter.OrgProjectsViaMatchedPerson | app.py:96-106 | with a clan or consejo chosen and disjoint person and project names, a project is displayed exactly when it is adjacent to a matching person |
| Filter.ChosenEdgesDrawn | app.py:153-154 | without a clan/consejo choice, every edge touching a chosen name is drawn |
| Filter.ExpandWithinNodes | app.py:91-94 | expanding graph nodes stays inside the graph |
| Filter.GraphNodesWithinGraph | app.py:84-106 | both the displayed set and the KPI set are sets of graph nodes |
| Filter.KpiIgnoresChoiceWithoutOrg | app.py:343-344 | with no clan or consejo, the KPI counts every node whatever persons/projects are chosen |
| Filter.KpiPersonsMatchGraphPersons | app.py:346-351 | with a clan or consejo chosen and disjoint names, the KPI set is exactly the persons the graph displays |
| Filter.PersonsAreNotNeighbours | app.py:17 | with disjoint names no two persons are adjacent |
| Metrics.ColourOf | app.py:168-185 | the colour of a displayed node; ColourFollowsLegend and UnallocatedPerson state its bands |
| Metrics.Round2 | app.py:144 | `round(x, 2)` is a whole number of hundredths within 0.005 of x, a tie going to the even hundredth |
| Metrics.Round2WithinUnit | app.py:144 | rounding a share to two decimals gives a share |
| Metrics.HoverIO | app.py:144 | the IO of a person's hover, 1 minus the rounded productive ratio; UnallocatedPerson, HoverIOWithinUnit and ColourFollowsLegend state its value at zero hours, its range and its distance from the unrounded inefficiency |
| Metrics.Kpi | app.py:353-360 | the KPI ratio over a node set; KpiIsIdleShare and KpiWithinUnit state its meaning and range |
| Metrics.ColourFollowsLegend | app.py:196-200 | on non-negative hours red means inefficiency above 20%, yellow 10% to 20%, green at most 10%; the hover IO is within 0.005 of that inefficiency |
| Metrics.UnallocatedPerson | app.py:144 | a person with no hours is black and shows an IO of 1 |
| Metrics.OnlyExcludedHours | app.py:142-144 | a person whose rows are all on excluded projects gets the `.get(node, 0)` default of 0 productive hours, so with any hours they are red and show an IO of 1 |
| Metrics.HoverIOWithinUnit | app.py:144 | the hover IO lies between 0 and 1 on non-negative hours |
| Metrics.KpiIsIdleShare | app.py:354-360 | the KPI is 0 without hours, otherwise the excluded-project share of the counted hours |
| Metrics.KpiWithinUnit | app.py:360 | the KPI lies between 0 and 1 on non-negative hours |
| Charts.Chain | app.py:232-245 | the masks applied one after another; ChainIsSelect relates it to a single pass |
| Charts.ChartRows | app.py:232-245 | the rows a chart is drawn from; ChartRowsAreConjunction characterises them |
| Charts.Select | app.py:232-245 | the one-pass filter keeps exactly the rows satisfying every mask, each as many times as it occurs in the data |
| Charts.ChainIsSelect | app.py:232-245 | masks applied one after another equal one pass with their conjunction |
| Charts.ChartRowCondition | app.py:232-245 | a row passes a chart's masks exactly when it is on the right side of the excluded list and matches every non-empty dropdown |
| Charts.ChartRowsAreConjunction | app.py:232-310 | the charted rows are the data rows passing every non-empty dropdown, in data order |
| Charts.Insert | app.py:248 | inserting into an ordered series keeps it ordered, and the result is the series plus that one bar, as a multiset |
| Charts.Sort | app.py:280 | sorting yields an ordered permutation of the bars |
| Charts.GroupKeys | app.py:247 | the group keys are the distinct key values present in the rows |
| Charts.Bars | app.py:312-313 | one bar per key, valued by the group aggregate |
| Charts.Series | app.py:247-248 | a grouped series is ordered, has one bar per present key, and each bar carries its group's aggregate |
| Charts.Positive | app.py:315 | the filter keeps exactly the bars with a positive value |
| Charts.PositiveKeepsOrder | app.py:315 | dropping bars keeps the series ordered and its names distinct |
| Charts.Versatility | app.py:232-248 | versatility has one bar per charted person, valued by that person's distinct productive projects, in descending order |
| Charts.IdlePeople | app.py:265-280 | the idle chart has one bar per charted person, valued by their excluded-project hours, in ascending order |
| Charts.Production | app.py:297-315 | production has one bar per charted project with positive productive hours, valued by those hours, in ascending order |
| Charts.IdleChartMatchesIdleHours | app.py:265-280 | with no dropdown set, each idle bar equals the person's idle hours |
| Dashboard.HoverOf | app.py:139-147 | persons get a person hover with productive hours, IO, and the clan and consejo of their first row; every other node gets a project hover |
| Dashboard.Enumerate | app.py:137 | iterating the displayed set visits each member exactly once |
| Dashboard.HoverTexts | app.py:136-148 | the hover list has one entry per displayed node, in iteration order |
| Dashboard.NodeColours | app.py:166-185 | the colour list has one colour per displayed node, in iteration order |
| Dashboard.UpdateGraph | app.py:84-187 | the graph view lists each displayed node once, with its hover and colour, and exactly the edges between displayed nodes |
| Dashboard.UpdateKpi | app.py:331-360 | the KPI is the ratio over the KPI node set and lies between 0 and 1 on non-negative hours |
| Dashboard.HoverShowsFilteredOrg | app.py:140-141 | when a person's rows agree on clan and consejo, their hover shows the clan and consejo that the filter tests |
| Scenarios.SheetNeighbours | app.py:17 | on the example sheet P1 neighbours A and B, P2 neighbours A only |
| Scenarios.ChoosingOnePerson | app.py:89-94 | choosing P1 displays {P1, A, B}, though P2 is a neighbour of the displayed A |
| Scenarios.ChosenPersonHours | app.py:78-82 | P1 has 15 hours, all productive, and is green |
| Scenarios.ExcludedProjectCounts | app.py:81-82 | with 5 of 15 hours on "Vacaciones", P1 has 10 productive hours, inefficiency 1/3, and is red |
| Scenarios.SheetMatch | app.py:97-102 | choosing clan Z matches P2 only |
| Scenarios.ChoosingOneClan | app.py:96-106 | choosing clan Z displays {P2, A}, while the KPI counts only {P2} |
| Scenarios.RedNodeShowsTwentyPercent | app.py:144-179 | 7951 productive hours of 10000 is an inefficiency of 20.49%, red, while the hover IO is 0.2 in exact arithmetic (Python's floats print 19.999999999999996%) |

## Left out

- Dash app construction, layout, dropdown widgets, callback decorators and `run_server`
  (app.py:20-75, 369-370): user-interface and server plumbing.
- CSV loading with pandas (app.py:9): the rows are an input sequence. Lemmas that need
  non-negative hours take `NonNegative` as a precondition.
- `nx.spring_layout` and the node and edge coordinates (app.py:18, 155-163): a floating-point
  force layout inside networkx. `GraphView` carries no positions.
- Plotly traces and figures, hover-text HTML formatting, the legend annotation, and the
  `'{:.2f}'` formatting of the KPI (app.py:109-134, 145, 187-219, 250-253, 282-285, 317-320,
  363-366): rendering only. `Hover` keeps the values a hover shows, not its text.
- Metrics.Round2: rounds the exact real ratio to the nearest hundredth, ties to even. Python's
  `round` works on the binary float, so a ratio whose float lies just below a tie can round
  the other way. The `*100` for display (app.py:145) is formatting and is not modelled.
- Floating-point arithmetic: hours, sums, the ratios and `1 - round(...)` are exact reals, so
  results can differ from pandas and Python in the last bits (the hover IO of
  `RedNodeShowsTwentyPercent` is 0.2 here, where Python gives 0.19999999999999996).
- Tie order of `sort_values`: `Sort` only promises an ordered permutation of the bars.
- Graph.Edges: edges are (person, project) pairs. When a name is both a person and a project,
  rows (X, Y) and (Y, X) give two pairs where networkx has one undirected edge, so such an edge
  is listed twice. `EdgesListedOnce` shows this cannot happen when the names are disjoint.
- Edge weights: `from_pandas_edgelist` keeps the HORAS of the last row for a repeated pair,
  and no computation reads the weight, so edges carry no weight.
- Missing values (NaN) in any column, which pandas group-bys drop: the rows are total.
- The `selected_clans is None` and `selected_consejos is None` guards (app.py:348-350):
  dropdown values are lists here, starting at `[]`, so those guards never fire.
- A chosen person or project that is not a graph node: `G.neighbors` raises for it. Dropdown
  options come from the data columns (app.py:31-32, 38-39), so the resolution methods require
  `ChoiceInGraph`.
- Python's set iteration order: `Enumerate` fixes one arbitrary order of the displayed set.
  The hover and colour lists both use it, since the source iterates the same unchanged set.
- An absolute-hours classification with per-person threshold overrides is not part of
  `app.py`, so it is not modelled.

## Notes on behaviour

These are places where the code does something other than the obvious reading. The model
follows the code in each case:

- The hover IO of a person with zero hours is 1, not 0, because the conditional sits inside
  the parentheses of `1-(... if total_hours else 0)`.
- A clan or consejo choice narrows the display even when no person or project is chosen. So
  "nothing chosen shows every node" holds only when all four dropdowns are empty.
- The KPI node set is reset to all nodes whenever no clan or consejo is chosen, even if
  persons or projects are chosen. With a clan or consejo chosen it is not re-expanded with
  neighbours. So the KPI population is not the graph's display.
- A chosen name outside the graph makes `G.neighbors` raise. It is not silently ignored.
- Repeated (person, project) rows do not sum into the edge weight. The last row's hours are kept.
- The legend says green is "< 10%", but the code colours exactly 10% inefficiency green.
- The hover rounds the productive ratio to two decimals, but the colour compares the exact
  ratio. So a red node can show an IO of 20% in exact arithmetic (`RedNodeShowsTwentyPercent`);
  in Python's floats that hover reads 19.999999999999996%. The same happens at the other band edges.
