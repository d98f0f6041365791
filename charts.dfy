/**
 * The three bar-chart callbacks: `update_versatile_people`, `update_idle_people` and
 * `update_project_production` (app.py lines 230-321).
 */
module Charts {
  import opened Records
  import opened Filter

  /** The masks a chart callback applies, in the order it applies them. */
  function Criteria(sel: Selection, idle: bool): seq<Criterion>
  {
    [if idle then ExcludedOnly else ProductiveOnly]
    + (if sel.persons != [] then [PersonIn(sel.persons)] else [])
    + (if sel.projects != [] then [ProjectIn(sel.projects)] else [])
    + (if sel.clans != [] then [ClanIn(sel.clans)] else [])
    + (if sel.consejos != [] then [ConsejoIn(sel.consejos)] else [])
  }

  /** The masks applied one after the other, as the callbacks reassign `filtered_data`. */
  function Chain(recs: seq<Record>, cs: seq<Criterion>): seq<Record>
    decreases |cs|
  {
    if cs == [] then recs else Chain(Keep(recs, cs[0]), cs[1..])
  }

  predicate HoldsAll(cs: seq<Criterion>, r: Record)
  {
    forall i :: 0 <= i < |cs| ==> Holds(cs[i], r)
  }

  /** One pass over the rows keeping those that satisfy every mask at once. */
  function Select(recs: seq<Record>, cs: seq<Criterion>): (out: seq<Record>)
    ensures forall r :: r in out <==> r in recs && HoldsAll(cs, r)
    ensures forall r :: multiset(out)[r] == if HoldsAll(cs, r) then multiset(recs)[r] else 0
  {
    if recs == [] then []
    else
      assert recs == [recs[0]] + recs[1..];
      (if HoldsAll(cs, recs[0]) then [recs[0]] else []) + Select(recs[1..], cs)
  }

  /** The rows a chart is drawn from. */
  function ChartRows(data: seq<Record>, sel: Selection, idle: bool): seq<Record>
  {
    Chain(data, Criteria(sel, idle))
  }

  lemma {:induction false} SelectAfterKeep(recs: seq<Record>, c: Criterion, cs: seq<Criterion>)
    ensures Select(Keep(recs, c), cs) == Select(recs, [c] + cs)
  {
    if recs != [] {
      SelectAfterKeep(recs[1..], c, cs);
      HoldsAllConcat([c], cs, recs[0]);
      HoldsAllSingle(c, recs[0]);
      if Holds(c, recs[0]) {
        assert Keep(recs, c)[1..] == Keep(recs[1..], c);
      }
    }
  }

  /** Successive masks keep exactly the rows that satisfy all of them, in the original order. */
  lemma {:induction false} ChainIsSelect(recs: seq<Record>, cs: seq<Criterion>)
    ensures Chain(recs, cs) == Select(recs, cs)
    decreases |cs|
  {
    if cs == [] {
      SelectAll(recs);
    } else {
      ChainIsSelect(Keep(recs, cs[0]), cs[1..]);
      SelectAfterKeep(recs, cs[0], cs[1..]);
      assert [cs[0]] + cs[1..] == cs;
    }
  }

  lemma {:induction false} SelectAll(recs: seq<Record>)
    ensures Select(recs, []) == recs
  {
    if recs != [] {
      SelectAll(recs[1..]);
    }
  }

  /** A chain of masks split in two holds exactly when both halves hold. */
  lemma HoldsAllConcat(a: seq<Criterion>, b: seq<Criterion>, r: Record)
    ensures HoldsAll(a + b, r) <==> HoldsAll(a, r) && HoldsAll(b, r)
  {
    if HoldsAll(a, r) && HoldsAll(b, r) {
      forall i | 0 <= i < |a + b| ensures Holds((a + b)[i], r) {
        if i >= |a| { assert (a + b)[i] == b[i - |a|]; }
      }
    }
    if HoldsAll(a + b, r) {
      forall i | 0 <= i < |a| ensures Holds(a[i], r) {
        assert (a + b)[i] == a[i];
      }
      forall i | 0 <= i < |b| ensures Holds(b[i], r) {
        assert (a + b)[|a| + i] == b[i];
      }
    }
  }

  /** The record-level conjunction: a row is charted exactly when it passes every non-empty dropdown. */
  lemma ChartRowCondition(sel: Selection, idle: bool, r: Record)
    ensures HoldsAll(Criteria(sel, idle), r) <==>
      && (idle <==> r.project in Excluded)
      && (sel.persons == [] || r.person in sel.persons)
      && (sel.projects == [] || r.project in sel.projects)
      && (sel.clans == [] || r.clan in sel.clans)
      && (sel.consejos == [] || r.consejo in sel.consejos)
  {
    var c0: seq<Criterion> := [if idle then ExcludedOnly else ProductiveOnly];
    var c1: seq<Criterion> := if sel.persons != [] then [PersonIn(sel.persons)] else [];
    var c2: seq<Criterion> := if sel.projects != [] then [ProjectIn(sel.projects)] else [];
    var c3: seq<Criterion> := if sel.clans != [] then [ClanIn(sel.clans)] else [];
    var c4: seq<Criterion> := if sel.consejos != [] then [ConsejoIn(sel.consejos)] else [];
    assert Criteria(sel, idle) == c0 + c1 + c2 + c3 + c4;
    HoldsAllConcat(c0 + c1 + c2 + c3, c4, r);
    HoldsAllConcat(c0 + c1 + c2, c3, r);
    HoldsAllConcat(c0 + c1, c2, r);
    HoldsAllConcat(c0, c1, r);
    HoldsAllSingle(if idle then ExcludedOnly else ProductiveOnly, r);
    if sel.persons != [] { HoldsAllSingle(PersonIn(sel.persons), r); }
    if sel.projects != [] { HoldsAllSingle(ProjectIn(sel.projects), r); }
    if sel.clans != [] { HoldsAllSingle(ClanIn(sel.clans), r); }
    if sel.consejos != [] { HoldsAllSingle(ConsejoIn(sel.consejos), r); }
  }

  /** A one-mask chain holds exactly when that mask holds. */
  lemma HoldsAllSingle(c: Criterion, r: Record)
    ensures HoldsAll([c], r) <==> Holds(c, r)
  {
    assert [c][0] == c;
  }

  /** A bar of a chart: its x name and its y value. */
  datatype Bar = Bar(name: string, value: real)

  function Labels(s: seq<Bar>): set<string>
  {
    set b | b in s :: b.name
  }

  predicate DistinctLabels(s: seq<Bar>)
  {
    forall i, j :: 0 <= i < j < |s| ==> s[i].name != s[j].name
  }

  /** `a` may come before `b` in a `sort_values` result. */
  predicate Before(a: Bar, b: Bar, descending: bool)
  {
    if descending then a.value >= b.value else a.value <= b.value
  }

  predicate Ordered(s: seq<Bar>, descending: bool)
  {
    forall i, j :: 0 <= i < j < |s| ==> Before(s[i], s[j], descending)
  }

  function Insert(b: Bar, s: seq<Bar>, descending: bool): (r: seq<Bar>)
    requires Ordered(s, descending)
    ensures Ordered(r, descending)
    ensures |r| == |s| + 1
    ensures forall x :: x in r <==> x == b || x in s
    ensures multiset(r) == multiset(s) + multiset{b}
  {
    if s == [] then [b]
    else if Before(b, s[0], descending) then [b] + s
    else
      var rest := Insert(b, s[1..], descending);
      assert s == [s[0]] + s[1..];
      assert forall x :: x in s <==> x == s[0] || x in s[1..];
      assert forall j :: 0 <= j < |rest| ==> Before(s[0], rest[j], descending) by {
        forall j | 0 <= j < |rest| ensures Before(s[0], rest[j], descending) {
          assert rest[j] in rest;
        }
      }
      [s[0]] + rest
  }

  /** Inserting a bar with a new name keeps the names distinct. */
  lemma {:induction false} InsertKeepsDistinct(b: Bar, s: seq<Bar>, descending: bool)
    requires Ordered(s, descending) && DistinctLabels(s) && b.name !in Labels(s)
    ensures DistinctLabels(Insert(b, s, descending))
  {
    var r := Insert(b, s, descending);
    if s == [] {
    } else if Before(b, s[0], descending) {
      assert forall j :: 0 <= j < |s| ==> s[j] in s;
    } else {
      var rest := Insert(b, s[1..], descending);
      assert s[0] in s;
      assert forall j :: 1 <= j < |s| ==> s[j] in s[1..] by {
        forall j | 1 <= j < |s| ensures s[j] in s[1..] { assert s[j] == s[1..][j - 1]; }
      }
      assert Labels(s[1..]) <= Labels(s);
      InsertKeepsDistinct(b, s[1..], descending);
      forall j | 0 <= j < |rest| ensures s[0].name != rest[j].name {
        assert rest[j] in rest;
        if rest[j] != b {
          var k :| 0 <= k < |s[1..]| && s[1..][k] == rest[j];
          assert s[k + 1] == rest[j];
        }
      }
    }
  }

  /** Sequences with the same bars have the same names. */
  lemma SameElementsSameLabels(r: seq<Bar>, s: seq<Bar>)
    requires forall x :: x in r <==> x in s
    ensures Labels(r) == Labels(s)
  {
  }

  /** `sort_values`: an ordered arrangement of the same bars; the order among equal values is not fixed. */
  function Sort(s: seq<Bar>, descending: bool): (r: seq<Bar>)
    ensures Ordered(r, descending)
    ensures |r| == |s|
    ensures forall x :: x in r <==> x in s
    ensures multiset(r) == multiset(s)
  {
    if s == [] then []
    else
      assert forall x :: x in s <==> x == s[0] || x in s[1..];
      assert s == [s[0]] + s[1..];
      Insert(s[0], Sort(s[1..], descending), descending)
  }

  /** Sorting bars with distinct names keeps them distinct. */
  lemma {:induction false} SortKeepsDistinct(s: seq<Bar>, descending: bool)
    requires DistinctLabels(s)
    ensures DistinctLabels(Sort(s, descending))
  {
    if s != [] {
      var tail := s[1..];
      assert DistinctLabels(tail) by {
        forall i, j | 0 <= i < j < |tail| ensures tail[i].name != tail[j].name {
          assert tail[i] == s[i + 1] && tail[j] == s[j + 1];
        }
      }
      SortKeepsDistinct(tail, descending);
      var sorted := Sort(tail, descending);
      SameElementsSameLabels(sorted, tail);
      assert s[0].name !in Labels(tail) by {
        forall x | x in tail ensures x.name != s[0].name {
          var k :| 0 <= k < |tail| && tail[k] == x;
          assert s[k + 1] == x;
        }
      }
      InsertKeepsDistinct(s[0], sorted, descending);
    }
  }

  /** What a chart groups by and what it computes per group. */
  datatype GroupBy =
    | ProjectsPerPerson   // groupby('PERSONA')['PROYECTO'].nunique()
    | HoursPerPerson      // groupby('PERSONA')['HORAS'].sum()
    | HoursPerProject     // groupby('PROYECTO')['HORAS'].sum()

  function Key(r: Record, g: GroupBy): string
  {
    if g == HoursPerProject then r.project else r.person
  }

  /** The distinct projects of person `p` among `recs`. */
  function ProjectsOf(recs: seq<Record>, p: string): set<string>
  {
    set r | r in recs && r.person == p :: r.project
  }

  function Aggregate(g: GroupBy, recs: seq<Record>, k: string): real
  {
    match g
    case ProjectsPerPerson => |ProjectsOf(recs, k)| as real
    case HoursPerPerson => Sum(Keep(recs, PersonIn([k])))
    case HoursPerProject => Sum(Keep(recs, ProjectIn([k])))
  }

  /** The group keys present in `recs`, each once. */
  function GroupKeys(recs: seq<Record>, g: GroupBy): (ks: seq<string>)
    ensures forall i, j :: 0 <= i < j < |ks| ==> ks[i] != ks[j]
    ensures forall k :: k in ks <==> exists r :: r in recs && Key(r, g) == k
  {
    if recs == [] then []
    else
      var rest := GroupKeys(recs[1..], g);
      assert forall r :: r in recs <==> r == recs[0] || r in recs[1..];
      if Key(recs[0], g) in rest then rest else [Key(recs[0], g)] + rest
  }

  /** One bar per key, valued by the group aggregate. */
  function Bars(ks: seq<string>, recs: seq<Record>, g: GroupBy): (s: seq<Bar>)
    ensures |s| == |ks|
    ensures forall i :: 0 <= i < |s| ==> s[i] == Bar(ks[i], Aggregate(g, recs, ks[i]))
  {
    if ks == [] then [] else [Bar(ks[0], Aggregate(g, recs, ks[0]))] + Bars(ks[1..], recs, g)
  }

  /** A grouped, sorted series. */
  function Series(recs: seq<Record>, g: GroupBy, descending: bool): (s: seq<Bar>)
    ensures Ordered(s, descending) && DistinctLabels(s)
    ensures forall k :: k in Labels(s) <==> exists r :: r in recs && Key(r, g) == k
    ensures forall b :: b in s ==> b.value == Aggregate(g, recs, b.name)
  {
    var ks := GroupKeys(recs, g);
    var bars := Bars(ks, recs, g);
    assert Labels(bars) == set k | k in ks by {
      forall k | k in ks ensures k in Labels(bars) {
        var i :| 0 <= i < |ks| && ks[i] == k;
        assert bars[i] in bars;
      }
    }
    SortKeepsDistinct(bars, descending);
    SameElementsSameLabels(Sort(bars, descending), bars);
    Sort(bars, descending)
  }

  /** `total_hours[total_hours > 0]`: the bars with a positive value, order kept. */
  function Positive(s: seq<Bar>): (r: seq<Bar>)
    ensures forall b :: b in r <==> b in s && b.value > 0.0
  {
    if s == [] then []
    else
      assert forall b :: b in s <==> b == s[0] || b in s[1..];
      if s[0].value > 0.0 then [s[0]] + Positive(s[1..]) else Positive(s[1..])
  }

  /** In an ordered series with distinct names, the head precedes every later bar and differs in name. */
  lemma HeadBeforeTail(s: seq<Bar>, descending: bool, x: Bar)
    requires Ordered(s, descending) && DistinctLabels(s) && s != [] && x in s[1..]
    ensures Before(s[0], x, descending) && s[0].name != x.name
  {
    var k :| 0 <= k < |s[1..]| && s[1..][k] == x;
    assert s[k + 1] == x;
  }

  lemma TailOrdered(s: seq<Bar>, descending: bool)
    requires Ordered(s, descending) && DistinctLabels(s) && s != []
    ensures Ordered(s[1..], descending) && DistinctLabels(s[1..])
  {
    var t := s[1..];
    forall i, j | 0 <= i < j < |t| ensures Before(t[i], t[j], descending) && t[i].name != t[j].name {
      assert t[i] == s[i + 1] && t[j] == s[j + 1];
    }
  }

  /** Dropping bars keeps the series ordered and its names distinct. */
  lemma {:induction false} PositiveKeepsOrder(s: seq<Bar>, descending: bool)
    requires Ordered(s, descending) && DistinctLabels(s)
    ensures Ordered(Positive(s), descending) && DistinctLabels(Positive(s))
  {
    if s != [] {
      TailOrdered(s, descending);
      PositiveKeepsOrder(s[1..], descending);
      var rest := Positive(s[1..]);
      if s[0].value > 0.0 {
        forall j | 0 <= j < |rest| ensures Before(s[0], rest[j], descending) && s[0].name != rest[j].name {
          assert rest[j] in rest;
          HeadBeforeTail(s, descending, rest[j]);
        }
        assert Positive(s) == [s[0]] + rest;
      }
    }
  }

  /** Versatility: distinct productive projects per person among the charted rows, most versatile first. */
  function Versatility(data: seq<Record>, sel: Selection): (s: seq<Bar>)
    ensures Ordered(s, true) && DistinctLabels(s)
    ensures forall p :: p in Labels(s) <==> exists r :: r in ChartRows(data, sel, false) && r.person == p
    ensures forall b :: b in s ==> b.value == |ProjectsOf(ChartRows(data, sel, false), b.name)| as real
  {
    Series(ChartRows(data, sel, false), ProjectsPerPerson, true)
  }

  /** Idle people: hours on excluded projects per person among the charted rows, least first. */
  function IdlePeople(data: seq<Record>, sel: Selection): (s: seq<Bar>)
    ensures Ordered(s, false) && DistinctLabels(s)
    ensures forall p :: p in Labels(s) <==> exists r :: r in ChartRows(data, sel, true) && r.person == p
    ensures forall b :: b in s ==> b.value == Sum(Keep(ChartRows(data, sel, true), PersonIn([b.name])))
  {
    Series(ChartRows(data, sel, true), HoursPerPerson, false)
  }

  /** Project production: productive hours per project among the charted rows, least first, zeros dropped. */
  function Production(data: seq<Record>, sel: Selection): (s: seq<Bar>)
    ensures Ordered(s, false) && DistinctLabels(s)
    ensures forall b :: b in s ==> b.value > 0.0 && b.value == Sum(Keep(ChartRows(data, sel, false), ProjectIn([b.name])))
    ensures forall j :: j in Labels(s) <==>
      (exists r :: r in ChartRows(data, sel, false) && r.project == j)
      && Sum(Keep(ChartRows(data, sel, false), ProjectIn([j]))) > 0.0
  {
    var all := Series(ChartRows(data, sel, false), HoursPerProject, false);
    var s := Positive(all);
    PositiveKeepsOrder(all, false);
    assert forall j :: j in Labels(s) <==> j in Labels(all) && Aggregate(HoursPerProject, ChartRows(data, sel, false), j) > 0.0 by {
      forall j | j in Labels(all) && Aggregate(HoursPerProject, ChartRows(data, sel, false), j) > 0.0 ensures j in Labels(s) {
        var b :| b in all && b.name == j;
        assert b in s;
      }
    }
    s
  }

  /** With no dropdown set, the idle chart shows each person's idle hours as the graph's metrics define them. */
  lemma IdleChartMatchesIdleHours(data: seq<Record>, b: Bar)
    requires b in IdlePeople(data, Selection([], [], [], []))
    ensures b.value == IdleHours(data, b.name)
  {
    var sel := Selection([], [], [], []);
    assert Criteria(sel, true) == [ExcludedOnly];
    assert ChartRows(data, sel, true) == Chain(Keep(data, ExcludedOnly), []);
  }

  /** The charted rows are exactly the rows passing every non-empty dropdown, in data order. */
  lemma ChartRowsAreConjunction(data: seq<Record>, sel: Selection, idle: bool, r: Record)
    ensures ChartRows(data, sel, idle) == Select(data, Criteria(sel, idle))
    ensures r in ChartRows(data, sel, idle) <==>
      && r in data
      && (idle <==> r.project in Excluded)
      && (sel.persons == [] || r.person in sel.persons)
      && (sel.projects == [] || r.project in sel.projects)
      && (sel.clans == [] || r.clan in sel.clans)
      && (sel.consejos == [] || r.consejo in sel.consejos)
  {
    ChainIsSelect(data, Criteria(sel, idle));
    ChartRowCondition(sel, idle, r);
  }
}
