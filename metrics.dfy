/**
 * Per-person classification and ratios (`update_graph`, app.py lines 139-144 and 166-185) and the
 * aggregate KPI ratio (`update_kpi`, app.py lines 353-360).
 */
module Metrics {
  import opened Records

  /** The marker colours of the graph. */
  datatype Colour = Black | Red | Yellow | Green | LightGrey

  /** The colour of a displayed node: persons by productive share of their hours, projects light grey. */
  function ColourOf(data: seq<Record>, n: string): Colour
  {
    if n in Persons(data) then
      var total := TotalHours(data, n);
      var prod := ProductiveHours(data, n);
      if total == 0.0 then Black
      else if prod < 0.8 * total then Red
      else if prod < 0.9 * total then Yellow
      else Green
    else LightGrey
  }

  /** Share of a person's hours NOT spent on productive projects (the unrounded ratio). */
  function Inefficiency(data: seq<Record>, p: string): real
    requires TotalHours(data, p) != 0.0
  {
    1.0 - ProductiveHours(data, p) / TotalHours(data, p)
  }

  /**
   * `round(x, 2)` on the exact value: the nearest multiple of 0.01, a tie going to the even
   * hundredth, as Python rounds.
   */
  function Round2(x: real): (y: real)
    ensures (y * 100.0).Floor as real == y * 100.0
    ensures -0.005 <= y - x <= 0.005
    ensures x * 100.0 - (x * 100.0).Floor as real == 0.5 ==> (y * 100.0).Floor % 2 == 0
  {
    var h := x * 100.0;
    var f := h.Floor;
    var d := h - f as real;
    var n := if d > 0.5 then f + 1 else if d < 0.5 then f else if f % 2 == 0 then f else f + 1;
    n as real / 100.0
  }

  /** Rounding a share gives a share. */
  lemma Round2WithinUnit(x: real)
    requires 0.0 <= x <= 1.0
    ensures 0.0 <= Round2(x) <= 1.0
  {
    var h := x * 100.0;
    var f := h.Floor;
    assert 0 <= f <= 100;
    if f == 100 {
      assert h == 100.0;
    }
  }

  /**
   * The IO figure of the hover text: `1 - (round(ratio, 2) if total else 0)`. The conditional sits
   * inside the parentheses, so a person without hours gets 1, not 0.
   */
  function HoverIO(data: seq<Record>, p: string): real
  {
    var total := TotalHours(data, p);
    1.0 - (if total != 0.0 then Round2(ProductiveHours(data, p) / total) else 0.0)
  }

  /** The KPI: the share of non-productive hours among the rows whose person is in `nodes`, 0 without hours. */
  function Kpi(data: seq<Record>, nodes: set<string>): real
  {
    var recs := Keep(data, PersonAmong(nodes));
    var total := Sum(recs);
    if total != 0.0 then 1.0 - Sum(Keep(recs, ProductiveOnly)) / total else 0.0
  }

  /** Comparing a share against `k` times the total is comparing the ratio against `k`. */
  lemma RatioBelow(prod: real, total: real, k: real)
    requires total > 0.0
    ensures prod < k * total <==> prod / total < k
  {
    assert prod == (prod / total) * total;
  }

  /** `1 - q/t` as one fraction, the step from the KPI formula to the idle share. */
  lemma OneMinusRatio(q: real, t: real)
    requires t != 0.0
    ensures 1.0 - q / t == (t - q) / t
  {
    assert t / t == 1.0;
    assert (t - q) / t == t / t - q / t;
  }

  /**
   * On non-negative hours the person colours follow the legend: red above 20% inefficiency,
   * yellow from 10% to 20%, green up to 10%, black when no hours were logged.
   */
  lemma ColourFollowsLegend(data: seq<Record>, p: string)
    requires NonNegative(data) && p in Persons(data) && TotalHours(data, p) != 0.0
    ensures ColourOf(data, p) == Red <==> Inefficiency(data, p) > 0.2
    ensures ColourOf(data, p) == Yellow <==> 0.1 < Inefficiency(data, p) <= 0.2
    ensures ColourOf(data, p) == Green <==> Inefficiency(data, p) <= 0.1
    ensures -0.005 <= HoverIO(data, p) - Inefficiency(data, p) <= 0.005
  {
    var total := TotalHours(data, p);
    var prod := ProductiveHours(data, p);
    ProductiveWithinTotal(data, p);
    RatioBelow(prod, total, 0.8);
    RatioBelow(prod, total, 0.9);
  }

  /** A person without hours is coloured black and shows an IO of 1. */
  lemma UnallocatedPerson(data: seq<Record>, p: string)
    requires p in Persons(data) && TotalHours(data, p) == 0.0
    ensures ColourOf(data, p) == Black && HoverIO(data, p) == 1.0
  {
  }

  /**
   * The `.get(node, 0)` default of `hours_sum_prod`: a person whose rows are all on excluded
   * projects has no productive hours, so with any hours at all they are red with an IO of 1.
   */
  lemma OnlyExcludedHours(data: seq<Record>, p: string)
    requires NonNegative(data) && p in Persons(data)
    requires forall r :: r in data && r.person == p ==> r.project in Excluded
    ensures ProductiveHours(data, p) == 0.0
    ensures TotalHours(data, p) != 0.0 ==> ColourOf(data, p) == Red && HoverIO(data, p) == 1.0
  {
    NoRowsNoHours(Keep(data, ProductiveOnly), PersonIn([p]));
    ProductiveWithinTotal(data, p);
  }

  /** The IO is a share: between 0 and 1 on non-negative hours. */
  lemma HoverIOWithinUnit(data: seq<Record>, p: string)
    requires NonNegative(data)
    ensures 0.0 <= HoverIO(data, p) <= 1.0
  {
    var total := TotalHours(data, p);
    var prod := ProductiveHours(data, p);
    ProductiveWithinTotal(data, p);
    if total != 0.0 {
      RatioBelow(prod, total, 0.0);
      assert prod / total <= 1.0 by {
        assert prod == (prod / total) * total;
      }
      Round2WithinUnit(prod / total);
    }
  }

  /**
   * The KPI is 0 without hours; otherwise it is the idle share of the counted hours,
   * and lies between 0 and 1 on non-negative hours.
   */
  lemma KpiIsIdleShare(data: seq<Record>, nodes: set<string>)
    ensures var recs := Keep(data, PersonAmong(nodes));
      && (Sum(recs) == 0.0 ==> Kpi(data, nodes) == 0.0)
      && (Sum(recs) != 0.0 ==> Kpi(data, nodes) == Sum(Keep(recs, ExcludedOnly)) / Sum(recs))
  {
    var recs := Keep(data, PersonAmong(nodes));
    ExclusionSplitsSum(recs);
    if Sum(recs) != 0.0 {
      var t, q := Sum(recs), Sum(Keep(recs, ProductiveOnly));
      OneMinusRatio(q, t);
    }
  }

  lemma KpiWithinUnit(data: seq<Record>, nodes: set<string>)
    requires NonNegative(data)
    ensures 0.0 <= Kpi(data, nodes) <= 1.0
  {
    var recs := Keep(data, PersonAmong(nodes));
    KeepNonNegative(data, PersonAmong(nodes));
    KpiIsIdleShare(data, nodes);
    KeepWithinSum(recs, ExcludedOnly);
    var t, e := Sum(recs), Sum(Keep(recs, ExcludedOnly));
    if t != 0.0 {
      assert e / t <= 1.0 by {
        assert e == (e / t) * t;
      }
      assert 0.0 <= e / t by {
        assert e == (e / t) * t;
      }
    }
  }
}
