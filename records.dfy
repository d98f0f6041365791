/** Time-allocation records and the sums taken over them (app.py, lines 9-14 and 78-82). */
module Records {

  /** One row of the time sheet: PERSONA, PROYECTO, CLAN, CONSEJO, HORAS. */
  datatype Record = Record(person: string, project: string, clan: string, consejo: string, hours: real)

  /** The seven hard-coded project names whose hours are not productive. */
  const Excluded: set<string> := {
    "Educación - Formac.", "Gestión del Negocio", "Prev Riesgos Lab",
    "Reunión interna", "Ausencia Justificada", "Concilia Days", "Vacaciones"
  }

  /** Hours are never negative in a loaded time sheet. */
  predicate NonNegative(recs: seq<Record>)
  {
    forall i :: 0 <= i < |recs| ==> recs[i].hours >= 0.0
  }

  /** Everyone who appears in the PERSONA column. */
  function Persons(data: seq<Record>): set<string>
  {
    set r | r in data :: r.person
  }

  /** Everything that appears in the PROYECTO column. */
  function Projects(data: seq<Record>): set<string>
  {
    set r | r in data :: r.project
  }

  /** A row-level test, one per pandas boolean mask the dashboard applies. */
  datatype Criterion =
    | PersonIn(persons: seq<string>)     // data['PERSONA'].isin(list)
    | ProjectIn(projects: seq<string>)   // data['PROYECTO'].isin(list)
    | ClanIn(clans: seq<string>)         // data['CLAN'].isin(list)
    | ConsejoIn(consejos: seq<string>)   // data['CONSEJO'].isin(list)
    | PersonAmong(nodes: set<string>)    // data['PERSONA'].isin(set)
    | ExcludedOnly                       // data['PROYECTO'].isin(excluded)
    | ProductiveOnly                     // ~data['PROYECTO'].isin(excluded)

  predicate Holds(c: Criterion, r: Record)
  {
    match c
    case PersonIn(ps) => r.person in ps
    case ProjectIn(js) => r.project in js
    case ClanIn(cs) => r.clan in cs
    case ConsejoIn(cs) => r.consejo in cs
    case PersonAmong(ns) => r.person in ns
    case ExcludedOnly => r.project in Excluded
    case ProductiveOnly => r.project !in Excluded
  }

  /** The rows satisfying `c`, in their original order (a pandas boolean-mask selection). */
  function Keep(recs: seq<Record>, c: Criterion): (out: seq<Record>)
    ensures |out| <= |recs|
    ensures forall r :: r in out <==> r in recs && Holds(c, r)
  {
    if recs == [] then []
    else if Holds(c, recs[0]) then [recs[0]] + Keep(recs[1..], c)
    else Keep(recs[1..], c)
  }

  /** A mask keeps every copy of a matching row and no copy of any other: duplicates are not merged. */
  lemma {:induction false} KeepCounts(recs: seq<Record>, c: Criterion, r: Record)
    ensures multiset(Keep(recs, c))[r] == if Holds(c, r) then multiset(recs)[r] else 0
  {
    if recs != [] {
      assert recs == [recs[0]] + recs[1..];
      KeepCounts(recs[1..], c, r);
    }
  }

  /** Sum of the HORAS column. */
  function Sum(recs: seq<Record>): real
  {
    if recs == [] then 0.0 else recs[0].hours + Sum(recs[1..])
  }

  /** `hours_sum.get(p, 0)`: all hours of `p`. */
  function TotalHours(data: seq<Record>, p: string): real
  {
    Sum(Keep(data, PersonIn([p])))
  }

  /** `hours_sum_prod.get(p, 0)`: hours of `p` on projects outside the excluded list. */
  function ProductiveHours(data: seq<Record>, p: string): real
  {
    Sum(Keep(Keep(data, ProductiveOnly), PersonIn([p])))
  }

  /** Hours of `p` on excluded projects. */
  function IdleHours(data: seq<Record>, p: string): real
  {
    Sum(Keep(Keep(data, ExcludedOnly), PersonIn([p])))
  }

  lemma {:induction false} SumNonNegative(recs: seq<Record>)
    requires NonNegative(recs)
    ensures Sum(recs) >= 0.0
  {
    if recs != [] {
      SumNonNegative(recs[1..]);
    }
  }

  lemma {:induction false} KeepNonNegative(recs: seq<Record>, c: Criterion)
    requires NonNegative(recs)
    ensures NonNegative(Keep(recs, c))
  {
    var out := Keep(recs, c);
    forall i | 0 <= i < |out| ensures out[i].hours >= 0.0 {
      assert out[i] in out;
      var j :| 0 <= j < |recs| && recs[j] == out[i];
    }
  }

  /** Selecting a subset of non-negative rows never increases the total. */
  lemma {:induction false} KeepWithinSum(recs: seq<Record>, c: Criterion)
    requires NonNegative(recs)
    ensures 0.0 <= Sum(Keep(recs, c)) <= Sum(recs)
  {
    if recs == [] {
    } else {
      KeepWithinSum(recs[1..], c);
      assert recs[0].hours >= 0.0;
      if Holds(c, recs[0]) {
        assert Keep(recs, c)[1..] == Keep(recs[1..], c);
      }
    }
  }

  /** Two masks applied one after the other give the same rows in either order. */
  lemma {:induction false} KeepCommutes(recs: seq<Record>, c: Criterion, d: Criterion)
    ensures Keep(Keep(recs, c), d) == Keep(Keep(recs, d), c)
  {
    if recs != [] {
      KeepCommutes(recs[1..], c, d);
      if Holds(c, recs[0]) {
        assert Keep(recs, c)[1..] == Keep(recs[1..], c);
      }
      if Holds(d, recs[0]) {
        assert Keep(recs, d)[1..] == Keep(recs[1..], d);
      }
    }
  }

  /** Every row is either on an excluded project or on a productive one, never both. */
  lemma {:induction false} ExclusionSplitsSum(recs: seq<Record>)
    ensures Sum(Keep(recs, ProductiveOnly)) + Sum(Keep(recs, ExcludedOnly)) == Sum(recs)
  {
    if recs != [] {
      ExclusionSplitsSum(recs[1..]);
      if Holds(ProductiveOnly, recs[0]) {
        assert Keep(recs, ProductiveOnly)[1..] == Keep(recs[1..], ProductiveOnly);
      } else {
        assert Keep(recs, ExcludedOnly)[1..] == Keep(recs[1..], ExcludedOnly);
      }
    }
  }

  /** A person's hours are their productive hours plus their idle hours. */
  lemma HoursSplit(data: seq<Record>, p: string)
    ensures ProductiveHours(data, p) + IdleHours(data, p) == TotalHours(data, p)
  {
    KeepCommutes(data, ProductiveOnly, PersonIn([p]));
    KeepCommutes(data, ExcludedOnly, PersonIn([p]));
    ExclusionSplitsSum(Keep(data, PersonIn([p])));
  }

  /** Productive hours are a share of the total: they sum a subset of the same rows. */
  lemma ProductiveWithinTotal(data: seq<Record>, p: string)
    requires NonNegative(data)
    ensures 0.0 <= ProductiveHours(data, p) <= TotalHours(data, p)
    ensures 0.0 <= IdleHours(data, p) <= TotalHours(data, p)
  {
    HoursSplit(data, p);
    KeepNonNegative(data, ProductiveOnly);
    KeepNonNegative(data, ExcludedOnly);
    KeepWithinSum(Keep(data, ProductiveOnly), PersonIn([p]));
    KeepWithinSum(Keep(data, ExcludedOnly), PersonIn([p]));
  }

  lemma {:induction false} NoRowsNoHours(recs: seq<Record>, c: Criterion)
    requires forall r :: r in recs ==> !Holds(c, r)
    ensures Keep(recs, c) == [] && Sum(Keep(recs, c)) == 0.0
  {
    if recs != [] {
      assert recs[0] in recs;
      NoRowsNoHours(recs[1..], c);
    }
  }
}
