/** The person/project graph and the person-to-clan and person-to-consejo maps (app.py, lines 11-17). */
module Graph {
  import opened Records

  /** The graph's nodes: every PERSONA value and every PROYECTO value. */
  function Nodes(data: seq<Record>): (ns: set<string>)
    ensures forall r :: r in data ==> r.person in ns && r.project in ns
    ensures forall n :: n in ns ==> n in Persons(data) || n in Projects(data)
  {
    Persons(data) + Projects(data)
  }

  /** `a` and `b` are joined by an edge: some row pairs them, in either direction. */
  ghost predicate Adjacent(data: seq<Record>, a: string, b: string)
  {
    exists r :: r in data && ((r.person == a && r.project == b) || (r.project == a && r.person == b))
  }

  /** `G.neighbors(n)`: the projects `n` logged hours on and the persons who logged hours on `n`. */
  function Neighbors(data: seq<Record>, n: string): (ns: set<string>)
    ensures forall m :: m in ns <==> Adjacent(data, n, m)
  {
    (set r | r in data && r.person == n :: r.project) + (set r | r in data && r.project == n :: r.person)
  }

  /** The graph is undirected. */
  lemma NeighborsSymmetric(data: seq<Record>, a: string, b: string)
    ensures b in Neighbors(data, a) <==> a in Neighbors(data, b)
  {
  }

  /** Neighbours are themselves nodes of the graph. */
  lemma NeighborsAreNodes(data: seq<Record>, n: string)
    ensures Neighbors(data, n) <= Nodes(data)
  {
  }

  /** `G.edges()`, each edge as the (person, project) pair of a row that created it. */
  function Edges(data: seq<Record>): (es: set<(string, string)>)
    ensures forall e :: e in es ==> e.0 in Nodes(data) && e.1 in Nodes(data) && Adjacent(data, e.0, e.1)
    ensures forall r :: r in data ==> (r.person, r.project) in es
  {
    set r | r in data :: (r.person, r.project)
  }

  /**
   * With person and project names disjoint, no undirected edge is listed twice: the reversed
   * pair of an edge is never an edge.
   */
  lemma EdgesListedOnce(data: seq<Record>, e: (string, string))
    requires Persons(data) !! Projects(data) && e in Edges(data)
    ensures (e.1, e.0) !in Edges(data)
  {
    var r :| r in data && (r.person, r.project) == e;
    assert e.0 in Persons(data);
  }

  /** The two organisational columns that map a person to a unit. */
  datatype OrgField = Clan | Consejo

  function Tag(r: Record, f: OrgField): string
  {
    match f
    case Clan => r.clan
    case Consejo => r.consejo
  }

  /** Row `i` is the last row of person `p`. */
  ghost predicate LastRowOf(data: seq<Record>, p: string, i: int)
  {
    0 <= i < |data| && data[i].person == p && forall j :: i < j < |data| ==> data[j].person != p
  }

  /** Row `i` is the first row of person `p`. */
  ghost predicate FirstRowOf(data: seq<Record>, p: string, i: int)
  {
    0 <= i < |data| && data[i].person == p && forall j :: 0 <= j < i ==> data[j].person != p
  }

  /**
   * `clan_mapping` / `consejo_mapping`: a dict comprehension over the rows in order,
   * so a later row overwrites an earlier one.
   */
  function OrgMap(data: seq<Record>, f: OrgField): (m: map<string, string>)
    ensures m.Keys == Persons(data)
  {
    if data == [] then map[]
    else
      var init := data[..|data| - 1];
      var last := data[|data| - 1];
      assert data == init + [last];
      assert Persons(data) == Persons(init) + {last.person};
      OrgMap(init, f)[last.person := Tag(last, f)]
  }

  /** A person's entry in the map is the value on their LAST row. */
  lemma {:induction false} OrgMapIsLastRow(data: seq<Record>, p: string, f: OrgField)
    requires p in Persons(data)
    ensures exists i :: LastRowOf(data, p, i) && Tag(data[i], f) == OrgMap(data, f)[p]
  {
    var n := |data|;
    var init := data[..n - 1];
    var last := data[n - 1];
    assert data == init + [last];
    if last.person == p {
      assert LastRowOf(data, p, n - 1);
    } else {
      assert p in Persons(init) by {
        var r :| r in data && r.person == p;
        assert r != last;
        assert r in init;
      }
      OrgMapIsLastRow(init, p, f);
      var i :| LastRowOf(init, p, i) && Tag(init[i], f) == OrgMap(init, f)[p];
      assert LastRowOf(data, p, i);
    }
  }

  /** A person has one last row. */
  lemma LastRowUnique(data: seq<Record>, p: string, i: int, j: int)
    requires LastRowOf(data, p, i) && LastRowOf(data, p, j)
    ensures i == j
  {
  }

  /** `data[data['PERSONA'] == p][column].iloc[0]`: the value on the person's FIRST row. */
  function FirstTag(data: seq<Record>, p: string, f: OrgField): (t: string)
    requires p in Persons(data)
  {
    if data[0].person == p then Tag(data[0], f)
    else
      assert p in Persons(data[1..]) by {
        var r :| r in data && r.person == p;
        assert r != data[0];
      }
      FirstTag(data[1..], p, f)
  }

  /** The hover value is read from the person's first row. */
  lemma {:induction false} FirstTagIsFirstRow(data: seq<Record>, p: string, f: OrgField)
    requires p in Persons(data)
    ensures exists i :: FirstRowOf(data, p, i) && Tag(data[i], f) == FirstTag(data, p, f)
  {
    if data[0].person == p {
      assert FirstRowOf(data, p, 0);
    } else {
      assert p in Persons(data[1..]) by {
        var r :| r in data && r.person == p;
        assert r != data[0];
      }
      FirstTagIsFirstRow(data[1..], p, f);
      var k :| FirstRowOf(data[1..], p, k) && Tag(data[1..][k], f) == FirstTag(data[1..], p, f);
      assert data[k + 1] == data[1..][k];
      forall j | 0 <= j < k + 1 ensures data[j].person != p {
        if j > 0 { assert data[j] == data[1..][j - 1]; }
      }
      assert FirstRowOf(data, p, k + 1);
    }
  }

  /** The data-integrity rule for one person: every row of `p` carries the same clan and the same consejo. */
  predicate OrgConsistent(data: seq<Record>, p: string)
  {
    forall i, j :: 0 <= i < |data| && 0 <= j < |data| && data[i].person == p && data[j].person == p ==>
      data[i].clan == data[j].clan && data[i].consejo == data[j].consejo
  }

  /** When a person's rows agree, the last-row map (filters) and the first row (hover text) agree for them. */
  lemma MapAgreesWithFirstRow(data: seq<Record>, p: string, f: OrgField)
    requires OrgConsistent(data, p)
    requires p in Persons(data)
    ensures p in OrgMap(data, f) && OrgMap(data, f)[p] == FirstTag(data, p, f)
  {
    OrgMapIsLastRow(data, p, f);
    FirstTagIsFirstRow(data, p, f);
    var i :| LastRowOf(data, p, i) && Tag(data[i], f) == OrgMap(data, f)[p];
    var k :| FirstRowOf(data, p, k) && Tag(data[k], f) == FirstTag(data, p, f);
    assert data[i].clan == data[k].clan && data[i].consejo == data[k].consejo;
  }
}
