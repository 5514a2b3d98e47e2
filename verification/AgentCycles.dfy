/** When cloning closes a cycle in an organization that already has agents, exactly. */
module AgentCycles {
  import opened Options
  import opened AgentTree
  import opened AgentClone
  import opened AgentForest
  import AgentService

  // ---------------------------------------------------------------- a walk on the table before the run

  /** Where the walk stands: at a row of the table, or at a chosen agent that has no match. */
  datatype Spot = Old(row: AgentId) | New(agent: AgentId)

  function SpotFor(m: map<AgentId, AgentId>, s: AgentId): Spot {
    if s in m then Old(m[s]) else New(s)
  }

  /** The last of the planned agents that stand at the spot and keep a parent: namesakes stand
      at one spot, and the last edge written is the one that stays. */
  function LastKeeping(t: Table, chosen: set<AgentId>, m: map<AgentId, AgentId>, spot: Spot, planned: seq<AgentId>): (r: Option<AgentId>)
    requires forall s | s in planned :: s in t
    ensures r.Some? ==> r.value in planned && SpotFor(m, r.value) == spot && KeptParent(t, chosen, r.value).Some?
  {
    if planned == [] then None
    else
      var n := |planned| - 1;
      if SpotFor(m, planned[n]) == spot && KeptParent(t, chosen, planned[n]).Some? then Some(planned[n])
      else LastKeeping(t, chosen, m, spot, planned[..n])
  }

  /** One step up: along the kept parent of the last agent there, else along the parent the row has now. */
  function Onward(t: Table, dest: OrgId, planned: seq<AgentId>, m: map<AgentId, AgentId>, spot: Spot): Option<Spot>
    requires forall s | s in planned :: s in t
  {
    var s := LastKeeping(t, Elements(planned), m, spot, planned);
    if s.Some? then Some(SpotFor(m, KeptParent(t, Elements(planned), s.value).value))
    else if spot.Old? && Up(Graph(t), dest, spot.row).Some? then Some(Old(Up(Graph(t), dest, spot.row).value))
    else None
  }

  function Walk(t: Table, dest: OrgId, planned: seq<AgentId>, m: map<AgentId, AgentId>, spot: Spot, k: nat): Option<Spot>
    requires forall s | s in planned :: s in t
  {
    if k == 0 then Some(spot)
    else if Walk(t, dest, planned, m, spot, k - 1).None? then None
    else Onward(t, dest, planned, m, Walk(t, dest, planned, m, spot, k - 1).value)
  }

  /** Following kept parents where an agent stands that keeps one, and old parents elsewhere,
      never returns. */
  ghost predicate NoReturn(t: Table, dest: OrgId, planned: seq<AgentId>, m: map<AgentId, AgentId>)
    requires forall s | s in planned :: s in t
  {
    forall spot: Spot, k: nat | k > 0 :: Walk(t, dest, planned, m, spot, k) != Some(spot)
  }

  // ---------------------------------------------------------------- it is the hierarchy after the run

  /** The spots that stand for a row afterwards, and that row. */
  predicate Proper(t: Table, m: map<AgentId, AgentId>, m': map<AgentId, AgentId>, spot: Spot) {
    if spot.Old? then spot.row in t else spot.agent in m' && spot.agent !in m
  }

  function RowOf(m': map<AgentId, AgentId>, spot: Spot): AgentId {
    if spot.Old? then spot.row else if spot.agent in m' then m'[spot.agent] else 0
  }

  /** What links the walk before the run to the hierarchy after it. */
  ghost predicate Follows(t: Table, after: Table, dest: OrgId, planned: seq<AgentId>, m: map<AgentId, AgentId>, m': map<AgentId, AgentId>)
    requires forall s | s in planned :: s in t
  {
    && (forall spot | !Proper(t, m, m', spot) :: Onward(t, dest, planned, m, spot).None?)
    && (forall spot | Proper(t, m, m', spot) :: IsUp(t, after, dest, planned, m, m', spot))
    && (forall a, b | Proper(t, m, m', a) && Proper(t, m, m', b) && RowOf(m', a) == RowOf(m', b) :: a == b)
    && (forall x | x in after :: exists spot :: Proper(t, m, m', spot) && RowOf(m', spot) == x)
  }

  ghost predicate IsUp(t: Table, after: Table, dest: OrgId, planned: seq<AgentId>, m: map<AgentId, AgentId>, m': map<AgentId, AgentId>,
                       spot: Spot)
    requires forall s | s in planned :: s in t
  {
    var next, up := Onward(t, dest, planned, m, spot), Up(Graph(after), dest, RowOf(m', spot));
    if next.None? then up.None? else Proper(t, m, m', next.value) && up == Some(RowOf(m', next.value))
  }

  lemma {:induction false} WalkIsAncestry(t: Table, after: Table, dest: OrgId, planned: seq<AgentId>, m: map<AgentId, AgentId>,
                                          m': map<AgentId, AgentId>, spot: Spot, k: nat)
    requires (forall s | s in planned :: s in t) && Follows(t, after, dest, planned, m, m') && Proper(t, m, m', spot)
    ensures var there, up := Walk(t, dest, planned, m, spot, k), Ancestor(Graph(after), dest, RowOf(m', spot), k);
            if there.None? then up.None? else Proper(t, m, m', there.value) && up == Some(RowOf(m', there.value))
  {
    if k > 0 {
      WalkIsAncestry(t, after, dest, planned, m, m', spot, k - 1);
      var before := Walk(t, dest, planned, m, spot, k - 1);
      assert before.Some? ==> IsUp(t, after, dest, planned, m, m', before.value);
    }
  }

  /** Away from the spots that stand for rows the walk does not get going. */
  lemma {:induction false} WalkStops(t: Table, after: Table, dest: OrgId, planned: seq<AgentId>, m: map<AgentId, AgentId>,
                                     m': map<AgentId, AgentId>, spot: Spot, k: nat)
    requires (forall s | s in planned :: s in t) && Follows(t, after, dest, planned, m, m') && !Proper(t, m, m', spot) && k > 0
    ensures Walk(t, dest, planned, m, spot, k).None?
  {
    if k > 1 {
      WalkStops(t, after, dest, planned, m, m', spot, k - 1);
    } else {
      assert Walk(t, dest, planned, m, spot, 0) == Some(spot);
    }
  }

  lemma NoReturnIsAcyclic(t: Table, after: Table, dest: OrgId, planned: seq<AgentId>, m: map<AgentId, AgentId>, m': map<AgentId, AgentId>)
    requires (forall s | s in planned :: s in t) && Follows(t, after, dest, planned, m, m')
    ensures Acyclic(Graph(after), dest) <==> NoReturn(t, dest, planned, m)
  {
    if Acyclic(Graph(after), dest) {
      forall spot: Spot, k: nat | k > 0 ensures Walk(t, dest, planned, m, spot, k) != Some(spot) {
        if Proper(t, m, m', spot) {
          WalkIsAncestry(t, after, dest, planned, m, m', spot, k);
        } else {
          WalkStops(t, after, dest, planned, m, m', spot, k);
        }
      }
    }
    if NoReturn(t, dest, planned, m) {
      forall x: AgentId, k: nat | k > 0 ensures Ancestor(Graph(after), dest, x, k) != Some(x) {
        NoReturnAt(t, after, dest, planned, m, m', x, k);
      }
    }
  }

  lemma NoReturnAt(t: Table, after: Table, dest: OrgId, planned: seq<AgentId>, m: map<AgentId, AgentId>, m': map<AgentId, AgentId>,
                   x: AgentId, k: nat)
    requires (forall s | s in planned :: s in t) && Follows(t, after, dest, planned, m, m') && NoReturn(t, dest, planned, m) && k > 0
    ensures Ancestor(Graph(after), dest, x, k) != Some(x)
  {
    if x in after {
      var spot :| Proper(t, m, m', spot) && RowOf(m', spot) == x;
      WalkIsAncestry(t, after, dest, planned, m, m', spot, k);
      assert Walk(t, dest, planned, m, spot, k) != Some(spot);
    } else if Ancestor(Graph(after), dest, x, k).Some? {
      AncestorsBefore(Graph(after), dest, x, 0, k);
    }
  }

  // ---------------------------------------------------------------- what a run leaves

  /** The chosen agents at a spot are those whose row it stands for. */
  ghost predicate StandsFor(m: map<AgentId, AgentId>, m': map<AgentId, AgentId>, spot: Spot) {
    forall s | s in m' :: m'[s] == RowOf(m', spot) <==> SpotFor(m, s) == spot
  }

  lemma EdgeHere(t: Table, mid: Table, m: map<AgentId, AgentId>, m': map<AgentId, AgentId>, spot: Spot, s: AgentId)
    requires s in t && s in mid && mid[s] == t[s] && s in m' && StandsFor(m, m', spot)
    ensures var e, kept := EdgeOf(mid, m', s), KeptParent(t, m'.Keys, s);
            && (e.Some? <==> kept.Some?)
            && (e.Some? ==> e.value == Edge(m'[s], m'[kept.value]) && (e.value.id == RowOf(m', spot) <==> SpotFor(m, s) == spot))
  {
  }

  lemma {:induction false} RowAfterEdges(t: Table, mid: Table, m: map<AgentId, AgentId>, m': map<AgentId, AgentId>, spot: Spot,
                                         planned: seq<AgentId>)
    requires (forall s | s in planned :: s in t && s in mid && mid[s] == t[s] && s in m') && StandsFor(m, m', spot)
    ensures var after, x := Applied(mid, Edges(mid, m', planned)), RowOf(m', spot);
            var s := LastKeeping(t, m'.Keys, m, spot, planned);
            && after.Keys == mid.Keys
            && (x in mid ==>
                  after[x] == if s.Some? then mid[x].(parent := Some(m'[KeptParent(t, m'.Keys, s.value).value])) else mid[x])
  {
    if planned != [] {
      var n := |planned| - 1;
      RowAfterEdges(t, mid, m, m', spot, planned[..n]);
      EdgeHere(t, mid, m, m', spot, planned[n]);
      AppliedStep(mid, Edges(mid, m', planned[..n]), EdgeOf(mid, m', planned[n]));
    }
  }

  /** The matches are live rows of the destination; the new ids are new and different. */
  ghost predicate WellMatched(t: Table, dest: OrgId, m: map<AgentId, AgentId>, m': map<AgentId, AgentId>) {
    && (forall s | s in m :: s in m' && m'[s] == m[s] && LiveIn(Graph(t), dest, m[s]))
    && (forall s | s in m' && s !in m :: m'[s] !in t)
    && NewIdsDiffer(m, m')
  }

  lemma ProperStandsFor(t: Table, dest: OrgId, m: map<AgentId, AgentId>, m': map<AgentId, AgentId>, spot: Spot)
    requires WellMatched(t, dest, m, m') && Proper(t, m, m', spot)
    ensures StandsFor(m, m', spot)
  {
  }

  lemma SpotForIsProper(t: Table, dest: OrgId, m: map<AgentId, AgentId>, m': map<AgentId, AgentId>, s: AgentId)
    requires WellMatched(t, dest, m, m') && s in m'
    ensures Proper(t, m, m', SpotFor(m, s)) && RowOf(m', SpotFor(m, s)) == m'[s]
  {
  }

  lemma SameRowSameUp(t: Table, after: Table, dest: OrgId, x: AgentId)
    requires Closed(Graph(t)) && x in t && x in after && after[x] == t[x]
    ensures Up(Graph(after), dest, x) == Up(Graph(t), dest, x)
    ensures Up(Graph(t), dest, x).Some? ==> Up(Graph(t), dest, x).value in t
  {
    assert x in Graph(t);
  }

  lemma OnwardWhereKept(t: Table, after: Table, dest: OrgId, planned: seq<AgentId>, m: map<AgentId, AgentId>, m': map<AgentId, AgentId>,
                        spot: Spot, s: AgentId)
    requires (forall s | s in planned :: s in t) && m'.Keys == Elements(planned) && WellMatched(t, dest, m, m')
    requires LastKeeping(t, Elements(planned), m, spot, planned) == Some(s)
    requires LiveIn(Graph(after), dest, RowOf(m', spot))
    requires after[RowOf(m', spot)].parent == Some(m'[KeptParent(t, Elements(planned), s).value])
    ensures IsUp(t, after, dest, planned, m, m', spot)
  {
    SpotForIsProper(t, dest, m, m', KeptParent(t, Elements(planned), s).value);
  }

  lemma OnwardAtOld(t: Table, mid: Table, after: Table, dest: OrgId, planned: seq<AgentId>, m: map<AgentId, AgentId>,
                    m': map<AgentId, AgentId>, spot: Spot)
    requires (forall s | s in planned :: s in t && s in mid && mid[s] == t[s]) && m'.Keys == Elements(planned)
    requires Closed(Graph(t)) && WellMatched(t, dest, m, m')
    requires after == Applied(mid, Edges(mid, m', planned)) && spot.Old? && spot.row in t && spot.row in mid && mid[spot.row] == t[spot.row]
    ensures IsUp(t, after, dest, planned, m, m', spot)
  {
    ProperStandsFor(t, dest, m, m', spot);
    RowAfterEdges(t, mid, m, m', spot, planned);
    var s := LastKeeping(t, m'.Keys, m, spot, planned);
    if s.Some? {
      MatchIsLive(t, dest, m, m', spot, s.value);
      OnwardWhereKept(t, after, dest, planned, m, m', spot, s.value);
    } else {
      SameRowSameUp(t, after, dest, spot.row);
    }
  }

  lemma MatchIsLive(t: Table, dest: OrgId, m: map<AgentId, AgentId>, m': map<AgentId, AgentId>, spot: Spot, s: AgentId)
    requires WellMatched(t, dest, m, m') && spot.Old? && SpotFor(m, s) == spot
    ensures spot.row in t && t[spot.row].live && t[spot.row].org == dest
  {
    assert s in m;
  }

  lemma OnwardAtNew(t: Table, mid: Table, after: Table, dest: OrgId, resetScope: bool, planned: seq<AgentId>, m: map<AgentId, AgentId>,
                    m': map<AgentId, AgentId>, spot: Spot)
    requires (forall s | s in planned :: s in t && s in mid) && m'.Keys == Elements(planned)
    requires Created(t, mid, dest, resetScope, m, m') && WellMatched(t, dest, m, m')
    requires after == Applied(mid, Edges(mid, m', planned)) && spot.New? && Proper(t, m, m', spot)
    ensures IsUp(t, after, dest, planned, m, m', spot)
  {
    ProperStandsFor(t, dest, m, m', spot);
    RowAfterEdges(t, mid, m, m', spot, planned);
    assert mid[m'[spot.agent]] == Copy(t[spot.agent], dest, resetScope);
    var s := LastKeeping(t, m'.Keys, m, spot, planned);
    if s.Some? {
      SpotForIsProper(t, dest, m, m', KeptParent(t, m'.Keys, s.value).value);
    }
  }

  lemma EveryRowHasASpot(t: Table, mid: Table, after: Table, m: map<AgentId, AgentId>, m': map<AgentId, AgentId>, x: AgentId)
    requires NothingElse(t, mid, m, m') && after.Keys == mid.Keys && x in after
    ensures exists spot :: Proper(t, m, m', spot) && RowOf(m', spot) == x
  {
    if x in t {
      assert Proper(t, m, m', Old(x)) && RowOf(m', Old(x)) == x;
    } else {
      var s :| s in m' && s !in m && m'[s] == x;
      assert Proper(t, m, m', New(s)) && RowOf(m', New(s)) == x;
    }
  }

  lemma ElsewhereStops(t: Table, dest: OrgId, planned: seq<AgentId>, m: map<AgentId, AgentId>, m': map<AgentId, AgentId>, spot: Spot)
    requires (forall s | s in planned :: s in t) && m'.Keys == Elements(planned) && WellMatched(t, dest, m, m') && !Proper(t, m, m', spot)
    ensures Onward(t, dest, planned, m, spot).None?
  {
    var s := LastKeeping(t, Elements(planned), m, spot, planned);
    if s.Some? {
      assert s.value in m';
      SpotForIsProper(t, dest, m, m', s.value);
    }
  }

  lemma RunFollows(t: Table, mid: Table, after: Table, dest: OrgId, resetScope: bool, planned: seq<AgentId>, m: map<AgentId, AgentId>,
                   m': map<AgentId, AgentId>)
    requires (forall s | s in planned :: s in t && s in mid) && m'.Keys == Elements(planned)
    requires Closed(Graph(t)) && Created(t, mid, dest, resetScope, m, m') && WellMatched(t, dest, m, m')
    requires after == Applied(mid, Edges(mid, m', planned))
    ensures Follows(t, after, dest, planned, m, m')
  {
    forall spot | !Proper(t, m, m', spot) ensures Onward(t, dest, planned, m, spot).None? {
      ElsewhereStops(t, dest, planned, m, m', spot);
    }
    forall spot | Proper(t, m, m', spot) ensures IsUp(t, after, dest, planned, m, m', spot) {
      if spot.Old? {
        OnwardAtOld(t, mid, after, dest, planned, m, m', spot);
      } else {
        OnwardAtNew(t, mid, after, dest, resetScope, planned, m, m', spot);
      }
    }
    SameKeys(mid, m', planned);
    forall x | x in after ensures exists spot :: Proper(t, m, m', spot) && RowOf(m', spot) == x {
      EveryRowHasASpot(t, mid, after, m, m', x);
    }
    forall a, b | Proper(t, m, m', a) && Proper(t, m, m', b) && RowOf(m', a) == RowOf(m', b) ensures a == b {
      SpotsDiffer(t, dest, m, m', a, b);
    }
  }

  lemma SpotsDiffer(t: Table, dest: OrgId, m: map<AgentId, AgentId>, m': map<AgentId, AgentId>, a: Spot, b: Spot)
    requires WellMatched(t, dest, m, m') && Proper(t, m, m', a) && Proper(t, m, m', b) && RowOf(m', a) == RowOf(m', b)
    ensures a == b
  {
  }

  lemma {:induction false} SameKeys(t: Table, m: map<AgentId, AgentId>, planned: seq<AgentId>)
    requires forall s | s in planned :: s in t
    ensures Applied(t, Edges(t, m, planned)).Keys == t.Keys
  {
    if planned != [] {
      var n := |planned| - 1;
      SameKeys(t, m, planned[..n]);
      AppliedStep(t, Edges(t, m, planned[..n]), EdgeOf(t, m, planned[n]));
    }
  }

  lemma MatchesFit(t: Table, mid: Table, dest: OrgId, f: Filter, planned: seq<AgentId>, existing: seq<AgentId>, m: map<AgentId, AgentId>,
                   m': map<AgentId, AgentId>)
    requires (forall s | s in planned :: s in t) && Listing(t, dest, existing) && MatchedByName(t, existing, planned, m)
    requires Created(t, mid, dest, f.resetScope, m, m')
    ensures WellMatched(t, dest, m, m')
  {
    MatchesAreInside(t, existing, planned, m);
  }

  /** A run leaves the destination acyclic exactly when, on the table as it was before the run,
      that walk never returns to where it started. */
  lemma CloneKeepsAcyclicExactly(t: Table, after: Table, sourceOrg: OrgId, dest: OrgId, f: Filter, source: seq<AgentId>, existing: seq<AgentId>,
                                 m: map<AgentId, AgentId>, m': map<AgentId, AgentId>)
    requires Listing(t, sourceOrg, source) && Listing(t, dest, existing) && Closed(Graph(t))
    requires Clones(t, after, dest, f, source, existing, m, m')
    ensures Acyclic(Graph(after), dest) <==> NoReturn(t, dest, Planned(t, f, source), m)
  {
    var planned := Planned(t, f, source);
    var mid :| ClonesBy(t, mid, after, dest, f, source, existing, m, m');
    MatchesFit(t, mid, dest, f, planned, existing, m, m');
    RunFollows(t, mid, after, dest, f.resetScope, planned, m, m');
    NoReturnIsAcyclic(t, after, dest, planned, m, m');
  }

  // ---------------------------------------------------------------- both ways a run closes one

  /** A worker called `name`; the filter chooses everybody. */
  function Called(org: OrgId, name: string, parent: Option<AgentId>): Row {
    Row(org, parent, true, name, Worker, None, None, true, [], "")
  }

  const EVERYBODY: Filter := Filter([], true, false, s => s)

  lemma {:induction false} EverybodySelected(t: Table, source: seq<AgentId>)
    requires forall x | x in source :: x in t && t[x].kind == Worker
    ensures SelectedOf(t, EVERYBODY, Worker, source) == source && SelectedOf(t, EVERYBODY, Orchestrator, source) == []
  {
    if source != [] {
      EverybodySelected(t, source[1..]);
      assert source == [source[0]] + source[1..];
    }
  }

  lemma EverybodyPlanned(t: Table, source: seq<AgentId>)
    requires forall x | x in source :: x in t && t[x].kind == Worker
    ensures Planned(t, EVERYBODY, source) == source
  {
    EverybodySelected(t, source);
  }

  ghost predicate Staffed(t: Table, source: seq<AgentId>, existing: seq<AgentId>) {
    (forall x | x in existing :: x in t) && forall x | x in source :: x in t && t[x].kind == Worker
  }

  lemma EverybodyCloned(t: Table, mid: Table, after: Table, source: seq<AgentId>, existing: seq<AgentId>, m: map<AgentId, AgentId>,
                        m': map<AgentId, AgentId>)
    requires Staffed(t, source, existing) && Staffed(mid, source, existing)
    requires MatchedByName(t, existing, source, m) && Created(t, mid, 1, false, m, m') && m'.Keys == Elements(source)
    requires after == Applied(mid, Edges(mid, m', source))
    ensures Clones(t, after, 1, EVERYBODY, source, existing, m, m')
  {
    EverybodyPlanned(t, source);
    assert ClonesBy(t, mid, after, 1, EVERYBODY, source, existing, m, m');
  }

  lemma AllNamed(t: Table, existing: seq<AgentId>, source: seq<AgentId>, m: map<AgentId, AgentId>)
    requires Staffed(t, source, existing) && m.Keys == Elements(source)
    requires forall i | 0 <= i < |source| :: LastNamed(t, existing, t[source[i]].name) == Some(m[source[i]])
    ensures MatchedByName(t, existing, source, m)
  {
  }

  /** Organization 0 has agent 1 and agent 2 under it. */
  function Pair(a: string, b: string): Table {
    map[1 := Called(0, a, None), 2 := Called(0, b, Some(1))]
  }

  /** With clones 11 and 12 of them in organization 1, under `p` and `q`. */
  function PairTwice(a: string, b: string, p: Option<AgentId>, q: Option<AgentId>): Table {
    Pair(a, b)[11 := Called(1, a, p)][12 := Called(1, b, q)]
  }

  function PairIds(): map<AgentId, AgentId> {
    map[1 := 11, 2 := 12]
  }

  lemma PairEdges(a: string, b: string, p: Option<AgentId>, q: Option<AgentId>)
    ensures var t := PairTwice(a, b, p, q); Edges(t, PairIds(), [1, 2]) == [Edge(12, 11)]
  {
    var t := PairTwice(a, b, p, q);
    assert [1, 2][..1] == [1] && [1][..0] == [];
    assert EdgeOf(t, PairIds(), 1) == None && EdgeOf(t, PairIds(), 2) == Some(Edge(12, 11));
    assert Edges(t, PairIds(), [1]) == [];
  }

  lemma PairApplied(a: string, b: string, p: Option<AgentId>, q: Option<AgentId>)
    ensures Applied(PairTwice(a, b, p, q), [Edge(12, 11)]) == PairTwice(a, b, p, Some(11))
  {
    var t := PairTwice(a, b, p, q);
    assert [Edge(12, 11)][..0] == [];
    assert Applied(t, []) == t;
  }

  lemma PairCreated(a: string, b: string)
    ensures Created(Pair(a, b), PairTwice(a, b, None, None), 1, false, map[], PairIds())
  {
    assert 1 in PairIds() && PairIds()[1] == 11;
    assert 2 in PairIds() && PairIds()[2] == 12;
  }

  lemma PairCloned(a: string, b: string)
    ensures Clones(Pair(a, b), PairTwice(a, b, None, Some(11)), 1, EVERYBODY, [1, 2], [], map[], PairIds())
  {
    PairCreated(a, b);
    PairEdges(a, b, None, None);
    PairApplied(a, b, None, None);
    EverybodyCloned(Pair(a, b), PairTwice(a, b, None, None), PairTwice(a, b, None, Some(11)), [1, 2], [], map[], PairIds());
  }

  lemma PairMatched(a: string, b: string, p: Option<AgentId>, q: Option<AgentId>)
    requires a != b
    ensures MatchedByName(PairTwice(a, b, p, q), [11, 12], [1, 2], PairIds())
  {
    var t := PairTwice(a, b, p, q);
    assert [11, 12][..1] == [11];
    assert LastNamed(t, [11, 12], b) == Some(12);
    assert LastNamed(t, [11, 12], a) == LastNamed(t, [11], a) == Some(11);
  }

  lemma NothingCreated(t: Table, m: map<AgentId, AgentId>)
    ensures Created(t, t, 1, false, m, m)
  {
  }

  lemma PairClonedAgain(a: string, b: string, p: Option<AgentId>, q: Option<AgentId>)
    requires a != b
    ensures Clones(PairTwice(a, b, p, q), PairTwice(a, b, p, Some(11)), 1, EVERYBODY, [1, 2], [11, 12], PairIds(), PairIds())
  {
    var t := PairTwice(a, b, p, q);
    NothingCreated(t, PairIds());
    PairEdges(a, b, p, q);
    PairApplied(a, b, p, q);
    PairMatched(a, b, p, q);
    EverybodyCloned(t, t, PairTwice(a, b, p, Some(11)), [1, 2], [11, 12], PairIds(), PairIds());
  }

  /** Between the two runs agent 12 becomes a root, and 11 is put under it. */
  function TurnAround(): seq<AgentService.Op> {
    [AgentService.Update(1, 12, AgentService.SetTo(None), false), AgentService.Update(1, 11, AgentService.SetTo(Some(12)), false)]
  }

  lemma RootReachesNobodyElse(agents: Agents, org: OrgId, x: AgentId, y: AgentId, n: nat)
    requires x != y && Up(agents, org, x).None?
    ensures !ReachesWithin(agents, org, x, y, n)
  {
    forall k: nat ensures Ancestor(agents, org, x, k) != Some(y) {
      if k > 0 && Ancestor(agents, org, x, k).Some? {
        AncestorsBefore(agents, org, x, 1, k);
      }
    }
  }

  lemma TurnedAround(a: string, b: string)
    ensures AgentService.Run(Graph(PairTwice(a, b, None, Some(11))), TurnAround()) == Graph(PairTwice(a, b, Some(12), None))
  {
    var first, second := TurnAround()[0], TurnAround()[1];
    var g := Graph(PairTwice(a, b, None, Some(11)));
    assert TurnAround()[1..] == [second] && [second][1..] == [];
    var g' := AgentService.Apply(g, first);
    assert g' == Graph(PairTwice(a, b, None, None));
    RootReachesNobodyElse(g', 1, 12, 11, MAX_STEPS);
    assert AgentService.Apply(g', second) == Graph(PairTwice(a, b, Some(12), None));
    assert AgentService.Run(g', [second]) == AgentService.Apply(g', second);
  }

  /** Ranks that fall along every parent rule out cycles. */
  lemma {:induction false} RanksFall(agents: Agents, org: OrgId, rank: AgentId -> nat, x: AgentId, k: nat)
    requires forall y: AgentId | Up(agents, org, y).Some? :: rank(Up(agents, org, y).value) < rank(y)
    ensures k > 0 && Ancestor(agents, org, x, k).Some? ==> rank(Ancestor(agents, org, x, k).value) < rank(x)
  {
    if k > 1 {
      RanksFall(agents, org, rank, x, k - 1);
    } else if k == 1 {
      assert Ancestor(agents, org, x, 0) == Some(x);
    }
  }

  lemma RankedIsAcyclic(agents: Agents, org: OrgId, rank: AgentId -> nat)
    requires forall y: AgentId | Up(agents, org, y).Some? :: rank(Up(agents, org, y).value) < rank(y)
    ensures Acyclic(agents, org)
  {
    forall x: AgentId, k: nat | k > 0 ensures Ancestor(agents, org, x, k) != Some(x) {
      RanksFall(agents, org, rank, x, k);
    }
  }

  lemma PairListing(a: string, b: string)
    ensures Listing(Pair(a, b), 0, [1, 2]) && Listing(Pair(a, b), 1, [])
  {
  }

  lemma PairTwiceListing(a: string, b: string, p: Option<AgentId>, q: Option<AgentId>)
    ensures Listing(PairTwice(a, b, p, q), 0, [1, 2]) && Listing(PairTwice(a, b, p, q), 1, [11, 12])
  {
  }

  lemma PairTwiceIsAcyclic(a: string, b: string)
    ensures Acyclic(Graph(PairTwice(a, b, None, Some(11))), 1) && Acyclic(Graph(PairTwice(a, b, Some(12), None)), 1)
  {
    RankedIsAcyclic(Graph(PairTwice(a, b, None, Some(11))), 1, x => x);
    RankedIsAcyclic(Graph(PairTwice(a, b, Some(12), None)), 1, x => if x == 11 then 1 else 0);
  }

  lemma PairClosed(a: string, b: string)
    ensures !Acyclic(Graph(PairTwice(a, b, Some(12), Some(11))), 1)
  {
    TwoUnderEachOther(PairTwice(a, b, Some(12), Some(11)), 1, 11, 12);
  }

  /** Two agents of different names, cloned, turned around and cloned again. */
  ghost predicate TurnedRun(first: Table, t: Table, turned: Table, after: Table) {
    && Listing(first, 0, [1, 2]) && Listing(first, 1, [])
    && Clones(first, t, 1, EVERYBODY, [1, 2], [], map[], PairIds())
    && AgentService.Run(Graph(t), TurnAround()) == Graph(turned)
    && Listing(turned, 0, [1, 2]) && Listing(turned, 1, [11, 12])
    && Clones(turned, after, 1, EVERYBODY, [1, 2], [11, 12], PairIds(), PairIds())
  }

  /**
   * The clones of two agents of different names are turned around by two accepted updates. The
   * next run of the same cloning finds both by name, puts 12 under 11 again, and leaves 11
   * under 12: a cycle, where there was none after the first run nor after the updates.
   */
  lemma TurnedClonesCloseACycle(a: string, b: string)
    requires a != b
    ensures var t, turned, after := PairTwice(a, b, None, Some(11)), PairTwice(a, b, Some(12), None), PairTwice(a, b, Some(12), Some(11));
            && TurnedRun(Pair(a, b), t, turned, after)
            && Acyclic(Graph(t), 1) && Acyclic(Graph(turned), 1) && !Acyclic(Graph(after), 1)
  {
    PairListing(a, b);
    PairCloned(a, b);
    TurnedAround(a, b);
    PairTwiceListing(a, b, Some(12), None);
    PairClonedAgain(a, b, Some(12), None);
    PairTwiceIsAcyclic(a, b);
    PairClosed(a, b);
  }

  lemma TwoUnderEachOther(t: Table, org: OrgId, x: AgentId, y: AgentId)
    requires LiveIn(Graph(t), org, x) && LiveIn(Graph(t), org, y) && t[x].parent == Some(y) && t[y].parent == Some(x)
    ensures !Acyclic(Graph(t), org)
  {
    assert Ancestor(Graph(t), org, x, 0) == Some(x);
    assert Ancestor(Graph(t), org, x, 1) == Some(y);
    assert Ancestor(Graph(t), org, x, 2) == Some(x);
  }

  /** Organization 0 has agents 1, 2 and 3 in a line, of which 1 and 3 have one name. */
  function Trio(a: string, b: string): Table {
    Pair(a, b)[3 := Called(0, a, Some(2))]
  }

  function TrioTwice(a: string, b: string, q: Option<AgentId>, r: Option<AgentId>): Table {
    Trio(a, b)[11 := Called(1, a, None)][12 := Called(1, b, q)][13 := Called(1, a, r)]
  }

  function TrioIds(first: AgentId): map<AgentId, AgentId> {
    map[1 := first, 2 := 12, 3 := 13]
  }

  lemma TrioEdges(a: string, b: string, first: AgentId, q: Option<AgentId>, r: Option<AgentId>)
    ensures var t := TrioTwice(a, b, q, r); Edges(t, TrioIds(first), [1, 2, 3]) == [Edge(12, first), Edge(13, 12)]
  {
    var t, m := TrioTwice(a, b, q, r), TrioIds(first);
    assert [1, 2, 3][..2] == [1, 2] && [1, 2][..1] == [1] && [1][..0] == [];
    assert EdgeOf(t, m, 1) == None && EdgeOf(t, m, 2) == Some(Edge(12, first)) && EdgeOf(t, m, 3) == Some(Edge(13, 12));
    assert Edges(t, m, [1]) == [];
    assert Edges(t, m, [1, 2]) == [Edge(12, first)];
  }

  lemma TrioApplied(a: string, b: string, first: AgentId, q: Option<AgentId>, r: Option<AgentId>)
    ensures Applied(TrioTwice(a, b, q, r), [Edge(12, first), Edge(13, 12)]) == TrioTwice(a, b, Some(first), Some(12))
  {
    var t := TrioTwice(a, b, q, r);
    assert [Edge(12, first), Edge(13, 12)][..1] == [Edge(12, first)] && [Edge(12, first)][..0] == [];
    assert Applied(t, []) == t;
    assert Applied(t, [Edge(12, first)]) == TrioTwice(a, b, Some(first), r);
  }

  lemma TrioCreated(a: string, b: string)
    ensures Created(Trio(a, b), TrioTwice(a, b, None, None), 1, false, map[], TrioIds(11))
  {
    TrioNewRows(a, b);
    TrioIdsDiffer();
    TrioNothingElse(a, b);
  }

  lemma TrioStaffed(a: string, b: string, q: Option<AgentId>, r: Option<AgentId>)
    ensures Staffed(Trio(a, b), [1, 2, 3], []) && Staffed(TrioTwice(a, b, q, r), [1, 2, 3], [])
    ensures Staffed(TrioTwice(a, b, q, r), [1, 2, 3], [11, 12, 13])
  {
  }

  lemma TrioKeys(first: AgentId)
    ensures TrioIds(first).Keys == Elements([1, 2, 3])
  {
  }

  lemma TrioIdsDiffer()
    ensures NewIdsDiffer(map[], TrioIds(11))
  {
  }

  lemma TrioNewRows(a: string, b: string)
    ensures NewRows(Trio(a, b), TrioTwice(a, b, None, None), 1, false, map[], TrioIds(11))
  {
  }

  lemma TrioNothingElse(a: string, b: string)
    ensures NothingElse(Trio(a, b), TrioTwice(a, b, None, None), map[], TrioIds(11))
  {
    assert 1 in TrioIds(11) && TrioIds(11)[1] == 11;
    assert 2 in TrioIds(11) && TrioIds(11)[2] == 12;
    assert 3 in TrioIds(11) && TrioIds(11)[3] == 13;
  }

  lemma TrioCloned(a: string, b: string)
    ensures Clones(Trio(a, b), TrioTwice(a, b, Some(11), Some(12)), 1, EVERYBODY, [1, 2, 3], [], map[], TrioIds(11))
  {
    TrioStaffed(a, b, None, None);
    TrioKeys(11);
    TrioCreated(a, b);
    TrioEdges(a, b, 11, None, None);
    TrioApplied(a, b, 11, None, None);
    EverybodyCloned(Trio(a, b), TrioTwice(a, b, None, None), TrioTwice(a, b, Some(11), Some(12)), [1, 2, 3], [], map[], TrioIds(11));
  }

  /** The match by name finds the last of the two namesakes for both. */
  lemma TrioNamed(a: string, b: string, q: Option<AgentId>, r: Option<AgentId>)
    requires a != b
    ensures var t := TrioTwice(a, b, q, r); LastNamed(t, [11, 12, 13], a) == Some(13) && LastNamed(t, [11, 12, 13], b) == Some(12)
  {
    var t := TrioTwice(a, b, q, r);
    assert [11, 12, 13][..2] == [11, 12];
    assert LastNamed(t, [11, 12, 13], b) == LastNamed(t, [11, 12], b);
  }

  lemma TrioMatched(a: string, b: string, q: Option<AgentId>, r: Option<AgentId>)
    requires a != b
    ensures MatchedByName(TrioTwice(a, b, q, r), [11, 12, 13], [1, 2, 3], TrioIds(13))
  {
    TrioStaffed(a, b, q, r);
    TrioKeys(13);
    TrioNamed(a, b, q, r);
    AllNamed(TrioTwice(a, b, q, r), [11, 12, 13], [1, 2, 3], TrioIds(13));
  }

  lemma TrioClonedAgain(a: string, b: string)
    requires a != b
    ensures Clones(TrioTwice(a, b, Some(11), Some(12)), TrioTwice(a, b, Some(13), Some(12)), 1, EVERYBODY, [1, 2, 3], [11, 12, 13],
                   TrioIds(13), TrioIds(13))
  {
    var t, after := TrioTwice(a, b, Some(11), Some(12)), TrioTwice(a, b, Some(13), Some(12));
    TrioStaffed(a, b, Some(11), Some(12));
    TrioKeys(13);
    NothingCreated(t, TrioIds(13));
    TrioEdges(a, b, 13, Some(11), Some(12));
    TrioApplied(a, b, 13, Some(11), Some(12));
    TrioMatched(a, b, Some(11), Some(12));
    EverybodyCloned(t, t, after, [1, 2, 3], [11, 12, 13], TrioIds(13), TrioIds(13));
  }

  lemma TrioListing(a: string, b: string)
    ensures Listing(Trio(a, b), 0, [1, 2, 3]) && Listing(Trio(a, b), 1, [])
  {
  }

  lemma TrioTwiceListing(a: string, b: string, q: Option<AgentId>, r: Option<AgentId>)
    ensures Listing(TrioTwice(a, b, q, r), 0, [1, 2, 3]) && Listing(TrioTwice(a, b, q, r), 1, [11, 12, 13])
  {
  }

  lemma TrioTwiceIsAcyclic(a: string, b: string)
    ensures Acyclic(Graph(TrioTwice(a, b, Some(11), Some(12))), 1)
  {
    RankedIsAcyclic(Graph(TrioTwice(a, b, Some(11), Some(12))), 1, x => x);
  }

  lemma TrioClosed(a: string, b: string)
    ensures !Acyclic(Graph(TrioTwice(a, b, Some(13), Some(12))), 1)
  {
    TwoUnderEachOther(TrioTwice(a, b, Some(13), Some(12)), 1, 12, 13);
  }

  /** Three agents cloned twice in a row. */
  ghost predicate NamesakeRun(first: Table, t: Table, after: Table) {
    && Listing(first, 0, [1, 2, 3]) && Listing(first, 1, [])
    && Clones(first, t, 1, EVERYBODY, [1, 2, 3], [], map[], TrioIds(11))
    && Listing(t, 0, [1, 2, 3]) && Listing(t, 1, [11, 12, 13])
    && Clones(t, after, 1, EVERYBODY, [1, 2, 3], [11, 12, 13], TrioIds(13), TrioIds(13))
  }

  /**
   * Of three agents in a line the first and the last have one name. Cloning them twice, with
   * nothing in between, maps both to one clone, and puts that and the middle one under each other.
   */
  lemma NamesakesCloseACycle(a: string, b: string)
    requires a != b
    ensures var t, after := TrioTwice(a, b, Some(11), Some(12)), TrioTwice(a, b, Some(13), Some(12));
            NamesakeRun(Trio(a, b), t, after) && Acyclic(Graph(t), 1) && !Acyclic(Graph(after), 1)
  {
    TrioListing(a, b);
    TrioCloned(a, b);
    TrioTwiceListing(a, b, Some(11), Some(12));
    TrioClonedAgain(a, b);
    TrioTwiceIsAcyclic(a, b);
    TrioClosed(a, b);
  }
}
