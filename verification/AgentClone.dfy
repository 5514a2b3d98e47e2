/**
 * Cloning agents into another organization: choose, match by name what is already there,
 * create the rest, and carry the hierarchy over with the map from old to new ids.
 */
module AgentClone {
  import opened Options
  import opened AgentTree
  import opened Ids

  datatype Kind = Orchestrator | Worker

  /** `rest` stands for the behaviour fields that are copied as they are. */
  datatype Row = Row(org: OrgId, parent: Option<AgentId>, live: bool, name: string, kind: Kind, department: Option<string>,
                     squad: Option<string>, isActive: bool, pipelineScope: seq<string>, rest: string)

  type Table = map<AgentId, Row>

  function AsAgent(r: Row): Agent {
    Agent(r.org, r.parent, r.live)
  }

  /** The hierarchy of a table. */
  function Graph(t: Table): Agents {
    map x | x in t :: AsAgent(t[x])
  }

  // ---------------------------------------------------------------- choosing

  datatype Selector = Selector(kind: Option<Kind>, department: Option<string>, squad: Option<string>)

  /** `fold` is the lower-casing of strings. */
  datatype Filter = Filter(selectors: seq<Selector>, includeInactive: bool, resetScope: bool, fold: string -> string)

  function OrEmpty(s: Option<string>): string {
    if s.Some? then s.value else ""
  }

  predicate Matches(f: Filter, r: Row, s: Selector) {
    && (s.kind.Some? ==> r.kind == s.kind.value)
    && (s.department.Some? ==> f.fold(OrEmpty(r.department)) == f.fold(s.department.value))
    && (s.squad.Some? ==> f.fold(OrEmpty(r.squad)) == f.fold(s.squad.value))
  }

  predicate Selected(f: Filter, r: Row) {
    && (f.includeInactive || r.isActive)
    && (f.selectors == [] || exists i | 0 <= i < |f.selectors| :: Matches(f, r, f.selectors[i]))
  }

  function SelectedOf(t: Table, f: Filter, kind: Kind, source: seq<AgentId>): (r: seq<AgentId>)
    requires forall x | x in source :: x in t
    ensures forall x | x in r :: x in source
  {
    if source == [] then []
    else (if Selected(f, t[source[0]]) && t[source[0]].kind == kind then [source[0]] else []) + SelectedOf(t, f, kind, source[1..])
  }

  /** The chosen agents: orchestrators first, otherwise in the order they were read. */
  function Planned(t: Table, f: Filter, source: seq<AgentId>): (r: seq<AgentId>)
    requires forall x | x in source :: x in t
    ensures forall x | x in r :: x in source
  {
    SelectedOf(t, f, Orchestrator, source) + SelectedOf(t, f, Worker, source)
  }

  ghost predicate Distinct<T>(s: seq<T>) {
    forall i, j | 0 <= i < j < |s| :: s[i] != s[j]
  }

  function Elements<T(==)>(s: seq<T>): set<T> {
    set x | x in s
  }

  lemma OneMoreKey(m: map<AgentId, AgentId>, s: AgentId, id: AgentId)
    requires s !in m
    ensures m[s := id].Keys == m.Keys + {s} && |m[s := id]| == |m| + 1
  {
  }

  ghost predicate Covers(planned: seq<AgentId>, n: nat, m: map<AgentId, AgentId>, m': map<AgentId, AgentId>)
    requires n <= |planned|
  {
    && (forall k | 0 <= k < n :: planned[k] in m')
    && (forall x | x in m' :: x in m || x in planned)
  }

  lemma CoversAll(planned: seq<AgentId>, m: map<AgentId, AgentId>, m': map<AgentId, AgentId>)
    requires Distinct(planned) && m.Keys <= Elements(planned) && Covers(planned, |planned|, m, m')
    ensures m'.Keys == Elements(planned) && |m'| == |planned|
  {
    forall x ensures x in m' <==> x in Elements(planned) {
    }
    DistinctCount(planned);
  }

  lemma OneMoreElement<T>(s: seq<T>, i: nat)
    requires i < |s|
    ensures Elements(s[..i + 1]) == Elements(s[..i]) + {s[i]}
  {
  }

  lemma {:induction false} DistinctCount<T>(s: seq<T>)
    requires Distinct(s)
    ensures |Elements(s)| == |s|
  {
    if s != [] {
      var n := |s| - 1;
      DistinctCount(s[..n]);
      OneMoreElement(s, n);
      assert s[..n + 1] == s;
      assert s[n] !in s[..n];
    }
  }

  lemma {:induction false} SelectedOfHas(t: Table, f: Filter, kind: Kind, source: seq<AgentId>)
    requires forall x | x in source :: x in t
    ensures forall x :: x in SelectedOf(t, f, kind, source) <==> x in source && Selected(f, t[x]) && t[x].kind == kind
    ensures Distinct(source) ==> Distinct(SelectedOf(t, f, kind, source))
  {
    if source != [] {
      SelectedOfHas(t, f, kind, source[1..]);
    }
  }

  /** Every chosen agent is planned once. */
  lemma PlannedHas(t: Table, f: Filter, source: seq<AgentId>)
    requires forall x | x in source :: x in t
    ensures forall x :: x in Planned(t, f, source) <==> x in source && Selected(f, t[x])
    ensures Distinct(source) ==> Distinct(Planned(t, f, source))
  {
    SelectedOfHas(t, f, Orchestrator, source);
    SelectedOfHas(t, f, Worker, source);
    var a, b := SelectedOf(t, f, Orchestrator, source), SelectedOf(t, f, Worker, source);
    if Distinct(source) {
      forall i, j | 0 <= i < j < |a + b| ensures (a + b)[i] != (a + b)[j] {
        if i < |a| <= j {
          assert (a + b)[i] in a && (a + b)[j] in b;
        }
      }
    }
  }

  /** Who is planned, by value: the listed agents that are active, or all if inactive ones are
      wanted too, and that fit every condition of some selector, if there are any. */
  lemma PlannedExactly(t: Table, f: Filter, source: seq<AgentId>, x: AgentId)
    requires forall x | x in source :: x in t
    ensures x in Planned(t, f, source) <==>
              && x in source && (t[x].isActive || f.includeInactive)
              && (|f.selectors| > 0 ==> exists i | 0 <= i < |f.selectors| ::
                    && (f.selectors[i].kind == None || f.selectors[i].kind == Some(t[x].kind))
                    && (f.selectors[i].department.Some? ==>
                          f.fold(f.selectors[i].department.value) == f.fold(if t[x].department == None then "" else t[x].department.value))
                    && (f.selectors[i].squad.Some? ==>
                          f.fold(f.selectors[i].squad.value) == f.fold(if t[x].squad == None then "" else t[x].squad.value)))
  {
    PlannedHas(t, f, source);
    if x in source && |f.selectors| > 0 {
      forall i | 0 <= i < |f.selectors|
        ensures Matches(f, t[x], f.selectors[i]) <==>
                  && (f.selectors[i].kind == None || f.selectors[i].kind == Some(t[x].kind))
                  && (f.selectors[i].department.Some? ==>
                        f.fold(f.selectors[i].department.value) == f.fold(if t[x].department == None then "" else t[x].department.value))
                  && (f.selectors[i].squad.Some? ==>
                        f.fold(f.selectors[i].squad.value) == f.fold(if t[x].squad == None then "" else t[x].squad.value))
      {
      }
    }
  }

  /** Orchestrators are planned before workers, and each kind in the order it was read. */
  lemma {:induction false} SelectedInOrder(t: Table, f: Filter, kind: Kind, source: seq<AgentId>) returns (at: seq<nat>)
    requires forall x | x in source :: x in t
    ensures var r := SelectedOf(t, f, kind, source);
            && |at| == |r|
            && (forall i | 0 <= i < |r| :: at[i] < |source| && r[i] == source[at[i]] && t[r[i]].kind == kind)
            && (forall i, j | 0 <= i < j < |r| :: at[i] < at[j])
  {
    if source == [] {
      at := [];
    } else {
      var rest := SelectedInOrder(t, f, kind, source[1..]);
      var later := seq(|rest|, i requires 0 <= i < |rest| => rest[i] + 1);
      at := if Selected(f, t[source[0]]) && t[source[0]].kind == kind then [0] + later else later;
    }
  }

  lemma PlannedInOrder(t: Table, f: Filter, source: seq<AgentId>, i: nat, j: nat)
    requires (forall x | x in source :: x in t) && i < j < |Planned(t, f, source)|
    ensures var p := Planned(t, f, source);
            && !(t[p[i]].kind == Worker && t[p[j]].kind == Orchestrator)
            && (t[p[i]].kind == t[p[j]].kind ==> exists a, b | 0 <= a < b < |source| :: source[a] == p[i] && source[b] == p[j])
  {
    var first := SelectedInOrder(t, f, Orchestrator, source);
    var second := SelectedInOrder(t, f, Worker, source);
    var n := |SelectedOf(t, f, Orchestrator, source)|;
    var p := Planned(t, f, source);
    if j < n {
      assert p[i] == source[first[i]] && p[j] == source[first[j]];
    } else if i >= n {
      assert p[i] == source[second[i - n]] && p[j] == source[second[j - n]];
    } else {
      assert t[p[i]].kind == Orchestrator && t[p[j]].kind == Worker;
    }
  }

  // ---------------------------------------------------------------- the map of ids

  /** The last agent of the list with this name. */
  function LastNamed(t: Table, existing: seq<AgentId>, name: string): (r: Option<AgentId>)
    requires forall x | x in existing :: x in t
    ensures r.None? <==> forall x | x in existing :: t[x].name != name
    ensures r.Some? ==> r.value in existing && t[r.value].name == name
  {
    if existing == [] then None
    else
      var n := |existing| - 1;
      if t[existing[n]].name == name then Some(existing[n]) else LastNamed(t, existing[..n], name)
  }

  /** The rows a listing of the live agents of `org` may return, in any order. */
  ghost predicate Listing(t: Table, org: OrgId, l: seq<AgentId>) {
    && Distinct(l)
    && (forall x :: x in l <==> x in t && t[x].live && t[x].org == org)
  }

  function Copy(r: Row, dest: OrgId, resetScope: bool): Row {
    r.(org := dest, parent := None, live := true, pipelineScope := if resetScope then [] else r.pipelineScope)
  }

  ghost predicate MatchedByName(t: Table, existing: seq<AgentId>, planned: seq<AgentId>, m: map<AgentId, AgentId>)
    requires (forall x | x in existing :: x in t) && forall x | x in planned :: x in t
  {
    forall s :: (s in m <==> s in planned && LastNamed(t, existing, t[s].name).Some?)
             && (s in m ==> Some(m[s]) == LastNamed(t, existing, t[s].name))
  }

  /** `after` is `before` with a new row for every agent that `m'` has and `m` has not. */
  ghost predicate Created(before: Table, after: Table, dest: OrgId, resetScope: bool, m: map<AgentId, AgentId>, m': map<AgentId, AgentId>) {
    && (forall s | s in m :: s in m' && m'[s] == m[s])
    && NewRows(before, after, dest, resetScope, m, m')
    && NewIdsDiffer(m, m')
    && NothingElse(before, after, m, m')
  }

  ghost predicate NewRows(before: Table, after: Table, dest: OrgId, resetScope: bool, m: map<AgentId, AgentId>, m': map<AgentId, AgentId>) {
    forall s | s in m' && s !in m :: s in before && m'[s] !in before && m'[s] in after && after[m'[s]] == Copy(before[s], dest, resetScope)
  }

  ghost predicate NewIdsDiffer(m: map<AgentId, AgentId>, m': map<AgentId, AgentId>) {
    forall a, b | a in m' && b in m' && a !in m && b !in m && a != b :: m'[a] != m'[b]
  }

  ghost predicate NothingElse(before: Table, after: Table, m: map<AgentId, AgentId>, m': map<AgentId, AgentId>) {
    && (forall x | x in before :: x in after && after[x] == before[x])
    && (forall x | x in after && x !in before :: exists s | s in m' && s !in m :: m'[s] == x)
  }

  // ---------------------------------------------------------------- the hierarchy

  datatype Edge = Edge(id: AgentId, parent: AgentId)

  /** The update for one chosen agent: none for a root, nor if its parent was not chosen. */
  function EdgeOf(t: Table, m: map<AgentId, AgentId>, s: AgentId): Option<Edge>
    requires s in t
  {
    var p := t[s].parent;
    if p.None? || p.value == s || s !in m || p.value !in m then None else Some(Edge(m[s], m[p.value]))
  }

  function Edges(t: Table, m: map<AgentId, AgentId>, planned: seq<AgentId>): seq<Edge>
    requires forall s | s in planned :: s in t
  {
    if planned == [] then []
    else
      var n := |planned| - 1;
      Edges(t, m, planned[..n]) + (if EdgeOf(t, m, planned[n]).Some? then [EdgeOf(t, m, planned[n]).value] else [])
  }

  function Applied(t: Table, edges: seq<Edge>): Table {
    if edges == [] then t
    else
      var n := |edges| - 1;
      var t' := Applied(t, edges[..n]);
      if edges[n].id in t' then t'[edges[n].id := t'[edges[n].id].(parent := Some(edges[n].parent))] else t'
  }

  /** One run of cloneAgents into `dest`: `m` are the matches by name, `m'` all new ids. */
  ghost predicate Clones(before: Table, after: Table, dest: OrgId, f: Filter, source: seq<AgentId>, existing: seq<AgentId>,
                         m: map<AgentId, AgentId>, m': map<AgentId, AgentId>)
    requires (forall x | x in source :: x in before) && forall x | x in existing :: x in before
  {
    exists mid :: ClonesBy(before, mid, after, dest, f, source, existing, m, m')
  }

  ghost predicate ClonesBy(before: Table, mid: Table, after: Table, dest: OrgId, f: Filter, source: seq<AgentId>, existing: seq<AgentId>,
                           m: map<AgentId, AgentId>, m': map<AgentId, AgentId>)
    requires (forall x | x in source :: x in before) && forall x | x in existing :: x in before
  {
    var planned := Planned(before, f, source);
    && (forall s | s in planned :: s in before && s in mid)
    && MatchedByName(before, existing, planned, m)
    && Created(before, mid, dest, f.resetScope, m, m') && m'.Keys == Elements(planned)
    && after == Applied(mid, Edges(mid, m', planned))
  }

  // ---------------------------------------------------------------- the service

  datatype Report = Report(planned: nat, created: nat, skipped: nat, parentEdges: nat)

  datatype Outcome = Cloned(report: Report) | NothingToClone | NotFound

  class Provisioner {
    var table: Table
    var orgs: set<OrgId>

    constructor (table: Table, orgs: set<OrgId>)
      ensures this.table == table && this.orgs == orgs
    {
      this.table, this.orgs := table, orgs;
    }

    /**
     * `source` and `existing` are what the database lists for the two organizations. A dry
     * run, and one without a destination, only counts.
     */
    method CloneAgents(sourceOrg: Option<OrgId>, dest: Option<OrgId>, dryRun: bool, f: Filter, source: seq<AgentId>, existing: seq<AgentId>)
      returns (r: Outcome, m: map<AgentId, AgentId>, m': map<AgentId, AgentId>)
      requires sourceOrg.Some? ==> Listing(table, sourceOrg.value, source)
      requires if dest.Some? then Listing(table, dest.value, existing) else existing == []
      modifies `table
      ensures r == NothingToClone <==> sourceOrg.None?
      ensures r == NotFound <==> sourceOrg.Some? && sourceOrg.value !in orgs
      ensures !r.Cloned? || dryRun || dest.None? ==> table == old(table)
      ensures r.Cloned? && !dryRun && dest.Some? ==> Clones(old(table), table, dest.value, f, source, existing, m, m')
      ensures (r.Cloned? ==>
                && r.report.planned == |Planned(old(table), f, source)|
                && r.report.skipped == |m|
                && r.report.created == (if dryRun || dest.None? then 0 else r.report.planned - |m|)
                && r.report.parentEdges == |Edges(old(table), m', Planned(old(table), f, source))|)
    {
      m, m' := map[], map[];
      if sourceOrg.None? {
        return NothingToClone, m, m';
      }
      if sourceOrg.value !in orgs {
        return NotFound, m, m';
      }
      ghost var before := table;
      var planned := Planned(table, f, source);
      PlannedHas(table, f, source);
      m := MatchByName(planned, existing);
      m' := m;
      var created, skipped := 0, |m|;
      if !dryRun && dest.Some? {
        m', created, skipped := CreateMissing(planned, dest.value, f.resetScope, m);
      }
      ghost var mid := table;
      SameEdges(before, mid, m', planned);
      MatchesAreInside(before, existing, planned, m);
      var updates := Reparent(planned, m', dryRun || dest.None?);
      if !dryRun && dest.Some? {
        assert ClonesBy(before, mid, table, dest.value, f, source, existing, m, m');
      }
      r := Cloned(Report(|planned|, created, skipped, updates));
    }

    /** The second pass: the hierarchy, once all new ids are known. */
    method Reparent(planned: seq<AgentId>, m: map<AgentId, AgentId>, onlyCount: bool) returns (updates: nat)
      requires forall s | s in planned :: s in table
      requires !onlyCount ==> forall s | s in m :: m[s] in table
      modifies `table
      ensures updates == |Edges(old(table), m, planned)|
      ensures table == if onlyCount then old(table) else Applied(old(table), Edges(old(table), m, planned))
    {
      var edges := ComputeParentUpdates(planned, m);
      updates := |edges|;
      EdgesAreInside(table, m, planned);
      if !onlyCount {
        ApplyUpdates(edges);
      }
    }

    method MatchByName(planned: seq<AgentId>, existing: seq<AgentId>) returns (m: map<AgentId, AgentId>)
      requires (forall x | x in existing :: x in table) && forall x | x in planned :: x in table
      ensures MatchedByName(table, existing, planned, m)
    {
      m := map[];
      for i := 0 to |planned|
        invariant MatchedByName(table, existing, planned[..i], m)
      {
        var found := LastNamed(table, existing, table[planned[i]].name);
        assert forall s :: s in planned[..i + 1] <==> s in planned[..i] || s == planned[i];
        if found.Some? {
          m := m[planned[i] := found.value];
        }
      }
      assert planned[..|planned|] == planned;
    }

    method CreateClonedAgent(s: AgentId, dest: OrgId, resetScope: bool) returns (id: AgentId)
      requires s in table
      modifies `table
      ensures id !in old(table) && table == old(table)[id := Copy(old(table)[s], dest, resetScope)]
    {
      ghost var unused := SomeUnused(table.Keys);
      assert unused !in table.Keys;
      id :| id !in table.Keys;
      table := table[id := Copy(table[s], dest, resetScope)];
    }

    method CloneOne(ghost before: Table, ghost m: map<AgentId, AgentId>, ghost news: seq<News>, s: AgentId, dest: OrgId, resetScope: bool,
                    m': map<AgentId, AgentId>) returns (m'': map<AgentId, AgentId>, ghost more: seq<News>)
      requires SoFar(before, table, m, m', dest, resetScope, news) && s in before && s !in m'
      modifies `table
      ensures SoFar(before, table, m, m'', dest, resetScope, more)
      ensures s in m'' && (forall x | x in m' :: x in m'') && (forall x | x in m'' :: x in m' || x == s) && |more| == |news| + 1
    {
      ClonesKeepRows(before, dest, resetScope, news, s);
      var id := CreateClonedAgent(s, dest, resetScope);
      OneMoreNews(before, m, dest, resetScope, news, s, id);
      more := news + [News(s, id)];
      m'' := m'[s := id];
    }

    method CreateMissing(planned: seq<AgentId>, dest: OrgId, resetScope: bool, m: map<AgentId, AgentId>)
      returns (m': map<AgentId, AgentId>, created: nat, skipped: nat)
      requires (forall s | s in planned :: s in table) && Distinct(planned) && m.Keys <= Elements(planned)
      modifies `table
      ensures Created(old(table), table, dest, resetScope, m, m') && m'.Keys == Elements(planned)
      ensures created == |planned| - |m| && skipped == |m|
      ensures (forall s | s in m' && s !in m ::
                var source, clone := old(table)[s], table[m'[s]];
                && m'[s] !in old(table)
                && clone.org == dest && clone.parent == None && clone.live
                && clone.pipelineScope == (if resetScope then [] else source.pipelineScope)
                && clone.name == source.name && clone.kind == source.kind && clone.department == source.department
                && clone.squad == source.squad && clone.isActive == source.isActive && clone.rest == source.rest)
    {
      ghost var before := table;
      ghost var news: seq<News> := [];
      m', created, skipped := m, 0, 0;
      for i := 0 to |planned|
        invariant SoFar(before, table, m, m', dest, resetScope, news)
        invariant Covers(planned, i, m, m')
        invariant created + skipped == i && created == |news|
      {
        if planned[i] in m' {
          skipped := skipped + 1;
        } else {
          m', news := CloneOne(before, m, news, planned[i], dest, resetScope, m');
          created := created + 1;
        }
      }
      FreshIsCreated(before, m, dest, resetScope, news);
      CoversAll(planned, m, m');
    }

    /** The loop of computeParentUpdates. */
    method ComputeParentUpdates(planned: seq<AgentId>, m: map<AgentId, AgentId>) returns (updates: seq<Edge>)
      requires forall s | s in planned :: s in table
      ensures updates == Edges(table, m, planned)
    {
      updates := [];
      for i := 0 to |planned|
        invariant updates == Edges(table, m, planned[..i])
      {
        var s := planned[i];
        assert planned[..i + 1][..i] == planned[..i];
        var p := table[s].parent;
        if p.Some? && p.value != s && s in m && p.value in m {
          updates := updates + [Edge(m[s], m[p.value])];
        }
      }
      assert planned[..|planned|] == planned;
    }

    method ApplyUpdates(updates: seq<Edge>)
      requires forall e | e in updates :: e.id in table
      modifies `table
      ensures table == Applied(old(table), updates)
    {
      ghost var before := table;
      for i := 0 to |updates|
        invariant table == Applied(before, updates[..i]) && table.Keys == before.Keys
      {
        assert updates[..i + 1][..i] == updates[..i];
        var e := updates[i];
        table := table[e.id := table[e.id].(parent := Some(e.parent))];
      }
      assert updates[..|updates|] == updates;
    }
  }

  /** Creating clones does not touch the rows the edges are read from. */
  lemma {:induction false} SameEdges(t: Table, t': Table, m: map<AgentId, AgentId>, planned: seq<AgentId>)
    requires forall s | s in planned :: s in t && s in t' && t[s] == t'[s]
    ensures Edges(t, m, planned) == Edges(t', m, planned)
  {
    if planned != [] {
      SameEdges(t, t', m, planned[..|planned| - 1]);
    }
  }

  lemma {:induction false} EdgesAreInside(t: Table, m: map<AgentId, AgentId>, planned: seq<AgentId>)
    requires forall s | s in planned :: s in t
    ensures forall e | e in Edges(t, m, planned) :: exists s | s in m :: m[s] == e.id
  {
    if planned != [] {
      EdgesAreInside(t, m, planned[..|planned| - 1]);
    }
  }

  lemma MatchesAreInside(t: Table, existing: seq<AgentId>, planned: seq<AgentId>, m: map<AgentId, AgentId>)
    requires (forall x | x in existing :: x in t) && forall x | x in planned :: x in t
    requires MatchedByName(t, existing, planned, m)
    ensures m.Keys <= Elements(planned) && forall s | s in m :: m[s] in existing
  {
  }

  // ---------------------------------------------------------------- creations in order

  /** Source agent and new id of one creation. */
  datatype News = News(source: AgentId, id: AgentId)

  function WithClones(t: Table, dest: OrgId, resetScope: bool, news: seq<News>): Table {
    if news == [] then t
    else
      var n := |news| - 1;
      var t' := WithClones(t, dest, resetScope, news[..n]);
      if news[n].source in t' then t'[news[n].id := Copy(t'[news[n].source], dest, resetScope)] else t'
  }

  function WithIds(m: map<AgentId, AgentId>, news: seq<News>): map<AgentId, AgentId> {
    if news == [] then m else WithIds(m, news[..|news| - 1])[news[|news| - 1].source := news[|news| - 1].id]
  }

  ghost predicate Fresh(t: Table, m: map<AgentId, AgentId>, dest: OrgId, resetScope: bool, news: seq<News>) {
    news == [] ||
      var n := |news| - 1;
      && Fresh(t, m, dest, resetScope, news[..n])
      && news[n].source in t && news[n].source !in WithIds(m, news[..n])
      && news[n].id !in WithClones(t, dest, resetScope, news[..n])
  }

  ghost predicate SoFar(before: Table, t: Table, m: map<AgentId, AgentId>, m': map<AgentId, AgentId>, dest: OrgId, resetScope: bool, news: seq<News>) {
    Fresh(before, m, dest, resetScope, news) && t == WithClones(before, dest, resetScope, news) && m' == WithIds(m, news)
  }

  lemma {:induction false} ClonesKeepRows(t: Table, dest: OrgId, resetScope: bool, news: seq<News>, x: AgentId)
    requires x in t
    ensures x in WithClones(t, dest, resetScope, news)
  {
    if news != [] {
      ClonesKeepRows(t, dest, resetScope, news[..|news| - 1], x);
    }
  }

  lemma OneMoreNews(t: Table, m: map<AgentId, AgentId>, dest: OrgId, resetScope: bool, news: seq<News>, s: AgentId, id: AgentId)
    requires Fresh(t, m, dest, resetScope, news) && s in t && s in WithClones(t, dest, resetScope, news)
    requires s !in WithIds(m, news) && id !in WithClones(t, dest, resetScope, news)
    ensures Fresh(t, m, dest, resetScope, news + [News(s, id)])
    ensures WithClones(t, dest, resetScope, news + [News(s, id)])
         == WithClones(t, dest, resetScope, news)[id := Copy(WithClones(t, dest, resetScope, news)[s], dest, resetScope)]
    ensures WithIds(m, news + [News(s, id)]) == WithIds(m, news)[s := id]
  {
  }

  lemma {:induction false} FreshIsCreated(t: Table, m: map<AgentId, AgentId>, dest: OrgId, resetScope: bool, news: seq<News>)
    requires Fresh(t, m, dest, resetScope, news)
    ensures Created(t, WithClones(t, dest, resetScope, news), dest, resetScope, m, WithIds(m, news))
    ensures |WithIds(m, news)| == |m| + |news|
  {
    if news != [] {
      var n := |news| - 1;
      FreshIsCreated(t, m, dest, resetScope, news[..n]);
      ClonesKeepRows(t, dest, resetScope, news[..n], news[n].source);
      OneMoreKey(WithIds(m, news[..n]), news[n].source, news[n].id);
      OneMoreCreated(t, WithClones(t, dest, resetScope, news[..n]), dest, resetScope, m, WithIds(m, news[..n]), news[n].source, news[n].id);
    }
  }

  lemma OneMoreCreated(before: Table, after: Table, dest: OrgId, resetScope: bool, m: map<AgentId, AgentId>, m': map<AgentId, AgentId>,
                       s: AgentId, id: AgentId)
    requires Created(before, after, dest, resetScope, m, m')
    requires s in before && s !in m' && id !in after
    ensures Created(before, after[id := Copy(after[s], dest, resetScope)], dest, resetScope, m, m'[s := id])
  {
    OneMoreRow(before, after, dest, resetScope, m, m', s, id);
    OnlyOneMore(before, after, m, m', s, id, Copy(after[s], dest, resetScope));
    assert NewIdsDiffer(m, m'[s := id]) by {
      forall a | a in m' && a !in m ensures m'[a] != id {
        assert m'[a] in after;
      }
    }
  }

  lemma OneMoreRow(before: Table, after: Table, dest: OrgId, resetScope: bool, m: map<AgentId, AgentId>, m': map<AgentId, AgentId>,
                   s: AgentId, id: AgentId)
    requires NewRows(before, after, dest, resetScope, m, m') && s in before && s in after && after[s] == before[s]
    requires s !in m' && id !in after && id !in before
    ensures NewRows(before, after[id := Copy(after[s], dest, resetScope)], dest, resetScope, m, m'[s := id])
  {
  }

  lemma OnlyOneMore(before: Table, after: Table, m: map<AgentId, AgentId>, m': map<AgentId, AgentId>, s: AgentId, id: AgentId, row: Row)
    requires NothingElse(before, after, m, m') && s !in m' && id !in after && forall s | s in m :: s in m'
    ensures NothingElse(before, after[id := row], m, m'[s := id])
  {
  }

  lemma OneMoreNamed(before: Table, after: Table, m: map<AgentId, AgentId>, m': map<AgentId, AgentId>, s: AgentId, id: AgentId, x: AgentId)
    requires forall x | x in after && x !in before :: exists s | s in m' && s !in m :: m'[s] == x
    requires s !in m' && (forall s | s in m :: s in m') && (x == id || (x in after && x !in before))
    ensures exists z | z in m'[s := id] && z !in m :: m'[s := id][z] == x
  {
  }
}
