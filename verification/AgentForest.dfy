/** What cloning promises: the same forest in the new organization, and nothing new the second time. */
module AgentForest {
  import opened Options
  import opened AgentTree
  import opened AgentClone

  // ---------------------------------------------------------------- the second pass

  ghost predicate Injective(m: map<AgentId, AgentId>) {
    forall a, b | a in m && b in m && a != b :: m[a] != m[b]
  }

  /** `after` has the rows of `t`, with the parent of each mapped agent's row as the edges say. */
  ghost predicate Reparented(t: Table, after: Table, m: map<AgentId, AgentId>, planned: set<AgentId>)
    requires planned <= t.Keys
  {
    && after.Keys == t.Keys
    && (forall s | s in planned && s in m && m[s] in t ::
          after[m[s]] == if EdgeOf(t, m, s).Some? then t[m[s]].(parent := Some(EdgeOf(t, m, s).value.parent)) else t[m[s]])
    && (forall x | x in t && (forall s | s in planned && s in m :: m[s] != x) :: after[x] == t[x])
  }

  function Step(t: Table, e: Option<Edge>): Table {
    if e.Some? && e.value.id in t then t[e.value.id := t[e.value.id].(parent := Some(e.value.parent))] else t
  }

  lemma AppliedStep(t: Table, edges: seq<Edge>, e: Option<Edge>)
    ensures Applied(t, edges + if e.Some? then [e.value] else []) == Step(Applied(t, edges), e)
  {
    if e.Some? {
      assert (edges + [e.value])[..|edges + [e.value]| - 1] == edges;
    } else {
      assert edges + [] == edges;
    }
  }

  /** When the ids differ, every mapped agent gets its own edge, whatever the order. */
  lemma {:induction false} EdgesReparent(t: Table, m: map<AgentId, AgentId>, planned: seq<AgentId>)
    requires (forall s | s in planned :: s in t) && Distinct(planned) && Injective(m)
    ensures Reparented(t, Applied(t, Edges(t, m, planned)), m, Elements(planned))
  {
    if planned != [] {
      var n := |planned| - 1;
      var fewer, last := planned[..n], planned[n];
      EdgesReparent(t, m, fewer);
      LastElement(planned);
      AppliedStep(t, Edges(t, m, fewer), EdgeOf(t, m, last));
      OneMoreReparented(t, Applied(t, Edges(t, m, fewer)), m, Elements(fewer), last);
    }
  }

  lemma LastElement(planned: seq<AgentId>)
    requires planned != [] && Distinct(planned)
    ensures var n := |planned| - 1;
            Elements(planned) == Elements(planned[..n]) + {planned[n]} && planned[n] !in Elements(planned[..n])
  {
  }

  lemma OneMoreReparented(t: Table, mid: Table, m: map<AgentId, AgentId>, done: set<AgentId>, s: AgentId)
    requires done <= t.Keys && s in t && s !in done && Injective(m) && Reparented(t, mid, m, done)
    ensures Reparented(t, Step(mid, EdgeOf(t, m, s)), m, done + {s})
  {
  }

  // ---------------------------------------------------------------- a fresh organization

  /** The parent a chosen agent keeps: the one it had, if that was chosen too. */
  function KeptParent(t: Table, planned: set<AgentId>, s: AgentId): Option<AgentId>
    requires s in t
  {
    var p := t[s].parent;
    if p.Some? && p.value != s && p.value in planned then p else None
  }

  /** `after` has in `dest` exactly a copy of each chosen agent, and `m` carries the kept
      parents over: an isomorphism from the chosen part of the forest. */
  ghost predicate Isomorphic(t: Table, after: Table, dest: OrgId, f: Filter, planned: set<AgentId>, m: map<AgentId, AgentId>)
    requires planned <= t.Keys
  {
    && m.Keys == planned && Injective(m)
    && (forall s | s in planned ::
          && m[s] in after
          && after[m[s]] == Copy(t[s], dest, f.resetScope).(parent := after[m[s]].parent)
          && (KeptParent(t, planned, s).None? ==> after[m[s]].parent == None)
          && (KeptParent(t, planned, s).Some? ==> after[m[s]].parent == Some(m[KeptParent(t, planned, s).value])))
    && (forall x | x in after && after[x].live && after[x].org == dest :: exists s | s in planned :: m[s] == x)
    && (forall x | x in t :: x in after && after[x] == t[x])
  }

  /** Cloning into an organization without live agents. */
  lemma FreshCloneIsIsomorphic(t: Table, after: Table, dest: OrgId, f: Filter, source: seq<AgentId>, sourceOrg: OrgId,
                               m: map<AgentId, AgentId>, m': map<AgentId, AgentId>)
    requires Listing(t, sourceOrg, source) && Listing(t, dest, [])
    requires Clones(t, after, dest, f, source, [], m, m')
    ensures Isomorphic(t, after, dest, f, Elements(Planned(t, f, source)), m')
    ensures m == map[]
  {
    var planned := Planned(t, f, source);
    var mid :| ClonesBy(t, mid, after, dest, f, source, [], m, m');
    PlannedHas(t, f, source);
    assert m == map[];
    assert Injective(m');
    EdgesReparent(mid, m', planned);
    forall x | x in t ensures x in after && after[x] == t[x] {
      assert forall s | s in m' :: m'[s] != x;
    }
    FreshRows(t, mid, after, dest, f, planned, m, m');
  }

  /** The row of one clone. */
  lemma FreshRow(t: Table, mid: Table, after: Table, dest: OrgId, f: Filter, chosen: set<AgentId>, m': map<AgentId, AgentId>, s: AgentId)
    requires chosen <= t.Keys && chosen <= mid.Keys && s in chosen && m'.Keys == chosen && mid[s] == t[s]
    requires m'[s] in mid && mid[m'[s]] == Copy(t[s], dest, f.resetScope) && Reparented(mid, after, m', chosen)
    ensures m'[s] in after && after[m'[s]] == Copy(t[s], dest, f.resetScope).(parent := after[m'[s]].parent)
    ensures KeptParent(t, chosen, s).None? ==> after[m'[s]].parent == None
    ensures KeptParent(t, chosen, s).Some? ==> after[m'[s]].parent == Some(m'[KeptParent(t, chosen, s).value])
  {
  }

  lemma FreshRows(t: Table, mid: Table, after: Table, dest: OrgId, f: Filter, planned: seq<AgentId>,
                  m: map<AgentId, AgentId>, m': map<AgentId, AgentId>)
    requires (forall s | s in planned :: s in t && s in mid) && m == map[] && m'.Keys == Elements(planned)
    requires Listing(t, dest, []) && Created(t, mid, dest, f.resetScope, m, m') && Reparented(mid, after, m', Elements(planned))
    requires Injective(m') && forall x | x in t :: x in after && after[x] == t[x]
    ensures Isomorphic(t, after, dest, f, Elements(planned), m')
  {
    var chosen := Elements(planned);
    forall s | s in chosen
      ensures m'[s] in after && after[m'[s]] == Copy(t[s], dest, f.resetScope).(parent := after[m'[s]].parent)
      ensures KeptParent(t, chosen, s).None? ==> after[m'[s]].parent == None
      ensures KeptParent(t, chosen, s).Some? ==> after[m'[s]].parent == Some(m'[KeptParent(t, chosen, s).value])
    {
      assert mid[s] == t[s];
      FreshRow(t, mid, after, dest, f, chosen, m', s);
    }
    forall x | x in after && after[x].live && after[x].org == dest ensures exists s | s in chosen :: m'[s] == x {
      OnlyClones(t, mid, after, dest, m, m', x);
    }
  }

  lemma OnlyClones(t: Table, mid: Table, after: Table, dest: OrgId, m: map<AgentId, AgentId>, m': map<AgentId, AgentId>, x: AgentId)
    requires Listing(t, dest, []) && NothingElse(t, mid, m, m') && m == map[]
    requires after.Keys == mid.Keys && x in after && after[x].live && after[x].org == dest
    requires x in t ==> after[x] == t[x]
    ensures exists s | s in m' :: m'[s] == x
  {
  }

  // ---------------------------------------------------------------- no cycles

  /** Mapped agents have mapped parents or none, and those are the images of the kept ones. */
  ghost predicate Carries(t: Table, after: Table, dest: OrgId, m: map<AgentId, AgentId>) {
    && Injective(m)
    && (forall s | s in m :: s in t && m[s] in after)
    && (forall s | s in m && Up(Graph(after), dest, m[s]).Some? ::
          && KeptParent(t, m.Keys, s).Some?
          && after[m[s]].parent == Some(m[KeptParent(t, m.Keys, s).value]))
  }

  /** A path that starts at a mapped agent is the image of a path in the source. */
  lemma {:induction false} PathIsImage(t: Table, after: Table, sourceOrg: OrgId, dest: OrgId, m: map<AgentId, AgentId>, s: AgentId, k: nat)
    returns (z: AgentId)
    requires Carries(t, after, dest, m) && s in m && Ancestor(Graph(after), dest, m[s], k).Some?
    requires forall x | x in m :: t[x].live && t[x].org == sourceOrg
    ensures z in m && Ancestor(Graph(after), dest, m[s], k) == Some(m[z])
    ensures Ancestor(Graph(t), sourceOrg, s, k) == Some(z)
  {
    if k == 0 {
      z := s;
    } else {
      var y := PathIsImage(t, after, sourceOrg, dest, m, s, k - 1);
      z := KeptParent(t, m.Keys, y).value;
    }
  }

  lemma {:induction false} UnmappedPath(a: Agents, b: Agents, dest: OrgId, changed: set<AgentId>, x: AgentId, k: nat)
    requires forall y | y !in changed :: (y in a <==> y in b) && (y in a ==> a[y] == b[y])
    requires forall j: nat, y | j < k && y in changed :: Ancestor(b, dest, x, j) != Some(y)
    ensures Ancestor(a, dest, x, k) == Ancestor(b, dest, x, k)
  {
    if k > 0 {
      UnmappedPath(a, b, dest, changed, x, k - 1);
    }
  }

  lemma NoMappedCycle(t: Table, after: Table, sourceOrg: OrgId, dest: OrgId, m: map<AgentId, AgentId>, s: AgentId, k: nat)
    requires Acyclic(Graph(t), sourceOrg) && k > 0
    requires Carries(t, after, dest, m) && s in m && forall x | x in m :: t[x].live && t[x].org == sourceOrg
    ensures Ancestor(Graph(after), dest, m[s], k) != Some(m[s])
  {
    assert Ancestor(Graph(t), sourceOrg, s, k) != Some(s);
    if Ancestor(Graph(after), dest, m[s], k) == Some(m[s]) {
      var z := PathIsImage(t, after, sourceOrg, dest, m, s, k);
    }
  }

  /**
   * Cloning closes no cycle, whatever the destination already held, as long as no two chosen
   * agents share a row there and a matched agent that is a root among the chosen is a root there.
   */
  lemma CarriedIsAcyclic(t: Table, after: Table, sourceOrg: OrgId, dest: OrgId, m: map<AgentId, AgentId>, rows: set<AgentId>)
    requires Acyclic(Graph(t), sourceOrg) && Acyclic(Graph(t), dest)
    requires Carries(t, after, dest, m) && forall x | x in m :: t[x].live && t[x].org == sourceOrg
    requires forall x :: x in rows <==> exists s | s in m :: m[s] == x
    requires forall y | y !in rows :: (y in t <==> y in after) && (y in t ==> after[y] == t[y])
    ensures Acyclic(Graph(after), dest)
  {
    forall x: AgentId, k: nat | k > 0 ensures Ancestor(Graph(after), dest, x, k) != Some(x) {
      assert Ancestor(Graph(t), dest, x, k) != Some(x);
      if Ancestor(Graph(after), dest, x, k) == Some(x) {
        CycleIsUnmapped(t, after, sourceOrg, dest, m, rows, x, k);
        UnmappedPath(Graph(t), Graph(after), dest, rows, x, k);
      }
    }
  }

  lemma CycleIsUnmapped(t: Table, after: Table, sourceOrg: OrgId, dest: OrgId, m: map<AgentId, AgentId>, rows: set<AgentId>, x: AgentId, k: nat)
    requires Acyclic(Graph(t), sourceOrg) && k > 0
    requires Carries(t, after, dest, m) && forall x | x in m :: t[x].live && t[x].org == sourceOrg
    requires forall x :: x in rows <==> exists s | s in m :: m[s] == x
    requires Ancestor(Graph(after), dest, x, k) == Some(x)
    ensures forall j: nat, y | j < k && y in rows :: Ancestor(Graph(after), dest, x, j) != Some(y)
  {
    forall j: nat, y | j < k && y in rows ensures Ancestor(Graph(after), dest, x, j) != Some(y) {
      if Ancestor(Graph(after), dest, x, j) == Some(y) {
        var s :| s in m && m[s] == y;
        AncestorSplit(Graph(after), dest, x, j, k - j);
        AncestorSplit(Graph(after), dest, y, k - j, j);
        NoMappedCycle(t, after, sourceOrg, dest, m, s, k);
      }
    }
  }

  /** The agents matched by name are different rows, and keep no parent of their own where
      the chosen agents give them none. */
  ghost predicate FitsDestination(t: Table, dest: OrgId, planned: set<AgentId>, m: map<AgentId, AgentId>)
    requires planned <= t.Keys
  {
    Injective(m) && forall s | s in m && s in planned && KeptParent(t, planned, s).None? :: Up(Graph(t), dest, m[s]).None?
  }

  lemma NewIdsInjective(t: Table, mid: Table, dest: OrgId, f: Filter, m: map<AgentId, AgentId>, m': map<AgentId, AgentId>)
    requires Created(t, mid, dest, f.resetScope, m, m') && Injective(m) && forall s | s in m :: m[s] in t
    ensures Injective(m') && forall s | s in m' :: m'[s] in mid
  {
  }

  /** What a mapped agent's row says of the parent before the second pass. */
  lemma RowBeforeEdges(t: Table, mid: Table, dest: OrgId, f: Filter, m: map<AgentId, AgentId>, m': map<AgentId, AgentId>, s: AgentId)
    requires Created(t, mid, dest, f.resetScope, m, m') && s in m' && s in t && (s in m ==> m[s] in t)
    ensures s in mid && mid[s] == t[s] && m'[s] in mid
    ensures if s in m then m'[s] == m[s] && mid[m'[s]] == t[m[s]] else mid[m'[s]].parent == None
  {
  }

  lemma CarriesParent(t: Table, mid: Table, after: Table, dest: OrgId, m': map<AgentId, AgentId>, s: AgentId)
    requires m'.Keys <= mid.Keys && Reparented(mid, after, m', m'.Keys) && s in m' && s in t && mid[s] == t[s] && m'[s] in mid
    requires KeptParent(t, m'.Keys, s).None? ==> Up(Graph(mid), dest, m'[s]).None?
    requires Up(Graph(after), dest, m'[s]).Some?
    ensures KeptParent(t, m'.Keys, s).Some? && after[m'[s]].parent == Some(m'[KeptParent(t, m'.Keys, s).value])
  {
  }

  lemma ClonesCarry(t: Table, mid: Table, after: Table, dest: OrgId, f: Filter, m: map<AgentId, AgentId>, m': map<AgentId, AgentId>)
    requires Created(t, mid, dest, f.resetScope, m, m') && m'.Keys <= t.Keys && FitsDestination(t, dest, m'.Keys, m)
    requires forall s | s in m :: m[s] in t
    requires m'.Keys <= mid.Keys && Reparented(mid, after, m', m'.Keys)
    ensures Carries(t, after, dest, m')
  {
    NewIdsInjective(t, mid, dest, f, m, m');
    forall s | s in m' && Up(Graph(after), dest, m'[s]).Some?
      ensures KeptParent(t, m'.Keys, s).Some? && after[m'[s]].parent == Some(m'[KeptParent(t, m'.Keys, s).value])
    {
      RowBeforeEdges(t, mid, dest, f, m, m', s);
      CarriesParent(t, mid, after, dest, m', s);
    }
  }

  /** Rows that no chosen agent is mapped to stay as they were. */
  lemma OtherRowsStay(t: Table, mid: Table, after: Table, m: map<AgentId, AgentId>, m': map<AgentId, AgentId>, y: AgentId)
    requires NothingElse(t, mid, m, m') && m'.Keys <= mid.Keys && Reparented(mid, after, m', m'.Keys)
    requires forall s | s in m' :: m'[s] != y
    ensures (y in t <==> y in after) && (y in t ==> after[y] == t[y])
  {
  }

  /** The service keeps the destination acyclic if the matches fit it. */
  lemma CloneKeepsAcyclic(t: Table, after: Table, sourceOrg: OrgId, dest: OrgId, f: Filter, source: seq<AgentId>, existing: seq<AgentId>,
                          m: map<AgentId, AgentId>, m': map<AgentId, AgentId>)
    requires Listing(t, sourceOrg, source) && Listing(t, dest, existing)
    requires Acyclic(Graph(t), sourceOrg) && Acyclic(Graph(t), dest)
    requires Clones(t, after, dest, f, source, existing, m, m')
    requires FitsDestination(t, dest, Elements(Planned(t, f, source)), m)
    ensures Acyclic(Graph(after), dest)
  {
    var planned := Planned(t, f, source);
    var mid :| ClonesBy(t, mid, after, dest, f, source, existing, m, m');
    PlannedHas(t, f, source);
    MatchesAreInside(t, existing, planned, m);
    NewIdsInjective(t, mid, dest, f, m, m');
    EdgesReparent(mid, m', planned);
    ClonesCarry(t, mid, after, dest, f, m, m');
    var rows := set s | s in m' :: m'[s];
    forall y | y !in rows ensures (y in t <==> y in after) && (y in t ==> after[y] == t[y]) {
      OtherRowsStay(t, mid, after, m, m', y);
    }
    CarriedIsAcyclic(t, after, sourceOrg, dest, m', rows);
  }

  /** In particular a fresh organization gets an acyclic hierarchy. */
  lemma FreshCloneIsAcyclic(t: Table, after: Table, sourceOrg: OrgId, dest: OrgId, f: Filter, source: seq<AgentId>,
                            m: map<AgentId, AgentId>, m': map<AgentId, AgentId>)
    requires Listing(t, sourceOrg, source) && Listing(t, dest, [])
    requires Acyclic(Graph(t), sourceOrg) && Clones(t, after, dest, f, source, [], m, m')
    ensures Acyclic(Graph(after), dest)
  {
    var nobody: seq<AgentId> := [];
    forall x: AgentId, k: nat | k > 0 ensures Ancestor(Graph(t), dest, x, k) != Some(x) {
      assert x !in nobody;
      if Ancestor(Graph(t), dest, x, k).Some? {
        AncestorsBefore(Graph(t), dest, x, 0, k);
      }
    }
    FreshCloneIsIsomorphic(t, after, dest, f, source, sourceOrg, m, m');
    CloneKeepsAcyclic(t, after, sourceOrg, dest, f, source, [], m, m');
  }

  // ---------------------------------------------------------------- the second run

  ghost predicate DistinctNames(t: Table, planned: set<AgentId>)
    requires planned <= t.Keys
  {
    forall a, b | a in planned && b in planned && a != b :: t[a].name != t[b].name
  }

  /** On what a fresh clone left, the match by name finds the same ids again. */
  lemma SecondMatch(t: Table, after: Table, sourceOrg: OrgId, dest: OrgId, f: Filter, planned: seq<AgentId>, existing: seq<AgentId>,
                    first: map<AgentId, AgentId>, m: map<AgentId, AgentId>)
    requires (forall s | s in planned :: s in t && s in after) && DistinctNames(t, Elements(planned))
    requires Isomorphic(t, after, dest, f, Elements(planned), first)
    requires Listing(after, dest, existing) && MatchedByName(after, existing, planned, m)
    ensures m == first
  {
    forall s | s in planned ensures s in m && m[s] == first[s] {
      assert after[first[s]].live && after[first[s]].org == dest && after[first[s]].name == t[s].name;
      assert first[s] in existing;
      var found := LastNamed(after, existing, after[s].name);
      assert found.Some?;
      var z :| z in Elements(planned) && first[z] == found.value;
      assert t[z].name == t[s].name;
    }
  }

  /** Applying edges that are already there changes nothing. */
  lemma {:induction false} SameEdgesAgain(t: Table, m: map<AgentId, AgentId>, planned: seq<AgentId>)
    requires forall s | s in planned :: s in t
    requires forall s | s in planned && EdgeOf(t, m, s).Some? :: m[s] in t && t[m[s]].parent == Some(EdgeOf(t, m, s).value.parent)
    ensures Applied(t, Edges(t, m, planned)) == t
  {
    if planned != [] {
      var n := |planned| - 1;
      SameEdgesAgain(t, m, planned[..n]);
      AppliedStep(t, Edges(t, m, planned[..n]), EdgeOf(t, m, planned[n]));
    }
  }

  /** A second run over an unchanged source finds every agent, creates none, and reapplies the
      edges that are there. */
  lemma SecondRunChangesNothing(t: Table, after: Table, again: Table, sourceOrg: OrgId, dest: OrgId, f: Filter, source: seq<AgentId>,
                                existing: seq<AgentId>, m1: map<AgentId, AgentId>, m1': map<AgentId, AgentId>,
                                m2: map<AgentId, AgentId>, m2': map<AgentId, AgentId>)
    requires sourceOrg != dest && Listing(t, sourceOrg, source) && Listing(t, dest, [])
    requires Clones(t, after, dest, f, source, [], m1, m1')
    requires DistinctNames(t, Elements(Planned(t, f, source)))
    requires Listing(after, sourceOrg, source) && Listing(after, dest, existing)
    requires Clones(after, again, dest, f, source, existing, m2, m2')
    ensures again == after && m2 == m2' == m1'
    ensures |m2| == |Planned(after, f, source)|
  {
    var planned := Planned(t, f, source);
    FreshCloneIsIsomorphic(t, after, dest, f, source, sourceOrg, m1, m1');
    PlannedHas(t, f, source);
    SamePlan(t, after, f, source);
    var mid :| ClonesBy(after, mid, again, dest, f, source, existing, m2, m2');
    SecondMatch(t, after, sourceOrg, dest, f, planned, existing, m1', m2);
    NothingCreatedTwice(after, mid, dest, f, m2, m2');
    EdgesAreThere(t, after, dest, f, planned, m1');
    DistinctCount(planned);
  }

  lemma EdgesAreThere(t: Table, after: Table, dest: OrgId, f: Filter, planned: seq<AgentId>, m: map<AgentId, AgentId>)
    requires (forall s | s in planned :: s in t && s in after && after[s] == t[s])
    requires Isomorphic(t, after, dest, f, Elements(planned), m)
    ensures Applied(after, Edges(after, m, planned)) == after
  {
    forall s | s in planned && EdgeOf(after, m, s).Some?
      ensures m[s] in after && after[m[s]].parent == Some(EdgeOf(after, m, s).value.parent)
    {
      assert s in Elements(planned);
      assert KeptParent(t, Elements(planned), s) == t[s].parent;
    }
    SameEdgesAgain(after, m, planned);
  }

  lemma {:induction false} SameSelection(t: Table, t': Table, f: Filter, kind: Kind, source: seq<AgentId>)
    requires forall x | x in source :: x in t && x in t' && t'[x] == t[x]
    ensures SelectedOf(t, f, kind, source) == SelectedOf(t', f, kind, source)
  {
    if source != [] {
      SameSelection(t, t', f, kind, source[1..]);
    }
  }

  lemma SamePlan(t: Table, t': Table, f: Filter, source: seq<AgentId>)
    requires forall x | x in source :: x in t && x in t' && t'[x] == t[x]
    ensures Planned(t, f, source) == Planned(t', f, source)
  {
    SameSelection(t, t', f, Orchestrator, source);
    SameSelection(t, t', f, Worker, source);
  }

  lemma NothingCreatedTwice(t: Table, mid: Table, dest: OrgId, f: Filter, m: map<AgentId, AgentId>, m': map<AgentId, AgentId>)
    requires Created(t, mid, dest, f.resetScope, m, m') && m'.Keys == m.Keys
    ensures m' == m && mid == t
  {
  }
}
