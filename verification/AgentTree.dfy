/**
 * The hierarchy of agents: who reports to whom. A new parent is accepted after a walk up its
 * ancestors, of 50 steps at most, has not met the agent itself.
 */
module AgentTree {
  import opened Options

  type AgentId = nat
  type OrgId = nat

  const MAX_STEPS: nat := 50

  datatype Agent = Agent(org: OrgId, parent: Option<AgentId>, live: bool)

  type Agents = map<AgentId, Agent>

  // ---------------------------------------------------------------- ancestors

  predicate LiveIn(agents: Agents, org: OrgId, x: AgentId) {
    x in agents && agents[x].live && agents[x].org == org
  }

  /** The parent as the walk reads it: only rows of live agents of the organization count. */
  function Up(agents: Agents, org: OrgId, x: AgentId): Option<AgentId> {
    if LiveIn(agents, org, x) then agents[x].parent else None
  }

  /** The k-th ancestor. */
  function Ancestor(agents: Agents, org: OrgId, x: AgentId, k: nat): Option<AgentId> {
    if k == 0 then Some(x)
    else if Ancestor(agents, org, x, k - 1).None? then None
    else Up(agents, org, Ancestor(agents, org, x, k - 1).value)
  }

  ghost predicate Reaches(agents: Agents, org: OrgId, x: AgentId, y: AgentId) {
    exists k: nat :: Ancestor(agents, org, x, k) == Some(y)
  }

  ghost predicate ReachesWithin(agents: Agents, org: OrgId, x: AgentId, y: AgentId, n: nat) {
    exists k: nat | k <= n :: Ancestor(agents, org, x, k) == Some(y)
  }

  /** No agent is its own ancestor. */
  ghost predicate Acyclic(agents: Agents, org: OrgId) {
    forall x: AgentId, k: nat | k > 0 :: Ancestor(agents, org, x, k) != Some(x)
  }

  ghost predicate Closed(agents: Agents) {
    forall x | x in agents && agents[x].parent.Some? :: agents[x].parent.value in agents
  }

  lemma {:induction false} AncestorSplit(agents: Agents, org: OrgId, x: AgentId, j: nat, k: nat)
    requires Ancestor(agents, org, x, j).Some?
    ensures Ancestor(agents, org, x, j + k) == Ancestor(agents, org, Ancestor(agents, org, x, j).value, k)
  {
    if k > 0 {
      AncestorSplit(agents, org, x, j, k - 1);
    }
  }

  lemma {:induction false} AncestorsBefore(agents: Agents, org: OrgId, x: AgentId, j: nat, k: nat)
    requires j <= k && Ancestor(agents, org, x, k).Some?
    ensures Ancestor(agents, org, x, j).Some?
    ensures j < k ==> LiveIn(agents, org, Ancestor(agents, org, x, j).value)
    decreases k
  {
    if j < k {
      AncestorsBefore(agents, org, x, j, k - 1);
    }
  }

  // ---------------------------------------------------------------- the walk

  /** Once the walk meets an agent again, it will never meet a new one. */
  lemma {:induction false} NothingNew(agents: Agents, org: OrgId, x: AgentId, e: nat, d: nat, k: nat) returns (j: nat)
    requires e < d && Ancestor(agents, org, x, e).Some? && Ancestor(agents, org, x, e) == Ancestor(agents, org, x, d)
    requires k > 0
    ensures 0 < j <= d && Ancestor(agents, org, x, k) == Ancestor(agents, org, x, j)
  {
    if k <= d {
      j := k;
    } else {
      var i := NothingNew(agents, org, x, e, d, k - 1);
      j := if i == d then e + 1 else i + 1;
      assert Ancestor(agents, org, x, k - 1) == Ancestor(agents, org, x, j - 1);
    }
  }

  /** The loop of isDescendantOf: true exactly when `ancestor` is among the 50 nearest
      ancestors of `candidate`, also on a graph that already has cycles. */
  method IsDescendantOf(agents: Agents, org: OrgId, candidate: AgentId, ancestor: AgentId) returns (found: bool)
    requires candidate != ancestor
    ensures found <==> ReachesWithin(agents, org, candidate, ancestor, 50)
  {
    var cursor := candidate;
    var visited: set<AgentId> := {};
    for depth := 0 to MAX_STEPS
      invariant Ancestor(agents, org, candidate, depth) == Some(cursor)
      invariant forall k: nat | k <= depth :: Ancestor(agents, org, candidate, k) != Some(ancestor)
      invariant forall y | y in visited :: exists k: nat | k < depth :: Ancestor(agents, org, candidate, k) == Some(y)
    {
      if cursor in visited {
        var e: nat :| e < depth && Ancestor(agents, org, candidate, e) == Some(cursor);
        forall k: nat ensures Ancestor(agents, org, candidate, k) != Some(ancestor) {
          if k > 0 {
            var j := NothingNew(agents, org, candidate, e, depth, k);
          }
        }
        return false;
      }
      visited := visited + {cursor};
      assert Ancestor(agents, org, candidate, depth + 1) == Up(agents, org, cursor);
      if Up(agents, org, cursor).None? {
        StopsHere(agents, org, candidate, depth, ancestor);
        return false;
      }
      if Up(agents, org, cursor) == Some(ancestor) {
        return true;
      }
      cursor := Up(agents, org, cursor).value;
    }
    found := false;
  }

  lemma StopsHere(agents: Agents, org: OrgId, x: AgentId, depth: nat, y: AgentId)
    requires Ancestor(agents, org, x, depth + 1).None?
    requires forall k: nat | k <= depth :: Ancestor(agents, org, x, k) != Some(y)
    ensures !Reaches(agents, org, x, y)
  {
    forall k: nat ensures Ancestor(agents, org, x, k) != Some(y) {
      if k > depth && Ancestor(agents, org, x, k).Some? {
        AncestorsBefore(agents, org, x, depth + 1, k);
      }
    }
  }

  // ---------------------------------------------------------------- what a new parent does

  /** The two tables differ in the row of `id` at most. */
  ghost predicate SameBut(a: Agents, b: Agents, id: AgentId) {
    forall x | x != id :: (x in a <==> x in b) && (x in a ==> a[x] == b[x])
  }

  /** The first `n` agents of the path from `x` are not `y`. */
  ghost predicate Avoids(agents: Agents, org: OrgId, x: AgentId, y: AgentId, n: nat) {
    forall j: nat | j < n :: Ancestor(agents, org, x, j) != Some(y)
  }

  /** Until a path meets the agent that changes, it is the same before and after. */
  lemma {:induction false} SamePath(a: Agents, b: Agents, org: OrgId, id: AgentId, x: AgentId, k: nat)
    requires SameBut(a, b, id) && Avoids(a, org, x, id, k)
    ensures Ancestor(b, org, x, k) == Ancestor(a, org, x, k)
  {
    if k > 0 {
      SamePath(a, b, org, id, x, k - 1);
    }
  }

  /** The first time a path comes to `y`. */
  lemma {:induction false} FirstVisit(agents: Agents, org: OrgId, x: AgentId, y: AgentId, k: nat) returns (j: nat)
    requires Ancestor(agents, org, x, k) == Some(y)
    ensures j <= k && Ancestor(agents, org, x, j) == Some(y) && Avoids(agents, org, x, y, j)
  {
    if i: nat :| i < k && Ancestor(agents, org, x, i) == Some(y) {
      j := FirstVisit(agents, org, x, y, i);
    } else {
      j := k;
    }
  }

  /** Who reaches the changed agent in one table reaches it in the other. */
  lemma SameReach(a: Agents, b: Agents, org: OrgId, id: AgentId, x: AgentId)
    requires SameBut(a, b, id) && Reaches(a, org, x, id)
    ensures Reaches(b, org, x, id)
  {
    var k: nat :| Ancestor(a, org, x, k) == Some(id);
    var j := FirstVisit(a, org, x, id, k);
    SamePath(a, b, org, id, x, j);
  }

  /** A table that differs from an acyclic one in a single row has no cycle but through it. */
  lemma CycleGoesThrough(a: Agents, b: Agents, org: OrgId, id: AgentId, x: AgentId, k: nat) returns (j: nat)
    requires SameBut(a, b, id) && Acyclic(a, org) && k > 0 && Ancestor(b, org, x, k) == Some(x)
    ensures 0 < j && Ancestor(b, org, id, j) == Some(id)
  {
    if Avoids(b, org, x, id, k) {
      SamePath(b, a, org, id, x, k);
      assert false;
    }
    var i: nat :| i < k && Ancestor(b, org, x, i) == Some(id);
    AncestorSplit(b, org, x, i, k - i);
    AncestorSplit(b, org, id, k - i, i);
    j := k;
  }

  /** Giving `id` the parent `p` closes a cycle exactly when `id` is an ancestor of `p`, or `p` itself. */
  lemma NewParentClosesExactly(agents: Agents, org: OrgId, id: AgentId, p: AgentId)
    requires Acyclic(agents, org) && LiveIn(agents, org, id)
    ensures Acyclic(agents[id := agents[id].(parent := Some(p))], org) <==> !Reaches(agents, org, p, id)
  {
    var after := agents[id := agents[id].(parent := Some(p))];
    assert Ancestor(after, org, id, 0) == Some(id);
    assert Ancestor(after, org, id, 1) == Some(p);
    if Reaches(agents, org, p, id) {
      SameReach(agents, after, org, id, p);
      var j: nat :| Ancestor(after, org, p, j) == Some(id);
      AncestorSplit(after, org, id, 1, j);
      assert Ancestor(after, org, id, 1 + j) == Some(id);
    } else {
      forall x: AgentId, k: nat | k > 0 ensures Ancestor(after, org, x, k) != Some(x) {
        if Ancestor(after, org, x, k) == Some(x) {
          var j := CycleGoesThrough(agents, after, org, id, x, k);
          AncestorSplit(after, org, id, 1, j - 1);
          assert Reaches(after, org, p, id);
          SameReach(after, agents, org, id, p);
        }
      }
    }
  }

  /** An agent that loses its parent, or dies, closes no cycle. */
  lemma RootClosesNothing(a: Agents, b: Agents, org: OrgId, id: AgentId)
    requires SameBut(a, b, id) && Acyclic(a, org) && Up(b, org, id).None?
    ensures Acyclic(b, org)
  {
    forall x: AgentId, k: nat | k > 0 ensures Ancestor(b, org, x, k) != Some(x) {
      if Ancestor(b, org, x, k) == Some(x) {
        var j := CycleGoesThrough(a, b, org, id, x, k);
        AncestorsBefore(b, org, id, 1, j);
      }
    }
  }

  /** Nor does an agent nobody reports to yet. */
  lemma NewcomerClosesNothing(a: Agents, b: Agents, org: OrgId, id: AgentId)
    requires SameBut(a, b, id) && Acyclic(a, org) && Closed(a) && id !in a
    requires id in b && b[id].parent.Some? ==> b[id].parent.value in a
    ensures Acyclic(b, org)
  {
    forall x: AgentId, k: nat | k > 0 ensures Ancestor(b, org, x, k) != Some(x) {
      if Ancestor(b, org, x, k) == Some(x) {
        var j := CycleGoesThrough(a, b, org, id, x, k);
        NeverComesBack(a, b, org, id, id, j);
      }
    }
  }

  lemma {:induction false} NeverComesBack(a: Agents, b: Agents, org: OrgId, id: AgentId, x: AgentId, k: nat)
    requires SameBut(a, b, id) && Closed(a) && id !in a && k > 0
    requires id in b && b[id].parent.Some? ==> b[id].parent.value in a
    ensures Ancestor(b, org, x, k) != Some(id)
  {
  }

  // ---------------------------------------------------------------- the bound

  ghost function LiveAgents(agents: Agents, org: OrgId): set<AgentId> {
    set x | x in agents && agents[x].live && agents[x].org == org
  }

  /** The agents on the way from `x` to its k-th ancestor. */
  ghost function Chain(agents: Agents, org: OrgId, x: AgentId, k: nat): set<AgentId> {
    set j | 0 <= j <= k && Ancestor(agents, org, x, j).Some? :: Ancestor(agents, org, x, j).value
  }

  /** In an acyclic graph they are all different. */
  lemma {:induction false} ChainIsLong(agents: Agents, org: OrgId, x: AgentId, k: nat)
    requires Acyclic(agents, org) && Ancestor(agents, org, x, k).Some?
    ensures |Chain(agents, org, x, k)| == k + 1
  {
    var last := Ancestor(agents, org, x, k).value;
    if k == 0 {
      assert Chain(agents, org, x, 0) == {x};
    } else {
      AncestorsBefore(agents, org, x, k - 1, k);
      ChainIsLong(agents, org, x, k - 1);
      var shorter := Chain(agents, org, x, k - 1);
      forall j: nat | j < k ensures Ancestor(agents, org, x, j) != Some(last) {
        if Ancestor(agents, org, x, j) == Some(last) {
          AncestorSplit(agents, org, x, j, k - j);
        }
      }
      assert last !in shorter;
      assert Chain(agents, org, x, k) == shorter + {last};
    }
  }

  /** With at most 51 live agents every ancestor is near enough for the walk. */
  lemma SmallOrgIsNear(agents: Agents, org: OrgId, x: AgentId, y: AgentId)
    requires Acyclic(agents, org) && |LiveAgents(agents, org)| <= 51
    requires LiveIn(agents, org, y) && Reaches(agents, org, x, y)
    ensures ReachesWithin(agents, org, x, y, 50)
  {
    var k: nat :| Ancestor(agents, org, x, k) == Some(y);
    ChainIsLong(agents, org, x, k);
    forall z | z in Chain(agents, org, x, k) ensures z in LiveAgents(agents, org) {
      var j: nat :| j <= k && Ancestor(agents, org, x, j) == Some(z);
      AncestorsBefore(agents, org, x, j, k);
    }
    Fewer(Chain(agents, org, x, k), LiveAgents(agents, org));
  }

  lemma {:induction false} Fewer<T>(a: set<T>, b: set<T>)
    requires a <= b
    ensures |a| <= |b|
  {
    assert b == a + (b - a);
  }
}
