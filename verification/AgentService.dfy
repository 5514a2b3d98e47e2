/**
 * Creating, editing and retiring agents, and what every run of these operations keeps.
 */
module AgentService {
  import opened Options
  import opened AgentTree
  import opened Ids

  /** What an update asks of the parent: leave it, or set it, possibly to nobody. */
  datatype NewParent = Unchanged | SetTo(parent: Option<AgentId>)

  datatype Op =
    | Create(org: OrgId, id: AgentId, parent: Option<AgentId>)
    | Update(org: OrgId, id: AgentId, change: NewParent, handleTaken: bool)
    | Retire(org: OrgId, id: AgentId)

  datatype Outcome = Done | NotFound | BadRequest | Conflict

  ghost function Verdict(agents: Agents, op: Op): Outcome {
    match op
    case Create(org, id, parent) =>
      if parent.Some? && !LiveIn(agents, org, parent.value) then BadRequest else Done
    case Update(org, id, change, handleTaken) =>
      if !LiveIn(agents, org, id) then NotFound
      else if change.SetTo? && change.parent.Some? && change.parent.value == id then BadRequest
      else if change.SetTo? && change.parent.Some? && !LiveIn(agents, org, change.parent.value) then BadRequest
      else if change.SetTo? && change.parent.Some? && ReachesWithin(agents, org, change.parent.value, id, MAX_STEPS) then BadRequest
      else if handleTaken then Conflict
      else Done
    case Retire(org, id) => if LiveIn(agents, org, id) then Done else NotFound
  }

  function Edited(a: Agent, change: NewParent): Agent {
    if change.SetTo? then a.(parent := change.parent) else a
  }

  ghost function Apply(agents: Agents, op: Op): Agents {
    if Verdict(agents, op) != Done then agents
    else match op
      case Create(org, id, parent) => agents[id := Agent(org, parent, true)]
      case Update(org, id, change, _) => agents[id := Edited(agents[id], change)]
      case Retire(org, id) => agents[id := agents[id].(live := false)]
  }

  ghost predicate FreshId(agents: Agents, op: Op) {
    op.Create? ==> op.id !in agents
  }

  // ---------------------------------------------------------------- one operation

  lemma ApplyKeepsClosed(agents: Agents, op: Op)
    requires Closed(agents) && FreshId(agents, op)
    ensures Closed(Apply(agents, op))
  {
  }

  /** The operation sets a parent that has the agent among its ancestors, too far up to be seen. */
  ghost predicate ClosesUnseen(agents: Agents, org: OrgId, op: Op) {
    && op.Update? && op.org == org && Verdict(agents, op) == Done
    && op.change.SetTo? && op.change.parent.Some?
    && Reaches(agents, org, op.change.parent.value, op.id)
  }

  /** An operation keeps the hierarchy free of cycles unless it closes one beyond the 50 steps
      the walk takes; and then it does not. */
  lemma KeepsAcyclicExactly(agents: Agents, org: OrgId, op: Op)
    requires Acyclic(agents, org) && Closed(agents) && FreshId(agents, op)
    ensures Acyclic(Apply(agents, op), org) <==> !ClosesUnseen(agents, org, op)
  {
    var after := Apply(agents, op);
    if Verdict(agents, op) == Done {
      match op {
        case Create(_, id, _) => NewcomerClosesNothing(agents, after, org, id);
        case Retire(_, id) => RootClosesNothing(agents, after, org, id);
        case Update(o, id, change, _) =>
          if o != org {
            assert Up(after, org, id).None?;
            RootClosesNothing(agents, after, org, id);
          } else if change.SetTo? && change.parent.Some? {
            NewParentClosesExactly(agents, org, id, change.parent.value);
          } else if change.SetTo? {
            RootClosesNothing(agents, after, org, id);
          } else {
            assert after == agents;
          }
      }
    }
  }

  lemma SmallOrgKeepsAcyclic(agents: Agents, org: OrgId, op: Op)
    requires Acyclic(agents, org) && Closed(agents) && FreshId(agents, op)
    requires |LiveAgents(agents, org)| <= 51
    ensures Acyclic(Apply(agents, op), org)
  {
    KeepsAcyclicExactly(agents, org, op);
    if ClosesUnseen(agents, org, op) {
      SmallOrgIsNear(agents, org, op.change.parent.value, op.id);
    }
  }

  // ---------------------------------------------------------------- whole runs

  ghost function Run(agents: Agents, ops: seq<Op>): Agents
    decreases ops
  {
    if ops == [] then agents else Run(Apply(agents, ops[0]), ops[1..])
  }

  ghost predicate FreshIds(agents: Agents, ops: seq<Op>)
    decreases ops
  {
    ops != [] ==> FreshId(agents, ops[0]) && FreshIds(Apply(agents, ops[0]), ops[1..])
  }

  /** The organization never has more than 51 live agents before an operation. */
  ghost predicate StaysSmall(agents: Agents, org: OrgId, ops: seq<Op>)
    decreases ops
  {
    ops != [] ==> |LiveAgents(agents, org)| <= 51 && StaysSmall(Apply(agents, ops[0]), org, ops[1..])
  }

  lemma {:induction false} RunKeepsAcyclic(agents: Agents, org: OrgId, ops: seq<Op>)
    requires Acyclic(agents, org) && Closed(agents) && FreshIds(agents, ops) && StaysSmall(agents, org, ops)
    ensures Acyclic(Run(agents, ops), org)
    decreases ops
  {
    if ops != [] {
      SmallOrgKeepsAcyclic(agents, org, ops[0]);
      ApplyKeepsClosed(agents, ops[0]);
      RunKeepsAcyclic(Apply(agents, ops[0]), org, ops[1..]);
    }
  }

  /** Every run from nothing keeps the hierarchy of a small organization acyclic. */
  lemma EveryRunIsAcyclic(org: OrgId, ops: seq<Op>)
    requires FreshIds(map[], ops) && StaysSmall(map[], org, ops)
    ensures Acyclic(Run(map[], ops), org)
  {
    forall x: AgentId, k: nat | k > 0 ensures Ancestor(map[], org, x, k) != Some(x) {
      if Ancestor(map[], org, x, k).Some? {
        AncestorsBefore(map[], org, x, 0, k);
      }
    }
    RunKeepsAcyclic(map[], org, ops);
  }

  // ---------------------------------------------------------------- where it fails

  function InLine(x: AgentId): Agent {
    Agent(0, if x == 0 then None else Some(x - 1), true)
  }

  /** `n` agents in a line: 0 at the top, each of the others under the one before. */
  function Line(n: nat): Agents {
    map x: AgentId | 0 <= x < n :: InLine(x)
  }

  lemma {:induction false} LineAncestors(n: nat, x: AgentId, k: nat)
    requires x < n
    ensures Ancestor(Line(n), 0, x, k) == if k <= x then Some(x - k) else None
  {
    if k > 0 {
      LineAncestors(n, x, k - 1);
    }
  }

  lemma LineIsAcyclic(n: nat)
    ensures Acyclic(Line(n), 0) && Closed(Line(n))
  {
    forall x: AgentId, k: nat | k > 0 ensures Ancestor(Line(n), 0, x, k) != Some(x) {
      if x < n {
        LineAncestors(n, x, k);
      } else if Ancestor(Line(n), 0, x, k).Some? {
        AncestorsBefore(Line(n), 0, x, 0, k);
      }
    }
  }

  /** Putting the top of a line under its bottom closes a cycle, and is accepted exactly when
      the line has more than 51 agents. */
  lemma LongLineClosesExactly(n: nat)
    requires n >= 2
    ensures (
      var op := Update(0, 0, SetTo(Some(n - 1)), false);
      && Acyclic(Line(n), 0)
      && (Verdict(Line(n), op) == Done <==> n > 51)
      && (Acyclic(Apply(Line(n), op), 0) <==> n <= 51))
  {
    var op := Update(0, 0, SetTo(Some(n - 1)), false);
    LineIsAcyclic(n);
    LineAncestors(n, n - 1, n - 1);
    assert Reaches(Line(n), 0, n - 1, 0);
    if ReachesWithin(Line(n), 0, n - 1, 0, MAX_STEPS) {
      var k: nat :| k <= MAX_STEPS && Ancestor(Line(n), 0, n - 1, k) == Some(0);
      LineAncestors(n, n - 1, k);
    }
    assert ReachesWithin(Line(n), 0, n - 1, 0, MAX_STEPS) <==> n - 1 <= MAX_STEPS;
    KeepsAcyclicExactly(Line(n), 0, op);
  }

  function LineOps(n: nat): seq<Op> {
    seq(n, x requires 0 <= x < n => Create(0, x, if x == 0 then None else Some(x - 1)))
  }

  lemma {:induction false} RunAppends(agents: Agents, ops: seq<Op>, op: Op)
    ensures Run(agents, ops + [op]) == Apply(Run(agents, ops), op)
    decreases ops
  {
    if ops == [] {
      assert ([] + [op])[1..] == [];
    } else {
      assert (ops + [op])[1..] == ops[1..] + [op];
      RunAppends(Apply(agents, ops[0]), ops[1..], op);
    }
  }

  /** Such lines come about by creating agents one below the other. */
  lemma {:induction false} LineIsReachable(n: nat)
    ensures Run(map[], LineOps(n)) == Line(n)
  {
    if n == 0 {
      assert LineOps(0) == [];
      assert Line(0) == map[];
    } else {
      var last := Create(0, n - 1, if n == 1 then None else Some(n - 2));
      LineIsReachable(n - 1);
      assert LineOps(n) == LineOps(n - 1) + [last];
      RunAppends(map[], LineOps(n - 1), last);
      assert Line(n) == Line(n - 1)[n - 1 := Agent(0, last.parent, true)];
    }
  }

  // ---------------------------------------------------------------- updates checked on an older table

  /** Writing a parent without a check: it closes no cycle exactly when the agent is gone, or the
      parent does not have it among its ancestors. */
  lemma LateWriteClosesExactly(now: Agents, org: OrgId, id: AgentId, p: AgentId)
    requires id in now && Acyclic(now, org)
    ensures Acyclic(now[id := now[id].(parent := Some(p))], org) <==> !(LiveIn(now, org, id) && Reaches(now, org, p, id))
  {
    if LiveIn(now, org, id) {
      NewParentClosesExactly(now, org, id, p);
    } else {
      RootClosesNothing(now, now[id := now[id].(parent := Some(p))], org, id);
    }
  }

  /** The operation puts `p`, or an agent above it, under `y`, or under an agent below it. */
  ghost predicate Joins(agents: Agents, org: OrgId, op: Op, p: AgentId, y: AgentId) {
    && op.Update? && op.org == org && Verdict(agents, op) == Done && op.change.SetTo? && op.change.parent.Some?
    && Reaches(agents, org, p, op.id) && Reaches(agents, org, op.change.parent.value, y)
  }

  lemma SamePathReaches(a: Agents, b: Agents, org: OrgId, id: AgentId, x: AgentId, y: AgentId, k: nat)
    requires SameBut(a, b, id) && Ancestor(b, org, x, k) == Some(y) && Avoids(b, org, x, id, k)
    ensures Reaches(a, org, x, y)
  {
    SamePath(b, a, org, id, x, k);
  }

  lemma ReachesHere(agents: Agents, org: OrgId, x: AgentId, y: AgentId, k: nat)
    requires Ancestor(agents, org, x, k) == Some(y)
    ensures Reaches(agents, org, x, y)
  {
  }

  /** A new ancestor is reached through the row that changed, and on from its new parent. */
  lemma NewReachGoesThrough(a: Agents, b: Agents, org: OrgId, id: AgentId, p: AgentId, y: AgentId)
    requires SameBut(a, b, id) && !Reaches(a, org, p, y) && Reaches(b, org, p, y)
    ensures Reaches(a, org, p, id) && id != y && Up(b, org, id).Some? && Reaches(a, org, Up(b, org, id).value, y)
  {
    var k: nat :| Ancestor(b, org, p, k) == Some(y);
    if Avoids(b, org, p, id, k) {
      SamePathReaches(a, b, org, id, p, y, k);
    }
    var i: nat :| i < k && Ancestor(b, org, p, i) == Some(id);
    ReachesHere(b, org, p, id, i);
    SameReach(b, a, org, id, p);
    assert id != y;
    AncestorSplit(b, org, p, i, k - i);
    assert Ancestor(b, org, id, k - i) == Some(y);
    BehindTheRow(a, b, org, id, y, k - i);
  }

  /** From the changed row a path to another agent leaves for good over the new parent. */
  lemma {:induction false} BehindTheRow(a: Agents, b: Agents, org: OrgId, id: AgentId, y: AgentId, k: nat)
    requires SameBut(a, b, id) && id != y && Ancestor(b, org, id, k) == Some(y)
    ensures Up(b, org, id).Some? && Reaches(a, org, Up(b, org, id).value, y)
  {
    assert Ancestor(b, org, id, 0) == Some(id);
    AncestorsBefore(b, org, id, 1, k);
    assert Ancestor(b, org, id, 1) == Up(b, org, id);
    var up := Up(b, org, id).value;
    AncestorSplit(b, org, id, 1, k - 1);
    if Avoids(b, org, up, id, k - 1) {
      SamePathReaches(a, b, org, id, up, y, k - 1);
    } else {
      var i: nat :| i < k - 1 && Ancestor(b, org, up, i) == Some(id);
      AncestorSplit(b, org, up, i, k - 1 - i);
      BehindTheRow(a, b, org, id, y, k - 1 - i);
    }
  }

  lemma {:induction false} NobodyAbsent(agents: Agents, org: OrgId, x: AgentId, y: AgentId, k: nat)
    requires Closed(agents) && x in agents && Ancestor(agents, org, x, k) == Some(y)
    ensures y in agents
    decreases k
  {
    if k > 0 {
      NobodyAbsent(agents, org, x, Ancestor(agents, org, x, k - 1).value, k - 1);
    }
  }

  /** No other operation makes an agent an ancestor. */
  lemma ReachedOnlyByJoining(agents: Agents, org: OrgId, op: Op, p: AgentId, y: AgentId)
    requires Closed(agents) && FreshId(agents, op) && p in agents
    requires !Reaches(agents, org, p, y) && Reaches(Apply(agents, op), org, p, y)
    ensures Joins(agents, org, op, p, y)
  {
    var after := Apply(agents, op);
    assert op.Update? && op.change.Unchanged? ==> after == agents;
    NewReachGoesThrough(agents, after, org, op.id, p, y);
    if op.Create? {
      var k: nat :| Ancestor(agents, org, p, k) == Some(op.id);
      NobodyAbsent(agents, org, p, op.id, k);
    }
  }

  /** The table before operation `i` of the run. */
  ghost function Before(agents: Agents, ops: seq<Op>, i: nat): Agents
    requires i <= |ops|
  {
    Run(agents, ops[..i])
  }

  ghost predicate AllFresh(agents: Agents, ops: seq<Op>) {
    forall i | 0 <= i < |ops| :: FreshId(Before(agents, ops, i), ops[i])
  }

  lemma BeforeNext(agents: Agents, ops: seq<Op>, i: nat)
    requires i < |ops|
    ensures Before(agents, ops, i + 1) == Apply(Before(agents, ops, i), ops[i])
  {
    assert ops[..i + 1] == ops[..i] + [ops[i]];
    RunAppends(agents, ops[..i], ops[i]);
  }

  lemma {:induction false} BeforeIsClosed(agents: Agents, ops: seq<Op>, p: AgentId, i: nat)
    requires Closed(agents) && AllFresh(agents, ops) && p in agents && i <= |ops|
    ensures Closed(Before(agents, ops, i)) && p in Before(agents, ops, i)
  {
    if i > 0 {
      BeforeIsClosed(agents, ops, p, i - 1);
      BeforeNext(agents, ops, i - 1);
      ApplyKeepsClosed(Before(agents, ops, i - 1), ops[i - 1]);
    }
  }

  /** From before operation `i` to the end of the run `p` has `y` among its ancestors; and it had
      from the start, or the operation before made it so. */
  ghost predicate Arrives(agents: Agents, ops: seq<Op>, org: OrgId, p: AgentId, y: AgentId, i: nat)
    requires i <= |ops|
  {
    && (i == 0 || Joins(Before(agents, ops, i - 1), org, ops[i - 1], p, y))
    && forall j | i <= j <= |ops| :: Reaches(Before(agents, ops, j), org, p, y)
  }

  lemma {:induction false} LastJoin(agents: Agents, ops: seq<Op>, org: OrgId, p: AgentId, y: AgentId, k: nat) returns (i: nat)
    requires Closed(agents) && AllFresh(agents, ops) && p in agents && k <= |ops|
    requires forall j | k <= j <= |ops| :: Reaches(Before(agents, ops, j), org, p, y)
    ensures i <= |ops| && Arrives(agents, ops, org, p, y, i)
  {
    i := k;
    if k > 0 {
      if Reaches(Before(agents, ops, k - 1), org, p, y) {
        i := LastJoin(agents, ops, org, p, y, k - 1);
      } else {
        BeforeIsClosed(agents, ops, p, k - 1);
        BeforeNext(agents, ops, k - 1);
        ReachedOnlyByJoining(Before(agents, ops, k - 1), org, ops[k - 1], p, y);
      }
    }
  }

  lemma ReachedExactly(agents: Agents, ops: seq<Op>, org: OrgId, p: AgentId, y: AgentId)
    requires Closed(agents) && AllFresh(agents, ops) && p in agents
    ensures Reaches(Before(agents, ops, |ops|), org, p, y) <==> exists i | 0 <= i <= |ops| :: Arrives(agents, ops, org, p, y, i)
  {
    if Reaches(Before(agents, ops, |ops|), org, p, y) {
      var i := LastJoin(agents, ops, org, p, y, |ops|);
    }
  }

  /**
   * updateAgent checks on one table and writes on a later one. An update accepted on `seen`
   * closes a cycle exactly when its agent still lives and either it was above the new parent
   * from the start, too far up to be seen, and stayed there, or one of the updates in between
   * put it there, and it stayed.
   */
  lemma StaleUpdateClosesExactly(seen: Agents, ops: seq<Op>, org: OrgId, id: AgentId, p: AgentId)
    requires Verdict(seen, Update(org, id, SetTo(Some(p)), false)) == Done
    requires Closed(seen) && AllFresh(seen, ops) && Acyclic(Run(seen, ops), org)
    ensures id in Run(seen, ops)
    ensures var now := Run(seen, ops);
            !Acyclic(now[id := now[id].(parent := Some(p))], org) <==>
              LiveIn(now, org, id) && exists i | 0 <= i <= |ops| :: Arrives(seen, ops, org, p, id, i)
  {
    var now := Run(seen, ops);
    assert ops[..|ops|] == ops;
    BeforeIsClosed(seen, ops, id, |ops|);
    LateWriteClosesExactly(now, org, id, p);
    ReachedExactly(seen, ops, org, p, id);
  }

  /** So of any two updates that cross and are each accepted on the same table, the second to
      be written closes a cycle of two. */
  lemma CrossedUpdatesCloseACycle(agents: Agents, org: OrgId, a: AgentId, b: AgentId)
    requires Verdict(agents, Update(org, a, SetTo(Some(b)), false)) == Done
    requires Verdict(agents, Update(org, b, SetTo(Some(a)), false)) == Done
    ensures var now := Apply(agents, Update(org, a, SetTo(Some(b)), false));
            b in now && !Acyclic(now[b := now[b].(parent := Some(a))], org)
  {
    var now := Apply(agents, Update(org, a, SetTo(Some(b)), false));
    var after := now[b := now[b].(parent := Some(a))];
    assert Ancestor(after, org, a, 0) == Some(a);
    assert Ancestor(after, org, a, 1) == Some(b);
    assert Ancestor(after, org, a, 2) == Some(a);
  }

  // ---------------------------------------------------------------- the service

  class Service {
    var agents: Agents

    ghost predicate Valid()
      reads this
    {
      Closed(agents)
    }

    constructor ()
      ensures Valid() && agents == map[]
    {
      agents := map[];
    }

    method CreateAgent(org: OrgId, parent: Option<AgentId>) returns (r: Outcome, id: AgentId)
      requires Valid()
      modifies this
      ensures Valid() && id !in old(agents)
      ensures (r == BadRequest <==>
                parent.Some? && !(parent.value in old(agents) && old(agents)[parent.value].live && old(agents)[parent.value].org == org))
      ensures agents == if r == Done then old(agents)[id := Agent(org, parent, true)] else old(agents)
      ensures r == Verdict(old(agents), Create(org, id, parent))
      ensures agents == Apply(old(agents), Create(org, id, parent))
      ensures Acyclic(old(agents), org) ==> Acyclic(agents, org)
    {
      ghost var unused := SomeUnused(agents.Keys);
      assert unused !in agents.Keys;
      id :| id !in agents.Keys;
      ghost var before := agents;
      if parent.Some? && !LiveIn(agents, org, parent.value) {
        r := BadRequest;
      } else {
        agents := agents[id := Agent(org, parent, true)];
        r := Done;
      }
      if Acyclic(before, org) {
        KeepsAcyclicExactly(before, org, Create(org, id, parent));
      }
    }

    /** `handleTaken`: a mention handle was given and another agent has it. */
    method UpdateAgent(org: OrgId, id: AgentId, change: NewParent, handleTaken: bool) returns (r: Outcome)
      requires Valid()
      modifies this
      ensures Valid()
      ensures r == NotFound <==> !(id in old(agents) && old(agents)[id].live && old(agents)[id].org == org)
      ensures (r == BadRequest <==>
                && r != NotFound && change.SetTo? && change.parent.Some?
                && var p := change.parent.value;
                   || p == id || p !in old(agents) || !old(agents)[p].live || old(agents)[p].org != org
                   || exists k: nat | k <= 50 :: Ancestor(old(agents), org, p, k) == Some(id))
      ensures r == Conflict <==> r != NotFound && r != BadRequest && handleTaken
      ensures r != Done ==> agents == old(agents)
      ensures (r == Done ==>
                agents == old(agents)[id := Agent(org, if change.SetTo? then change.parent else old(agents)[id].parent, true)])
      ensures r == Verdict(old(agents), Update(org, id, change, handleTaken))
      ensures agents == Apply(old(agents), Update(org, id, change, handleTaken))
      ensures (Acyclic(old(agents), org) ==>
                (Acyclic(agents, org) <==> !ClosesUnseen(old(agents), org, Update(org, id, change, handleTaken))))
      ensures Acyclic(old(agents), org) && |LiveAgents(old(agents), org)| <= 51 ==> Acyclic(agents, org)
    {
      ghost var before := agents;
      if Acyclic(before, org) {
        KeepsAcyclicExactly(before, org, Update(org, id, change, handleTaken));
        if |LiveAgents(before, org)| <= 51 {
          SmallOrgKeepsAcyclic(before, org, Update(org, id, change, handleTaken));
        }
      }
      if !LiveIn(agents, org, id) {
        return NotFound;
      }
      if change.SetTo? && change.parent.Some? {
        var parent := change.parent.value;
        if parent == id || !LiveIn(agents, org, parent) {
          return BadRequest;
        }
        var wouldCycle := IsDescendantOf(agents, org, parent, id);
        if wouldCycle {
          ghost var k: nat :| k <= 50 && Ancestor(agents, org, parent, k) == Some(id);
          assert exists k: nat | k <= 50 :: Ancestor(old(agents), org, change.parent.value, k) == Some(id);
          return BadRequest;
        }
      }
      if handleTaken {
        return Conflict;
      }
      agents := agents[id := Edited(agents[id], change)];
      r := Done;
    }

    method SoftDelete(org: OrgId, id: AgentId) returns (r: Outcome)
      requires Valid()
      modifies this
      ensures Valid()
      ensures r == if id in old(agents) && old(agents)[id].live && old(agents)[id].org == org then Done else NotFound
      ensures agents == if r == Done then old(agents)[id := Agent(org, old(agents)[id].parent, false)] else old(agents)
      ensures r == Verdict(old(agents), Retire(org, id))
      ensures agents == Apply(old(agents), Retire(org, id))
      ensures Acyclic(old(agents), org) ==> Acyclic(agents, org)
    {
      ghost var before := agents;
      if Acyclic(before, org) {
        KeepsAcyclicExactly(before, org, Retire(org, id));
      }
      if !LiveIn(agents, org, id) {
        return NotFound;
      }
      agents := agents[id := agents[id].(live := false)];
      r := Done;
    }
  }
}
