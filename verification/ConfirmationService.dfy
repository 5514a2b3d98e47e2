/**
 * The approval service and its executor as straight-line code over the shared state. Others
 * run in between, so every execution is a run of the protocol; a calm one, with nobody else
 * about and nothing failing, does exactly what its contract says.
 */
module ConfirmationService {
  import opened Options
  import opened Ids
  import opened Confirmation
  import opened ConfirmationTheorems

  ghost predicate Follows(cas: bool, w: World, w': World) {
    exists es :: Valid(cas, w, es) && After(cas, w, es) == w'
  }

  lemma FollowsItself(cas: bool, w: World)
    ensures Follows(cas, w, w)
  {
    assert Valid(cas, w, []) && After(cas, w, []) == w;
  }

  lemma FollowsStep(cas: bool, w: World, v: World, e: Event)
    requires Follows(cas, w, v) && Enabled(v, e)
    ensures Follows(cas, w, Next(cas, v, e))
  {
    var es :| Valid(cas, w, es) && After(cas, w, es) == v;
    RunExtends(cas, w, es, e);
  }

  datatype Outcome = Done | NotFound | BadRequest | Failed

  /** The only change is the status of one action, with its approver, and a job for it if it was
      approved. */
  ghost predicate Becomes(w: World, w': World, id: ActionId, s: Status) {
    && id in w.rows
    && w'.rows == w.rows[id := w.rows[id].(status := s, signed := s.Approved?)] && w'.runs == w.runs && w'.now == w.now
    && w'.jobs == (if s.Approved? then w.jobs + multiset{id} else w.jobs)
  }

  ghost predicate Unchanged(w: World, w': World) {
    w'.rows == w.rows && w'.runs == w.runs && w'.now == w.now && w'.jobs == w.jobs
  }

  ghost predicate CalmDecide(w: World, w': World, id: ActionId, visible: bool, valid: bool, target: Status, r: Outcome) {
    if id !in w.rows || !visible then r == NotFound && Unchanged(w, w')
    else if !valid || !w.rows[id].status.Pending? then r == BadRequest && Unchanged(w, w')
    else if w.rows[id].expiresAt < w.now then r == BadRequest && Becomes(w, w', id, Expired)
    else r == Done && Becomes(w, w', id, target)
  }

  /** An action that is still to be decided names no approver. */
  ghost predicate NoneSigned(w: World) {
    forall id | id in w.rows && w.rows[id].status.Pending? :: !w.rows[id].signed
  }

  lemma StaysUnsigned(cas: bool, w: World, e: Event)
    requires NoneSigned(w) && Enabled(w, e)
    ensures NoneSigned(Next(cas, w, e))
  {
  }

  class PendingActionService {
    const cas: bool
    var world: World

    ghost predicate Valid()
      reads this
    {
      NoneSigned(world)
    }

    constructor (cas: bool)
      ensures this.cas == cas && world == EmptyWorld && Valid()
    {
      this.cas, this.world := cas, EmptyWorld;
    }

    method Perform(e: Event, ghost start: World)
      requires Valid() && Follows(cas, start, world) && Enabled(world, e)
      modifies this
      ensures Valid() && Follows(cas, start, world) && world == Next(cas, old(world), e)
    {
      StaysUnsigned(cas, world, e);
      FollowsStep(cas, start, world, e);
      world := Next(cas, world, e);
    }

    /** Any number of steps of others, which neither start nor move process `pid`. */
    method Interfere(pid: ProcId, calm: bool, ghost start: World)
      requires Valid() && Follows(cas, start, world)
      modifies this
      ensures Valid() && Follows(cas, start, world)
      ensures pid in world.procs <==> pid in old(world).procs
      ensures pid in world.procs ==> world.procs[pid] == old(world).procs[pid]
      ensures calm ==> world == old(world)
    {
      var steps: nat := *;
      while !calm && steps > 0
        invariant Valid() && Follows(cas, start, world)
        invariant pid in world.procs <==> pid in old(world).procs
        invariant pid in world.procs ==> world.procs[pid] == old(world).procs[pid]
        invariant calm ==> world == old(world)
        decreases steps
      {
        var e: Event := *;
        if Enabled(world, e) {
          var next := Next(cas, world, e);
          if (pid in next.procs <==> pid in world.procs) && (pid in world.procs ==> next.procs[pid] == world.procs[pid]) {
            Perform(e, start);
          }
        }
        steps := steps - 1;
      }
    }

    method CreateAction(ttl: int) returns (id: ActionId)
      requires Valid()
      modifies this
      ensures Valid() && Follows(cas, old(world), world)
      ensures id !in old(world).rows && world == old(world).(rows := old(world).rows[id := Row(Pending, old(world).now + ttl, false)])
    {
      FollowsItself(cas, world);
      ghost var unused := SomeUnused(world.rows.Keys);
      assert unused !in world.rows.Keys;
      id :| id !in world.rows.Keys;                       // randomUUID
      Perform(Create(id, ttl), world);
    }

    /** storage.save: refused, failed, or written. */
    method SaveAction(pid: ProcId, calm: bool, ghost start: World) returns (ok: bool)
      requires Valid() && Follows(cas, start, world) && AtSave(world, pid)
      modifies this
      ensures Valid() && Follows(cas, start, world)
      ensures if ok then world == Saved(old(world), pid, old(world).procs[pid]) else world == Gone(old(world), pid)
      ensures calm && !Stale(old(world), Save(pid)) ==> ok
    {
      var fails: bool := *;
      if !calm && fails {
        Perform(SaveFails(pid), start);
        return false;
      }
      ok := !(cas && Stale(world, Save(pid)));
      Perform(Save(pid), start);
    }

    /** The part approve and reject share: read, check, save. An approval is left with its job
        to queue. */
    method DecideAction(pid: ProcId, id: ActionId, approve: bool, visible: bool, valid: bool, calm: bool, ghost start: World)
      returns (r: Outcome)
      requires Valid() && Follows(cas, start, world) && pid !in world.procs
      modifies this
      ensures Valid() && Follows(cas, start, world)
      ensures if r == Done && approve then pid in world.procs && world.procs[pid] == Enqueueing(id) else pid !in world.procs
      ensures calm ==> CalmDecide(old(world), if r == Done && approve then world.(jobs := world.jobs + multiset{id}) else world,
                                  id, visible, valid, if approve then Approved else Rejected, r)
    {
      Interfere(pid, calm, start);
      if id !in world.rows || !visible {
        return NotFound;
      }
      if !valid || !world.rows[id].status.Pending? {
        return BadRequest;
      }
      var overdue := Overdue(world, id);
      Perform(Decide(pid, id, approve, true), start);     // getScoped, isExpired
      Interfere(pid, calm, start);
      var ok := SaveAction(pid, calm, start);             // storage.save
      r := if !ok then Failed else if overdue then BadRequest else Done;
    }

    method Approve(pid: ProcId, id: ActionId, visible: bool, calm: bool) returns (r: Outcome)
      requires Valid() && pid !in world.procs
      modifies this
      ensures Valid() && Follows(cas, old(world), world) && pid !in world.procs
      ensures calm ==> CalmDecide(old(world), world, id, visible, true, Approved, r)
    {
      ghost var start := world;
      FollowsItself(cas, world);
      r := DecideAction(pid, id, true, visible, true, calm, start);
      if r == Done {
        Interfere(pid, calm, start);
        var up: bool := *;
        Perform(Enqueue(pid, calm || up), start);         // executorQueue.add, failure swallowed
      }
    }

    method Reject(pid: ProcId, id: ActionId, visible: bool, reasonGiven: bool, calm: bool) returns (r: Outcome)
      requires Valid() && pid !in world.procs
      modifies this
      ensures Valid() && Follows(cas, old(world), world) && pid !in world.procs
      ensures calm ==> CalmDecide(old(world), world, id, visible, reasonGiven, Rejected, r)
    {
      FollowsItself(cas, world);
      r := DecideAction(pid, id, false, visible, reasonGiven, calm, world);
    }

    /** One row of the sweep: checked, and saved if it is overdue. */
    method SweepOne(pid: ProcId, todo: seq<ActionId>, calm: bool, ghost start: World) returns (ok: bool, expired: bool)
      requires Valid() && Follows(cas, start, world) && pid in world.procs && world.procs[pid] == Sweeping(todo) && todo != []
      modifies this
      ensures Valid() && Follows(cas, start, world)
      ensures if ok then pid in world.procs && world.procs[pid] == Sweeping(todo[1..]) else pid !in world.procs
      ensures calm && todo[0] in old(world).rows && old(world).rows[todo[0]].status.Pending? ==>
                ok && (expired <==> Overdue(old(world), todo[0])) && Swept(old(world), world, todo[0])
    {
      Interfere(pid, calm, start);
      Perform(SweepNext(pid), start);                     // isExpired
      ok, expired := true, world.procs[pid].SweepSaving?;
      if expired {
        Interfere(pid, calm, start);
        ok := SaveAction(pid, calm, start);               // storage.save
      }
    }

    /** The first sweep: read the pending rows, then check and save them one by one. */
    method ExpireOverdue(pid: ProcId, todo: seq<ActionId>, calm: bool) returns (moved: nat)
      requires Valid() && pid !in world.procs && Lists(world, todo)
      requires forall i, j | 0 <= i < j < |todo| :: todo[i] != todo[j]
      modifies this
      ensures Valid() && Follows(cas, old(world), world) && pid !in world.procs
      ensures calm ==> Unchanged(old(world).(rows := ExpiredAll(old(world))), world)
      ensures calm ==> moved == |OverdueIn(old(world), todo)|
    {
      ghost var start, before := world, world;
      FollowsItself(cas, world);
      Perform(List(pid, todo), start);                    // listPendingForExpiration
      moved := 0;
      for i := 0 to |todo|
        invariant Valid() && Follows(cas, start, world) && pid in world.procs && world.procs[pid] == Sweeping(todo[i..])
        invariant calm ==> SweptUpTo(before, world, todo, i) && moved == |OverdueIn(before, todo[..i])|
      {
        assert todo[i..][0] == todo[i] && todo[i..][1..] == todo[i + 1..];
        ghost var w0 := world;
        if calm {
          StillPending(before, world, todo, i);
        }
        var ok, expired := SweepOne(pid, todo[i..], calm, start);
        if calm {
          SweptOneMore(before, w0, world, todo, i);
          OneMoreOverdue(before, todo, i);
        }
        if !ok {
          return;                                         // the exception ends the sweep
        }
        moved := if expired then moved + 1 else moved;
      }
      Perform(SweepNext(pid), start);
      assert todo[..|todo|] == todo;
      if calm {
        SweptAll(before, world, todo);
      }
    }

    /** The second sweep, one updateMany. */
    method ExpireOverdueActions()
      requires Valid()
      modifies this
      ensures Valid() && Follows(cas, old(world), world) && world == old(world).(rows := ExpiredAll(old(world)))
      ensures world.rows.Keys == old(world).rows.Keys
      ensures (forall id | id in old(world).rows ::
                world.rows[id] == if old(world).rows[id].status == Pending && old(world).rows[id].expiresAt < old(world).now
                                  then old(world).rows[id].(status := Expired) else old(world).rows[id])
    {
      FollowsItself(cas, world);
      Perform(ExpireAll, world);
    }

    /** The executor, on one delivered job. `works`: the tool does not throw. */
    method Process(pid: ProcId, id: ActionId, member: bool, works: bool, calm: bool) returns (ran: bool)
      requires Valid() && pid !in world.procs && id in world.jobs
      modifies this
      ensures Valid() && Follows(cas, old(world), world) && pid !in world.procs
      ensures (calm ==>
                && (ran <==> id in old(world).rows && old(world).rows[id].status.Approved? && old(world).rows[id].signed && member)
                && world.jobs == old(world).jobs - multiset{id}
                && (if ran then
                      && world.runs == old(world).runs[id := RunsOf(old(world), id) + 1]
                      && world.rows == old(world).rows[id := old(world).rows[id].(status := if works then Executed else Approved)]
                    else world.runs == old(world).runs && world.rows == old(world).rows))
    {
      ghost var start := world;
      FollowsItself(cas, world);
      Perform(Take(pid, id, member), start);              // storage.get, membership
      ran := pid in world.procs;
      if ran {
        RunAndRecord(pid, id, works, calm, start);
      }
    }

    method RunAndRecord(pid: ProcId, id: ActionId, works: bool, calm: bool, ghost start: World)
      requires Valid() && Follows(cas, start, world) && pid in world.procs && world.procs[pid] == Running(id)
      modifies this
      ensures Valid() && Follows(cas, start, world) && pid !in world.procs
      ensures (calm && id in old(world).rows ==>
                && world.jobs == old(world).jobs
                && world.runs == old(world).runs[id := RunsOf(old(world), id) + 1]
                && world.rows == old(world).rows[id := old(world).rows[id].(status := if works then Executed else Approved)])
    {
      Interfere(pid, calm, start);
      Perform(RunTool(pid, works), start);
      Interfere(pid, calm, start);
      var fails: bool := *;
      if !calm && fails {
        Perform(Crash(pid), start);                       // the update throws, the job ends
      } else {
        Perform(Finish(pid), start);
      }
    }
  }

  /** The first `n` rows of the list are swept, nothing else has changed. */
  ghost predicate SweptUpTo(before: World, w: World, todo: seq<ActionId>, n: nat)
    requires n <= |todo|
  {
    && w.runs == before.runs && w.now == before.now && w.jobs == before.jobs && w.rows.Keys == before.rows.Keys
    && (forall id | id in before.rows ::
          w.rows[id] == if id in todo[..n] then ExpiredAll(before)[id] else before.rows[id])
  }

  /** What one row of a calm sweep does. */
  ghost predicate Swept(w: World, w': World, id: ActionId)
    requires id in w.rows
  {
    && w'.runs == w.runs && w'.now == w.now && w'.jobs == w.jobs
    && w'.rows == if Overdue(w, id) then w.rows[id := w.rows[id].(status := Expired, signed := false)] else w.rows
  }

  lemma StillPending(before: World, w: World, todo: seq<ActionId>, n: nat)
    requires n < |todo| && Lists(before, todo) && SweptUpTo(before, w, todo, n)
    requires forall i, j | 0 <= i < j < |todo| :: todo[i] != todo[j]
    ensures todo[n] in w.rows && w.rows[todo[n]] == before.rows[todo[n]] && w.rows[todo[n]].status.Pending?
  {
  }

  lemma SweptOneMore(before: World, w: World, w': World, todo: seq<ActionId>, n: nat)
    requires n < |todo| && Lists(before, todo) && SweptUpTo(before, w, todo, n)
    requires forall i, j | 0 <= i < j < |todo| :: todo[i] != todo[j]
    requires NoneSigned(before) && todo[n] in w.rows && Swept(w, w', todo[n])
    ensures SweptUpTo(before, w', todo, n + 1)
  {
  }

  function OverdueIn(w: World, todo: seq<ActionId>): set<ActionId> {
    set id | id in todo && id in w.rows && Overdue(w, id)
  }

  lemma OneMoreOverdue(w: World, todo: seq<ActionId>, n: nat)
    requires n < |todo| && todo[n] in w.rows && forall i, j | 0 <= i < j < |todo| :: todo[i] != todo[j]
    ensures |OverdueIn(w, todo[..n + 1])| == |OverdueIn(w, todo[..n])| + if Overdue(w, todo[n]) then 1 else 0
  {
    assert todo[n] !in todo[..n];
    assert forall id :: id in todo[..n + 1] <==> id in todo[..n] || id == todo[n];
    assert OverdueIn(w, todo[..n + 1]) == OverdueIn(w, todo[..n]) + if Overdue(w, todo[n]) then {todo[n]} else {};
  }

  lemma SweptAll(before: World, w: World, todo: seq<ActionId>)
    requires Lists(before, todo) && SweptUpTo(before, w, todo, |todo|)
    ensures Unchanged(before.(rows := ExpiredAll(before)), w)
  {
  }
}
