/**
 * Human approval of destructive actions: approvers, rejecters, two expiry sweeps and the
 * executors work on the same rows. Every database or queue effect is one step.
 *
 * `cas` says how storage.save behaves. The storage ignores the previous status it is handed
 * and writes unconditionally (`cas` false); with `cas` it would refuse a row that has moved on.
 */
module Confirmation {
  import opened Options

  type ActionId = nat
  type ProcId = nat

  datatype Status = Pending | Approved | Rejected | Expired | Executed

  /** `signed`: the row names an approver. Every save writes that column anew, so only the save
      of an approval leaves one there; the executor's own write does not touch it. */
  datatype Row = Row(status: Status, expiresAt: int, signed: bool)

  /** What a process awaits next. */
  datatype Proc =
    | Saving(id: ActionId, target: Status)               // approve, reject: save
    | Enqueueing(id: ActionId)                           // approve: queue the execution
    | Sweeping(todo: seq<ActionId>)                      // expireOverdue: the rest of its list
    | SweepSaving(id: ActionId, todo: seq<ActionId>)     // expireOverdue: save
    | Running(id: ActionId)                              // executor: run the tool
    | Finishing(id: ActionId, ok: bool)                  // executor: write the outcome

  /** `runs` counts the executions of each action's tool; `onTime` are the actions approved
      by a call that found them unexpired. Both are history. */
  datatype World = World(rows: map<ActionId, Row>, now: int, jobs: multiset<ActionId>, procs: map<ProcId, Proc>,
                         runs: map<ActionId, nat>, onTime: set<ActionId>)

  datatype Event =
    | Create(id: ActionId, ttl: int)
    | Decide(pid: ProcId, id: ActionId, approve: bool, valid: bool)   // read and check; `valid`: visible, reason given
    | List(pid: ProcId, todo: seq<ActionId>)
    | SweepNext(pid: ProcId)
    | Save(pid: ProcId)
    | SaveFails(pid: ProcId)
    | Enqueue(pid: ProcId, ok: bool)
    | ExpireAll
    | Tick(time: int)
    | Take(pid: ProcId, id: ActionId, member: bool)                   // deliver a job, read, check the approver is there and a member
    | RunTool(pid: ProcId, ok: bool)
    | Finish(pid: ProcId)
    | Crash(pid: ProcId)

  const EmptyWorld := World(map[], 0, multiset{}, map[], map[], {})

  predicate Terminal(s: Status) { s.Rejected? || s.Expired? || s.Executed? }

  predicate Overdue(w: World, id: ActionId)
    requires id in w.rows
  {
    w.rows[id].expiresAt < w.now
  }

  function RunsOf(w: World, id: ActionId): nat {
    if id in w.runs then w.runs[id] else 0
  }

  predicate AtSave(w: World, pid: ProcId) {
    pid in w.procs && (w.procs[pid].Saving? || w.procs[pid].SweepSaving?)
  }

  predicate Lists(w: World, todo: seq<ActionId>) {
    && (forall id | id in todo :: id in w.rows && w.rows[id].status.Pending?)
    && (forall id | id in w.rows && w.rows[id].status.Pending? :: id in todo)
  }

  predicate Enabled(w: World, e: Event) {
    match e
    case Create(id, _) => id !in w.rows
    case Decide(pid, _, _, _) => pid !in w.procs
    case List(pid, todo) => pid !in w.procs && Lists(w, todo)
    case SweepNext(pid) => pid in w.procs && w.procs[pid].Sweeping?
    case Save(pid) => AtSave(w, pid)
    case SaveFails(pid) => AtSave(w, pid)
    case Enqueue(pid, _) => pid in w.procs && w.procs[pid].Enqueueing?
    case ExpireAll => true
    case Tick(t) => t >= w.now
    case Take(pid, id, _) => pid !in w.procs && id in w.jobs
    case RunTool(pid, _) => pid in w.procs && w.procs[pid].Running?
    case Finish(pid) => pid in w.procs && w.procs[pid].Finishing?
    case Crash(pid) => pid in w.procs
  }

  // ---------------------------------------------------------------- steps

  function Goto(w: World, pid: ProcId, p: Proc): World {
    w.(procs := w.procs[pid := p])
  }

  function Gone(w: World, pid: ProcId): World {
    w.(procs := w.procs - {pid})
  }

  function Marked(w: World, id: ActionId, s: Status): World {
    if id in w.rows then w.(rows := w.rows[id := w.rows[id].(status := s)]) else w
  }

  /** What storage.save writes. */
  function Written(w: World, id: ActionId, s: Status): World {
    if id in w.rows then w.(rows := w.rows[id := w.rows[id].(status := s, signed := s.Approved?)]) else w
  }

  function Decided(w: World, pid: ProcId, id: ActionId, approve: bool, valid: bool): World {
    if id !in w.rows || !valid || !w.rows[id].status.Pending? then w
    else if Overdue(w, id) then Goto(w, pid, Saving(id, Expired))
    else Goto(w, pid, Saving(id, if approve then Approved else Rejected))
  }

  /** A save whose row is no longer in the status the caller read. */
  predicate Stale(w: World, e: Event) {
    && e.Save? && AtSave(w, e.pid)
    && w.procs[e.pid].id in w.rows && !w.rows[w.procs[e.pid].id].status.Pending?
  }

  function TargetOf(p: Proc): Status
    requires p.Saving? || p.SweepSaving?
  {
    if p.Saving? then p.target else Expired
  }

  function Saved(w: World, pid: ProcId, p: Proc): World
    requires p.Saving? || p.SweepSaving?
  {
    var w1 := Written(w, p.id, TargetOf(p));
    if p.SweepSaving? then Goto(w1, pid, Sweeping(p.todo))
    else if p.target.Approved? then Goto(w1, pid, Enqueueing(p.id)).(onTime := w.onTime + {p.id})
    else Gone(w1, pid)
  }

  function ExpiredAll(w: World): map<ActionId, Row> {
    map id | id in w.rows :: if w.rows[id].status.Pending? && Overdue(w, id) then w.rows[id].(status := Expired) else w.rows[id]
  }

  function Taken(w: World, pid: ProcId, id: ActionId, member: bool): World {
    var w1 := w.(jobs := w.jobs - multiset{id});
    if id in w.rows && w.rows[id].status.Approved? && w.rows[id].signed && member then Goto(w1, pid, Running(id)) else w1
  }

  function Next(cas: bool, w: World, e: Event): World {
    match e
    case Create(id, ttl) => w.(rows := w.rows[id := Row(Pending, w.now + ttl, false)])
    case Decide(pid, id, approve, valid) => Decided(w, pid, id, approve, valid)
    case List(pid, todo) => Goto(w, pid, Sweeping(todo))
    case SweepNext(pid) =>
      if pid !in w.procs || !w.procs[pid].Sweeping? then w
      else if w.procs[pid].todo == [] then Gone(w, pid)
      else
        var id, rest := w.procs[pid].todo[0], w.procs[pid].todo[1..];
        Goto(w, pid, if id in w.rows && Overdue(w, id) then SweepSaving(id, rest) else Sweeping(rest))
    case Save(pid) =>
      if !AtSave(w, pid) then w
      else if cas && Stale(w, e) then Gone(w, pid)
      else Saved(w, pid, w.procs[pid])
    case SaveFails(pid) => Gone(w, pid)
    case Enqueue(pid, ok) =>
      if pid in w.procs && w.procs[pid].Enqueueing? && ok then Gone(w.(jobs := w.jobs + multiset{w.procs[pid].id}), pid)
      else Gone(w, pid)
    case ExpireAll => w.(rows := ExpiredAll(w))
    case Tick(t) => w.(now := t)
    case Take(pid, id, member) => Taken(w, pid, id, member)
    case RunTool(pid, ok) =>
      if pid in w.procs && w.procs[pid].Running? then
        var id := w.procs[pid].id;
        Goto(w.(runs := w.runs[id := RunsOf(w, id) + 1]), pid, Finishing(id, ok))
      else w
    case Finish(pid) =>
      if pid in w.procs && w.procs[pid].Finishing? then
        Gone(Marked(w, w.procs[pid].id, if w.procs[pid].ok then Executed else Approved), pid)
      else w
    case Crash(pid) => Gone(w, pid)
  }

  // ---------------------------------------------------------------- runs

  predicate Valid(cas: bool, w: World, es: seq<Event>)
    decreases |es|
  {
    es == [] || (Enabled(w, es[0]) && Valid(cas, Next(cas, w, es[0]), es[1..]))
  }

  function After(cas: bool, w: World, es: seq<Event>): World
    decreases |es|
  {
    if es == [] then w else After(cas, Next(cas, w, es[0]), es[1..])
  }

  /** No save of the run overwrites a row that has moved on. */
  predicate NoneStale(cas: bool, w: World, es: seq<Event>)
    decreases |es|
  {
    es == [] || ((cas || !Stale(w, es[0])) && NoneStale(cas, Next(cas, w, es[0]), es[1..]))
  }

  // ---------------------------------------------------------------- the invariant

  /** The process carries the one execution of the action. */
  predicate Carries(p: Proc, id: ActionId) {
    (p.Enqueueing? || p.Running? || p.Finishing?) && p.id == id
  }

  ghost predicate Lone(w: World, id: ActionId) {
    forall p, q | p in w.procs && q in w.procs && Carries(w.procs[p], id) && Carries(w.procs[q], id) :: p == q
  }

  /** The execution of an approved action is in one place at a time: with its approver, in the
      queue, or with an executor; and it is gone once the tool's outcome is written. */
  ghost predicate ActionOk(w: World, id: ActionId) {
    && Lone(w, id)
    && (forall p | p in w.procs && Carries(w.procs[p], id) ::
          && id in w.rows && w.rows[id].status.Approved? && w.jobs[id] == 0
          && RunsOf(w, id) == if w.procs[p].Finishing? then 1 else 0)
    && (w.jobs[id] > 0 ==> w.jobs[id] == 1 && id in w.rows && w.rows[id].status.Approved? && RunsOf(w, id) == 0)
    && (RunsOf(w, id) > 0 ==> RunsOf(w, id) == 1 && id in w.rows && (w.rows[id].status.Approved? || w.rows[id].status.Executed?))
    && (id in w.rows && (w.rows[id].status.Approved? || w.rows[id].status.Executed?) ==> id in w.onTime && w.rows[id].signed)
    && (id in w.rows && w.rows[id].status.Executed? ==> RunsOf(w, id) == 1)
  }

  /** Processes about to save do so for rows that exist; approvals were on time. */
  ghost predicate SavesOk(w: World) {
    forall p | p in w.procs && (w.procs[p].Saving? || w.procs[p].SweepSaving?) ::
      w.procs[p].id in w.rows && TargetOf(w.procs[p]) in {Approved, Rejected, Expired}
  }

  ghost predicate SweepsOk(w: World) {
    forall p | p in w.procs && (w.procs[p].Sweeping? || w.procs[p].SweepSaving?) :: forall id | id in w.procs[p].todo :: id in w.rows
  }

  ghost predicate Inv(w: World) {
    SavesOk(w) && SweepsOk(w) && forall id :: ActionOk(w, id)
  }

  // ---------------------------------------------------------------- every step keeps it

  lemma PlainStepKeeps(cas: bool, w: World, e: Event)
    requires Inv(w) && Enabled(w, e) && (e.Create? || e.Tick? || e.ExpireAll?)
    ensures Inv(Next(cas, w, e))
  {
    var w' := Next(cas, w, e);
    forall id ensures ActionOk(w', id) {
      assert ActionOk(w, id);
    }
  }

  /** Rows, queue and counts stay, and no process starts to carry an execution. */
  ghost predicate OnlyLight(w: World, w': World) {
    && w'.rows == w.rows && w'.jobs == w.jobs && w'.runs == w.runs && w'.onTime == w.onTime
    && (forall p, id | p in w'.procs && Carries(w'.procs[p], id) :: p in w.procs && w.procs[p] == w'.procs[p])
  }

  lemma LightKeeps(w: World, w': World)
    requires Inv(w) && OnlyLight(w, w') && SavesOk(w') && SweepsOk(w')
    ensures Inv(w')
  {
    forall id ensures ActionOk(w', id) {
      assert ActionOk(w, id);
    }
  }

  lemma GoneKeeps(w: World, pid: ProcId)
    requires Inv(w)
    ensures Inv(Gone(w, pid))
  {
    LightKeeps(w, Gone(w, pid));
  }

  lemma DecideKeeps(cas: bool, w: World, pid: ProcId, id: ActionId, approve: bool, valid: bool)
    requires Inv(w) && Enabled(w, Decide(pid, id, approve, valid))
    ensures Inv(Next(cas, w, Decide(pid, id, approve, valid)))
  {
    LightKeeps(w, Decided(w, pid, id, approve, valid));
  }

  lemma SweepKeeps(cas: bool, w: World, e: Event)
    requires Inv(w) && Enabled(w, e) && (e.List? || e.SweepNext?)
    ensures Inv(Next(cas, w, e))
  {
    LightKeeps(w, Next(cas, w, e));
  }

  /** A save on a row that is still pending. */
  lemma FreshSaveKeeps(w: World, pid: ProcId)
    requires Inv(w) && AtSave(w, pid) && !Stale(w, Save(pid))
    ensures Inv(Saved(w, pid, w.procs[pid]))
  {
    var p := w.procs[pid];
    var w' := Saved(w, pid, p);
    assert p.id in w.rows && w.rows[p.id].status.Pending?;
    forall id ensures ActionOk(w', id) {
      assert ActionOk(w, id);
      if id == p.id {
        FreshSaveOk(w, pid);
      } else {
        OtherActionOk(w, w', pid, id);
      }
    }
  }

  lemma OtherActionOk(w: World, w': World, pid: ProcId, id: ActionId)
    requires ActionOk(w, id) && AtSave(w, pid) && w.procs[pid].id != id && w' == Saved(w, pid, w.procs[pid])
    ensures ActionOk(w', id)
  {
    assert forall q | q in w'.procs && Carries(w'.procs[q], id) :: q in w.procs && w.procs[q] == w'.procs[q];
  }

  lemma FreshSaveOk(w: World, pid: ProcId)
    requires AtSave(w, pid) && ActionOk(w, w.procs[pid].id) && TargetOf(w.procs[pid]) in {Approved, Rejected, Expired}
    requires w.procs[pid].id in w.rows && w.rows[w.procs[pid].id].status.Pending?
    ensures ActionOk(Saved(w, pid, w.procs[pid]), w.procs[pid].id)
  {
  }

  lemma SaveKeeps(cas: bool, w: World, pid: ProcId)
    requires Inv(w) && Enabled(w, Save(pid)) && (cas || !Stale(w, Save(pid)))
    ensures Inv(Next(cas, w, Save(pid)))
  {
    if Stale(w, Save(pid)) {
      GoneKeeps(w, pid);
    } else {
      FreshSaveKeeps(w, pid);
    }
  }

  lemma EnqueueKeeps(cas: bool, w: World, pid: ProcId, ok: bool)
    requires Inv(w) && Enabled(w, Enqueue(pid, ok))
    ensures Inv(Next(cas, w, Enqueue(pid, ok)))
  {
    var w' := Next(cas, w, Enqueue(pid, ok));
    var i := w.procs[pid].id;
    assert Carries(w.procs[pid], i);
    forall id ensures ActionOk(w', id) {
      assert ActionOk(w, id);
      assert forall q | q in w'.procs && Carries(w'.procs[q], id) :: q in w.procs && w.procs[q] == w'.procs[q];
    }
  }

  lemma TakeKeeps(cas: bool, w: World, pid: ProcId, i: ActionId, member: bool)
    requires Inv(w) && Enabled(w, Take(pid, i, member))
    ensures Inv(Next(cas, w, Take(pid, i, member)))
  {
    var w' := Next(cas, w, Take(pid, i, member));
    forall id ensures ActionOk(w', id) {
      assert ActionOk(w, id);
      assert forall q | q in w'.procs && Carries(w'.procs[q], id) :: (q in w.procs && w.procs[q] == w'.procs[q]) || (q == pid && id == i);
    }
  }

  lemma RunToolKeeps(cas: bool, w: World, pid: ProcId, ok: bool)
    requires Inv(w) && Enabled(w, RunTool(pid, ok))
    ensures Inv(Next(cas, w, RunTool(pid, ok)))
  {
    var w' := Next(cas, w, RunTool(pid, ok));
    var i := w.procs[pid].id;
    assert Carries(w.procs[pid], i);
    forall id ensures ActionOk(w', id) {
      assert ActionOk(w, id);
      assert forall q | q in w'.procs && Carries(w'.procs[q], id) :: (q in w.procs && w.procs[q] == w'.procs[q]) || (q == pid && id == i);
    }
  }

  lemma FinishKeeps(cas: bool, w: World, pid: ProcId)
    requires Inv(w) && Enabled(w, Finish(pid))
    ensures Inv(Next(cas, w, Finish(pid)))
  {
    var w' := Next(cas, w, Finish(pid));
    var i := w.procs[pid].id;
    assert Carries(w.procs[pid], i);
    forall id ensures ActionOk(w', id) {
      assert ActionOk(w, id);
      assert forall q | q in w'.procs && Carries(w'.procs[q], id) :: q in w.procs && w.procs[q] == w'.procs[q];
    }
  }

  lemma StepKeeps(cas: bool, w: World, e: Event)
    requires Inv(w) && Enabled(w, e) && (cas || !Stale(w, e))
    ensures Inv(Next(cas, w, e))
  {
    match e
    case Save(pid) => SaveKeeps(cas, w, pid);
    case Enqueue(pid, ok) => EnqueueKeeps(cas, w, pid, ok);
    case Take(pid, id, member) => TakeKeeps(cas, w, pid, id, member);
    case RunTool(pid, ok) => RunToolKeeps(cas, w, pid, ok);
    case Finish(pid) => FinishKeeps(cas, w, pid);
    case Create(_, _) => PlainStepKeeps(cas, w, e);
    case Tick(_) => PlainStepKeeps(cas, w, e);
    case ExpireAll => PlainStepKeeps(cas, w, e);
    case Decide(pid, id, approve, valid) => DecideKeeps(cas, w, pid, id, approve, valid);
    case List(_, _) => SweepKeeps(cas, w, e);
    case SweepNext(_) => SweepKeeps(cas, w, e);
    case SaveFails(pid) => GoneKeeps(w, pid);
    case Crash(pid) => GoneKeeps(w, pid);
  }

  lemma {:induction false} RunKeeps(cas: bool, w: World, es: seq<Event>)
    requires Inv(w) && Valid(cas, w, es) && NoneStale(cas, w, es)
    ensures Inv(After(cas, w, es))
    decreases |es|
  {
    if es != [] {
      StepKeeps(cas, w, es[0]);
      RunKeeps(cas, Next(cas, w, es[0]), es[1..]);
    }
  }
}
