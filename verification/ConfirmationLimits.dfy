/**
 * How often a tool can run as the storage is written: never more often than approvals of its
 * action are saved, and again after a decision exactly when an approval or an execution is
 * still on its way.
 */
module ConfirmationLimits {
  import opened Options
  import opened Ids
  import opened Confirmation
  import opened ConfirmationTheorems

  // ---------------------------------------------------------------- counting

  /** The step saves an approval of the action. */
  predicate Approves(w: World, e: Event, id: ActionId) {
    e.Save? && e.pid in w.procs && w.procs[e.pid] == Saving(id, Approved)
  }

  /** How many approvals of the action the run saves, stale or not. */
  function ApprovalsSaved(w: World, es: seq<Event>, id: ActionId): nat
    decreases |es|
  {
    if es == [] then 0
    else (if Approves(w, es[0], id) then 1 else 0) + ApprovalsSaved(Next(false, w, es[0]), es[1..], id)
  }

  /** How many of them are stale. */
  function StaleApprovals(w: World, es: seq<Event>, id: ActionId): nat
    decreases |es|
  {
    if es == [] then 0
    else (if Approves(w, es[0], id) && Stale(w, es[0]) then 1 else 0) + StaleApprovals(Next(false, w, es[0]), es[1..], id)
  }

  /** The process will run the tool, or queue its run. */
  predicate WillRun(p: Proc, id: ActionId) {
    (p.Enqueueing? || p.Running?) && p.id == id
  }

  ghost function WillRunIn(w: World, id: ActionId): set<ProcId> {
    set p | p in w.procs && WillRun(w.procs[p], id)
  }

  /** Runs made, queued, and on their way. */
  ghost function Runs(w: World, id: ActionId): nat {
    RunsOf(w, id) + w.jobs[id] + |WillRunIn(w, id)|
  }

  lemma GotoRuns(w: World, w': World, pid: ProcId, p: Proc, id: ActionId)
    requires w'.procs == w.procs[pid := p]
    ensures |WillRunIn(w', id)| == |WillRunIn(w, id) - {pid}| + if WillRun(p, id) then 1 else 0
  {
    assert WillRunIn(w', id) == (WillRunIn(w, id) - {pid}) + if WillRun(p, id) then {pid} else {};
  }

  lemma GoneRuns(w: World, w': World, pid: ProcId, id: ActionId)
    requires w'.procs == w.procs - {pid}
    ensures |WillRunIn(w', id)| == |WillRunIn(w, id) - {pid}|
  {
    assert WillRunIn(w', id) == WillRunIn(w, id) - {pid};
  }

  lemma LessOne(w: World, pid: ProcId, id: ActionId)
    ensures |WillRunIn(w, id) - {pid}| == |WillRunIn(w, id)| - if pid in w.procs && WillRun(w.procs[pid], id) then 1 else 0
  {
    if !(pid in w.procs && WillRun(w.procs[pid], id)) {
      assert WillRunIn(w, id) - {pid} == WillRunIn(w, id);
    }
  }

  /** A process comes, moves or goes, and runs and jobs are as they were. */
  lemma ProcessMoves(w: World, w': World, pid: ProcId, id: ActionId)
    requires w'.runs == w.runs && w'.jobs == w.jobs
    requires w'.procs == w.procs - {pid} || (pid in w'.procs && w'.procs == w.procs[pid := w'.procs[pid]])
    requires pid in w'.procs && WillRun(w'.procs[pid], id) ==> pid in w.procs && WillRun(w.procs[pid], id)
    ensures Runs(w', id) <= Runs(w, id)
  {
    LessOne(w, pid, id);
    if pid in w'.procs {
      GotoRuns(w, w', pid, w'.procs[pid], id);
    } else {
      GoneRuns(w, w', pid, id);
    }
  }

  lemma SaveMoves(w: World, pid: ProcId)
    requires AtSave(w, pid)
    ensures var w', p := Next(false, w, Save(pid)), w.procs[pid];
            && w'.runs == w.runs && w'.jobs == w.jobs
            && w'.procs == if p.SweepSaving? then w.procs[pid := Sweeping(p.todo)]
                           else if p.target.Approved? then w.procs[pid := Enqueueing(p.id)]
                           else w.procs - {pid}
  {
  }

  lemma SaveAdds(w: World, pid: ProcId, id: ActionId)
    requires Enabled(w, Save(pid))
    ensures Runs(Next(false, w, Save(pid)), id) <= Runs(w, id) + if Approves(w, Save(pid), id) then 1 else 0
  {
    var w', p := Next(false, w, Save(pid)), w.procs[pid];
    SaveMoves(w, pid);
    if p.Saving? && p.target.Approved? {
      LessOne(w, pid, id);
      GotoRuns(w, w', pid, Enqueueing(p.id), id);
    } else {
      ProcessMoves(w, w', pid, id);
    }
  }

  lemma EnqueueMoves(w: World, pid: ProcId, ok: bool, id: ActionId)
    requires Enabled(w, Enqueue(pid, ok))
    ensures Runs(Next(false, w, Enqueue(pid, ok)), id) <= Runs(w, id)
  {
    LessOne(w, pid, id);
    GoneRuns(w, Next(false, w, Enqueue(pid, ok)), pid, id);
  }

  lemma TakeMoves(w: World, pid: ProcId, i: ActionId, member: bool, id: ActionId)
    requires Enabled(w, Take(pid, i, member))
    ensures Runs(Next(false, w, Take(pid, i, member)), id) <= Runs(w, id)
  {
    var w' := Next(false, w, Take(pid, i, member));
    LessOne(w, pid, id);
    if pid in w'.procs {
      GotoRuns(w, w', pid, w'.procs[pid], id);
    } else {
      assert WillRunIn(w', id) == WillRunIn(w, id);
    }
  }

  lemma RunToolMoves(w: World, pid: ProcId, ok: bool, id: ActionId)
    requires Enabled(w, RunTool(pid, ok))
    ensures Runs(Next(false, w, RunTool(pid, ok)), id) <= Runs(w, id)
  {
    var w' := Next(false, w, RunTool(pid, ok));
    LessOne(w, pid, id);
    GotoRuns(w, w', pid, w'.procs[pid], id);
  }

  lemma RowsOnly(w: World, w': World, id: ActionId)
    requires w'.runs == w.runs && w'.jobs == w.jobs && w'.procs == w.procs
    ensures Runs(w', id) == Runs(w, id)
  {
    assert WillRunIn(w', id) == WillRunIn(w, id);
  }

  /** Only a saved approval adds to them, and it adds one. */
  lemma StepAddsApprovals(w: World, e: Event, id: ActionId)
    requires Enabled(w, e)
    ensures Runs(Next(false, w, e), id) <= Runs(w, id) + if Approves(w, e, id) then 1 else 0
  {
    var w' := Next(false, w, e);
    match e
    case Save(pid) => SaveAdds(w, pid, id);
    case Enqueue(pid, ok) => EnqueueMoves(w, pid, ok, id);
    case Take(pid, i, member) => TakeMoves(w, pid, i, member, id);
    case RunTool(pid, ok) => RunToolMoves(w, pid, ok, id);
    case Decide(pid, i, approve, valid) =>
      if w'.procs == w.procs { RowsOnly(w, w', id); } else { ProcessMoves(w, w', pid, id); }
    case List(pid, _) => ProcessMoves(w, w', pid, id);
    case SweepNext(pid) => ProcessMoves(w, w', pid, id);
    case SaveFails(pid) => ProcessMoves(w, w', pid, id);
    case Finish(pid) => ProcessMoves(w, w', pid, id);
    case Crash(pid) => ProcessMoves(w, w', pid, id);
    case _ => RowsOnly(w, w', id);
  }

  lemma {:induction false} RunAddsApprovals(w: World, es: seq<Event>, id: ActionId)
    requires Valid(false, w, es)
    ensures Runs(After(false, w, es), id) <= Runs(w, id) + ApprovalsSaved(w, es, id)
    decreases |es|
  {
    if es != [] {
      StepAddsApprovals(w, es[0], id);
      RunAddsApprovals(Next(false, w, es[0]), es[1..], id);
    }
  }

  predicate IsDecided(w: World, id: ActionId) {
    id in w.rows && !w.rows[id].status.Pending?
  }

  lemma DecidedStays(w: World, e: Event, id: ActionId)
    requires Enabled(w, e) && IsDecided(w, id) && SavesOk(w)
    ensures IsDecided(Next(false, w, e), id)
  {
  }

  lemma SavesStayOk(w: World, e: Event)
    requires Enabled(w, e) && SavesOk(w) && SweepsOk(w)
    ensures SavesOk(Next(false, w, e)) && SweepsOk(Next(false, w, e))
  {
    if e.SweepNext? {
      SweepStaysOk(w, e.pid);
    } else if e.Save? {
      SavedStaysOk(w, e.pid);
    } else if e.Decide? || e.List? {
      ReadStaysOk(w, e);
    } else {
      OthersStayOk(w, e);
    }
  }

  lemma SweepStaysOk(w: World, pid: ProcId)
    requires Enabled(w, SweepNext(pid)) && SavesOk(w) && SweepsOk(w)
    ensures SavesOk(Next(false, w, SweepNext(pid))) && SweepsOk(Next(false, w, SweepNext(pid)))
  {
  }

  lemma SavedStaysOk(w: World, pid: ProcId)
    requires Enabled(w, Save(pid)) && SavesOk(w) && SweepsOk(w)
    ensures SavesOk(Next(false, w, Save(pid))) && SweepsOk(Next(false, w, Save(pid)))
  {
  }

  lemma ReadStaysOk(w: World, e: Event)
    requires Enabled(w, e) && SavesOk(w) && SweepsOk(w) && (e.Decide? || e.List?)
    ensures SavesOk(Next(false, w, e)) && SweepsOk(Next(false, w, e))
  {
  }

  lemma OthersStayOk(w: World, e: Event)
    requires Enabled(w, e) && SavesOk(w) && SweepsOk(w) && !e.SweepNext? && !e.Save? && !e.Decide? && !e.List?
    ensures SavesOk(Next(false, w, e)) && SweepsOk(Next(false, w, e))
  {
    var w' := Next(false, w, e);
    assert w.rows.Keys <= w'.rows.Keys;
    assert forall p | p in w'.procs && (w'.procs[p].Saving? || w'.procs[p].SweepSaving? || w'.procs[p].Sweeping?) ::
      p in w.procs && w.procs[p] == w'.procs[p];
  }

  /** An action is decided once: of its saved approvals all but the first are stale. */
  lemma {:induction false} AllButOneStale(w: World, es: seq<Event>, id: ActionId)
    requires Valid(false, w, es) && SavesOk(w) && SweepsOk(w)
    ensures ApprovalsSaved(w, es, id) <= StaleApprovals(w, es, id) + if IsDecided(w, id) then 0 else 1
    decreases |es|
  {
    if es != [] {
      SavesStayOk(w, es[0]);
      if IsDecided(w, id) {
        DecidedStays(w, es[0], id);
      }
      AllButOneStale(Next(false, w, es[0]), es[1..], id);
    }
  }

  /** In every run the tool of an action runs at most as often as its approval is saved, hence
      at most once more than the approvals that are stale, whatever else is. */
  lemma RunsAtMostApprovals(w: World, es: seq<Event>, id: ActionId)
    requires Initial(w) && Valid(false, w, es)
    ensures RunsOf(After(false, w, es), id) <= ApprovalsSaved(w, es, id) <= 1 + StaleApprovals(w, es, id)
  {
    assert WillRunIn(w, id) == {};
    RunAddsApprovals(w, es, id);
    AllButOneStale(w, es, id);
  }

  // ---------------------------------------------------------------- once an action is decided

  /** An approval about to be saved, an executor about to run the tool, or a job in the queue or
      on its way there for a row that names an approver and is, or will be written, APPROVED. */
  ghost predicate CanRun(w: World, id: ActionId)
    requires id in w.rows
  {
    || (exists p | p in w.procs :: w.procs[p] == Saving(id, Approved) || w.procs[p] == Running(id))
    || (w.rows[id].signed
        && (w.rows[id].status.Approved? || exists p | p in w.procs :: w.procs[p] == Finishing(id, false))
        && (w.jobs[id] > 0 || exists p | p in w.procs :: w.procs[p] == Enqueueing(id)))
  }

  ghost predicate RunsMore(w: World, id: ActionId) {
    exists es :: Valid(false, w, es) && RunsOf(After(false, w, es), id) > RunsOf(w, id)
  }

  lemma CannotStays(w: World, e: Event, id: ActionId)
    requires Enabled(w, e) && IsDecided(w, id) && SavesOk(w) && !CanRun(w, id)
    ensures id in Next(false, w, e).rows && !CanRun(Next(false, w, e), id) && RunsOf(Next(false, w, e), id) == RunsOf(w, id)
  {
    match e
    case Save(pid) => CannotStaysSave(w, pid, id);
    case Enqueue(pid, ok) => CannotStaysEnqueue(w, pid, ok, id);
    case Take(pid, i, member) => CannotStaysTake(w, pid, i, member, id);
    case RunTool(pid, ok) => CannotStaysRun(w, pid, ok, id);
    case Finish(pid) => CannotStaysFinish(w, pid, id);
    case _ => CannotStaysElse(w, e, id);
  }

  lemma CannotStaysSave(w: World, pid: ProcId, id: ActionId)
    requires AtSave(w, pid) && IsDecided(w, id) && SavesOk(w) && !CanRun(w, id)
    ensures var w' := Next(false, w, Save(pid)); id in w'.rows && !CanRun(w', id) && RunsOf(w', id) == RunsOf(w, id)
  {
    SaveMoves(w, pid);
    var w' := Next(false, w, Save(pid));
    assert w.procs[pid] != Saving(id, Approved);
    assert w'.rows[id].signed ==> w'.rows[id] == w.rows[id];
  }

  lemma CannotStaysEnqueue(w: World, pid: ProcId, ok: bool, id: ActionId)
    requires Enabled(w, Enqueue(pid, ok)) && IsDecided(w, id) && !CanRun(w, id)
    ensures var w' := Next(false, w, Enqueue(pid, ok)); id in w'.rows && !CanRun(w', id) && RunsOf(w', id) == RunsOf(w, id)
  {
  }

  lemma CannotStaysTake(w: World, pid: ProcId, i: ActionId, member: bool, id: ActionId)
    requires Enabled(w, Take(pid, i, member)) && IsDecided(w, id) && !CanRun(w, id)
    ensures var w' := Next(false, w, Take(pid, i, member)); id in w'.rows && !CanRun(w', id) && RunsOf(w', id) == RunsOf(w, id)
  {
  }

  lemma CannotStaysRun(w: World, pid: ProcId, ok: bool, id: ActionId)
    requires Enabled(w, RunTool(pid, ok)) && IsDecided(w, id) && !CanRun(w, id)
    ensures var w' := Next(false, w, RunTool(pid, ok)); id in w'.rows && !CanRun(w', id) && RunsOf(w', id) == RunsOf(w, id)
  {
  }

  lemma CannotStaysFinish(w: World, pid: ProcId, id: ActionId)
    requires Enabled(w, Finish(pid)) && IsDecided(w, id) && !CanRun(w, id)
    ensures var w' := Next(false, w, Finish(pid)); id in w'.rows && !CanRun(w', id) && RunsOf(w', id) == RunsOf(w, id)
  {
  }

  lemma CannotStaysElse(w: World, e: Event, id: ActionId)
    requires Enabled(w, e) && IsDecided(w, id) && !CanRun(w, id)
    requires e.Create? || e.Decide? || e.List? || e.SweepNext? || e.SaveFails? || e.ExpireAll? || e.Tick? || e.Crash?
    ensures id in Next(false, w, e).rows && !CanRun(Next(false, w, e), id) && RunsOf(Next(false, w, e), id) == RunsOf(w, id)
  {
    if e.Create? || e.ExpireAll? || e.Tick? {
      assert Next(false, w, e).rows[id] == w.rows[id];
    } else {
      BystandersStay(w, e, id);
    }
  }

  lemma BystandersStay(w: World, e: Event, id: ActionId)
    requires Enabled(w, e) && IsDecided(w, id) && !CanRun(w, id)
    requires e.Decide? || e.List? || e.SweepNext? || e.SaveFails? || e.Crash?
    ensures id in Next(false, w, e).rows && !CanRun(Next(false, w, e), id) && RunsOf(Next(false, w, e), id) == RunsOf(w, id)
  {
    var w' := Next(false, w, e);
    assert w'.rows == w.rows && w'.jobs == w.jobs && w'.runs == w.runs;
    forall p | p in w'.procs && !w'.procs[p].Sweeping? && !w'.procs[p].SweepSaving? && w'.procs[p].id == id
      ensures p in w.procs && w.procs[p] == w'.procs[p]
    {
    }
  }

  lemma {:induction false} CannotEver(w: World, es: seq<Event>, id: ActionId)
    requires Valid(false, w, es) && IsDecided(w, id) && SavesOk(w) && SweepsOk(w) && !CanRun(w, id)
    ensures RunsOf(After(false, w, es), id) == RunsOf(w, id)
    decreases |es|
  {
    if es != [] {
      CannotStays(w, es[0], id);
      SavesStayOk(w, es[0]);
      DecidedStays(w, es[0], id);
      CannotEver(Next(false, w, es[0]), es[1..], id);
    }
  }

  lemma {:induction false} ReachableSavesOk(w: World, es: seq<Event>)
    requires Valid(false, w, es) && SavesOk(w) && SweepsOk(w)
    ensures SavesOk(After(false, w, es)) && SweepsOk(After(false, w, es))
    decreases |es|
  {
    if es != [] {
      SavesStayOk(w, es[0]);
      ReachableSavesOk(Next(false, w, es[0]), es[1..]);
    }
  }

  // ---------------------------------------------------------------- the continuations

  lemma FreePid(w: World) returns (pid: ProcId)
    ensures pid !in w.procs
  {
    pid := SomeUnused(w.procs.Keys);
  }

  /** From an APPROVED row a queued job is taken and run. */
  lemma JobRuns(w: World, pid: ProcId, id: ActionId)
    requires id in w.rows && w.rows[id].status.Approved? && w.rows[id].signed && id in w.jobs && pid !in w.procs
    ensures RunsMore(w, id)
  {
    var v := Next(false, w, Take(pid, id, true));
    assert v.procs[pid] == Running(id);
    RunningRuns(v, pid, id);
    MoreAfterStep(w, Take(pid, id, true), id);
  }

  lemma EnqueueingRuns(w: World, pid: ProcId, id: ActionId)
    requires id in w.rows && w.rows[id].status.Approved? && w.rows[id].signed && pid in w.procs && w.procs[pid] == Enqueueing(id)
    ensures RunsMore(w, id)
  {
    var v := Next(false, w, Enqueue(pid, true));
    JobRuns(v, pid, id);
    MoreAfterStep(w, Enqueue(pid, true), id);
  }

  /** A step that runs nothing can be put first. */
  lemma MoreAfterStep(w: World, e: Event, id: ActionId)
    requires Enabled(w, e) && RunsMore(Next(false, w, e), id) && RunsOf(Next(false, w, e), id) >= RunsOf(w, id)
    ensures RunsMore(w, id)
  {
    var v := Next(false, w, e);
    var es :| Valid(false, v, es) && RunsOf(After(false, v, es), id) > RunsOf(v, id);
    var longer := [e] + es;
    assert longer[0] == e && longer[1..] == es;
    assert Valid(false, w, longer) && After(false, w, longer) == After(false, v, es);
  }

  /** An approval in flight is saved, queued, taken and run, and leaves everything else as it was. */
  lemma ApprovalRuns(w: World, pid: ProcId, id: ActionId) returns (es: seq<Event>, v: World)
    requires id in w.rows && pid in w.procs && w.procs[pid] == Saving(id, Approved)
    ensures Reaches(w, es, v) && RunsOf(v, id) == RunsOf(w, id) + 1 && v.jobs == w.jobs
    ensures v.procs == w.procs[pid := Finishing(id, true)] && id in v.rows && v.rows[id].status.Approved? && v.rows[id].signed
  {
    assert Reaches(w, [], w);
    es, v := [], w;
    Step(w, es, v, Save(pid));
    es, v := es + [Save(pid)], Next(false, v, Save(pid));
    assert v.procs[pid] == Enqueueing(id) && v.rows[id].status.Approved? && v.rows[id].signed;
    Step(w, es, v, Enqueue(pid, true));
    es, v := es + [Enqueue(pid, true)], Next(false, v, Enqueue(pid, true));
    assert v.jobs == w.jobs + multiset{id} && pid !in v.procs;
    Step(w, es, v, Take(pid, id, true));
    es, v := es + [Take(pid, id, true)], Next(false, v, Take(pid, id, true));
    assert v.procs[pid] == Running(id) && v.jobs == w.jobs;
    Step(w, es, v, RunTool(pid, true));
    es, v := es + [RunTool(pid, true)], Next(false, v, RunTool(pid, true));
  }

  lemma RunningRuns(w: World, pid: ProcId, id: ActionId)
    requires pid in w.procs && w.procs[pid] == Running(id)
    ensures RunsMore(w, id)
  {
    var es, v := [RunTool(pid, true)], Next(false, w, RunTool(pid, true));
    assert es[1..] == [] && After(false, v, []) == v && Valid(false, v, []);
    assert Valid(false, w, es) && After(false, w, es) == v;
  }

  lemma ApprovedRuns(w: World, id: ActionId)
    requires id in w.rows && w.rows[id].status.Approved? && w.rows[id].signed
    requires w.jobs[id] > 0 || exists p | p in w.procs :: w.procs[p] == Enqueueing(id)
    ensures RunsMore(w, id)
  {
    if w.jobs[id] > 0 {
      var pid := FreePid(w);
      JobRuns(w, pid, id);
    } else {
      var p :| p in w.procs && w.procs[p] == Enqueueing(id);
      EnqueueingRuns(w, p, id);
    }
  }

  lemma CanRunRuns(w: World, id: ActionId)
    requires id in w.rows && CanRun(w, id)
    ensures RunsMore(w, id)
  {
    if p :| p in w.procs && w.procs[p] == Saving(id, Approved) {
      var es, v := ApprovalRuns(w, p, id);
    } else if p :| p in w.procs && w.procs[p] == Running(id) {
      RunningRuns(w, p, id);
    } else if w.rows[id].status.Approved? {
      ApprovedRuns(w, id);
    } else {
      var f :| f in w.procs && w.procs[f] == Finishing(id, false);
      var v := Next(false, w, Finish(f));
      if q :| q in w.procs && w.procs[q] == Enqueueing(id) {
        assert v.procs[q] == Enqueueing(id);
      }
      ApprovedRuns(v, id);
      MoreAfterStep(w, Finish(f), id);
    }
  }

  /** Once an action is decided, whether rejected, expired, executed or approved, its tool runs
      once more in some continuation exactly when CanRun says so. */
  lemma RunsAgainExactly(w: World, es: seq<Event>, id: ActionId)
    requires Initial(w) && Valid(false, w, es) && IsDecided(After(false, w, es), id)
    ensures RunsMore(After(false, w, es), id) <==> CanRun(After(false, w, es), id)
  {
    ReachableSavesOk(w, es);
    var v := After(false, w, es);
    if CanRun(v, id) {
      CanRunRuns(v, id);
    } else {
      forall more | Valid(false, v, more) ensures RunsOf(After(false, v, more), id) == RunsOf(v, id) {
        CannotEver(v, more, id);
      }
    }
  }

  lemma {:induction false} RunsJoin(w: World, a: seq<Event>, b: seq<Event>)
    requires Valid(false, w, a) && Valid(false, After(false, w, a), b)
    ensures Valid(false, w, a + b) && After(false, w, a + b) == After(false, After(false, w, a), b)
    decreases |a|
  {
    if a == [] {
      assert a + b == b;
    } else {
      assert (a + b)[1..] == a[1..] + b;
      RunsJoin(Next(false, w, a[0]), a[1..], b);
    }
  }

  /** An approval about to be saved while the action has run, or its run is queued or on its
      way, makes the tool run twice in some continuation. */
  lemma SecondApprovalRunsTwice(w: World, pid: ProcId, id: ActionId)
    requires id in w.rows && pid in w.procs && w.procs[pid] == Saving(id, Approved) && Runs(w, id) > 0
    ensures exists es :: Valid(false, w, es) && RunsOf(After(false, w, es), id) >= 2
  {
    var es, v := ApprovalRuns(w, pid, id);
    if RunsOf(w, id) == 0 {
      if w.jobs[id] == 0 {
        var q :| q in WillRunIn(w, id);
        assert q != pid && v.procs[q] == w.procs[q];
      }
      CanRunRuns(v, id);
      var more :| Valid(false, v, more) && RunsOf(After(false, v, more), id) > RunsOf(v, id);
      RunsJoin(w, es, more);
    }
  }

  // ---------------------------------------------------------------- the executor's own write

  /** An approval is saved and its tool taken up; a rejection read earlier is saved over it;
      the tool runs while the row is REJECTED; and the executor writes EXECUTED over that. */
  lemma ExecutorOverwritesRejection() returns (es: seq<Event>, v: World)
    ensures Reaches(EmptyWorld, es, v) && FinishesOver(v, Finish(3)) && !Overwrites(v, Finish(3))
    ensures 0 in v.rows && v.rows[0].status == Rejected && RunsOf(v, 0) == 1
    ensures Next(false, v, Finish(3)).rows[0 := Row(Executed, 10, false)] == Next(false, v, Finish(3)).rows
  {
    es := BothCanRead(false);
    v := BothRead(Rejected);
    Step(EmptyWorld, es, v, Save(1));
    es, v := es + [Save(1)], Next(false, v, Save(1));
    assert v.procs == map[1 := Enqueueing(0), 2 := Saving(0, Rejected)];
    Step(EmptyWorld, es, v, Enqueue(1, true));
    es, v := es + [Enqueue(1, true)], Next(false, v, Enqueue(1, true));
    assert v.procs == map[2 := Saving(0, Rejected)] && v.jobs == multiset{0} && v.rows == map[0 := Row(Approved, 10, true)];
    es, v := RejectedWhileRunning(es, v);
  }

  lemma RejectedWhileRunning(es: seq<Event>, v: World) returns (es': seq<Event>, v': World)
    requires Reaches(EmptyWorld, es, v) && v.procs == map[2 := Saving(0, Rejected)] && v.jobs == multiset{0}
    requires v.rows == map[0 := Row(Approved, 10, true)] && v.runs == map[]
    ensures Reaches(EmptyWorld, es', v') && v'.rows == map[0 := Row(Rejected, 10, false)]
    ensures v'.procs == map[3 := Finishing(0, true)] && RunsOf(v', 0) == 1
  {
    es', v' := es, v;
    Step(EmptyWorld, es', v', Take(3, 0, true));
    es', v' := es' + [Take(3, 0, true)], Next(false, v', Take(3, 0, true));
    assert v'.procs == map[2 := Saving(0, Rejected), 3 := Running(0)];
    Step(EmptyWorld, es', v', Save(2));
    es', v' := es' + [Save(2)], Next(false, v', Save(2));
    assert v'.procs == map[3 := Running(0)] && v'.rows == map[0 := Row(Rejected, 10, false)];
    Step(EmptyWorld, es', v', RunTool(3, true));
    es', v' := es' + [RunTool(3, true)], Next(false, v', RunTool(3, true));
  }

  // ---------------------------------------------------------------- the erased approver

  /** Two approvals and a rejection read one pending action, and one approval is saved. */
  lemma ThreeRead() returns (es: seq<Event>, v: World)
    ensures Reaches(EmptyWorld, es, v) && v.rows == map[0 := Row(Approved, 10, true)] && v.jobs == multiset{}
    ensures v.procs == map[1 := Enqueueing(0), 2 := Saving(0, Approved), 3 := Saving(0, Rejected)]
  {
    es := BothCanRead(true);
    v := BothRead(Approved);
    Step(EmptyWorld, es, v, Decide(3, 0, false, true));
    es, v := es + [Decide(3, 0, false, true)], Next(false, v, Decide(3, 0, false, true));
    assert v.procs == map[1 := Saving(0, Approved), 2 := Saving(0, Approved), 3 := Saving(0, Rejected)];
    Step(EmptyWorld, es, v, Save(1));
    es, v := es + [Save(1)], Next(false, v, Save(1));
  }

  /** The first approval runs its tool, which fails; then the second is saved, and the rejection
      over it. */
  lemma RejectedBetween() returns (es: seq<Event>, v: World)
    ensures Reaches(EmptyWorld, es, v) && v.rows == map[0 := Row(Rejected, 10, false)]
    ensures v.procs == map[2 := Enqueueing(0), 4 := Finishing(0, false)] && v.jobs == multiset{}
  {
    es, v := ThreeRead();
    es, v := FirstRunFails(es, v);
    Step(EmptyWorld, es, v, Save(2));
    es, v := es + [Save(2)], Next(false, v, Save(2));
    assert v.procs == map[2 := Enqueueing(0), 3 := Saving(0, Rejected), 4 := Finishing(0, false)];
    Step(EmptyWorld, es, v, Save(3));
    es, v := es + [Save(3)], Next(false, v, Save(3));
  }

  lemma FirstRunFails(es: seq<Event>, v: World) returns (es': seq<Event>, v': World)
    requires Reaches(EmptyWorld, es, v) && v.rows == map[0 := Row(Approved, 10, true)] && v.jobs == multiset{}
    requires v.procs == map[1 := Enqueueing(0), 2 := Saving(0, Approved), 3 := Saving(0, Rejected)]
    ensures Reaches(EmptyWorld, es', v') && v'.rows == v.rows && v'.jobs == multiset{}
    ensures v'.procs == map[2 := Saving(0, Approved), 3 := Saving(0, Rejected), 4 := Finishing(0, false)]
  {
    es', v' := es, v;
    Step(EmptyWorld, es', v', Enqueue(1, true));
    es', v' := es' + [Enqueue(1, true)], Next(false, v', Enqueue(1, true));
    assert v'.procs == map[2 := Saving(0, Approved), 3 := Saving(0, Rejected)] && v'.jobs == multiset{0};
    Step(EmptyWorld, es', v', Take(4, 0, true));
    es', v' := es' + [Take(4, 0, true)], Next(false, v', Take(4, 0, true));
    assert v'.procs == map[2 := Saving(0, Approved), 3 := Saving(0, Rejected), 4 := Running(0)];
    Step(EmptyWorld, es', v', RunTool(4, false));
    es', v' := es' + [RunTool(4, false)], Next(false, v', RunTool(4, false));
  }

  /** From there the executor writes APPROVED again and the second job is queued; but the row
      names no approver any more, and the tool never runs again. */
  lemma ErasedApproverStops() returns (es: seq<Event>, v: World)
    ensures Reaches(EmptyWorld, es, v) && v.rows == map[0 := Row(Approved, 10, false)] && v.jobs == multiset{0}
    ensures !RunsMore(v, 0)
  {
    es, v := RejectedBetween();
    Step(EmptyWorld, es, v, Finish(4));
    es, v := es + [Finish(4)], Next(false, v, Finish(4));
    assert v.procs == map[2 := Enqueueing(0)] && v.rows == map[0 := Row(Approved, 10, false)];
    Step(EmptyWorld, es, v, Enqueue(2, true));
    es, v := es + [Enqueue(2, true)], Next(false, v, Enqueue(2, true));
    assert v.procs == map[] && v.jobs == multiset{0};
    RunsAgainExactly(EmptyWorld, es, 0);
  }
}
