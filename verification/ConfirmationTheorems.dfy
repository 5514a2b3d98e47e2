/** What holds of human approval in every run, and what the unconditional save breaks. */
module ConfirmationTheorems {
  import opened Options
  import opened Confirmation

  ghost predicate Initial(w: World) {
    w.rows == map[] && w.jobs == multiset{} && w.procs == map[] && w.runs == map[] && w.onTime == {}
  }

  lemma InitialIsFine(w: World)
    requires Initial(w)
    ensures Inv(w)
  {
  }

  /** Where save is a compare-and-set no save is ever stale. */
  lemma {:induction false} CasIsNeverStale(w: World, es: seq<Event>)
    ensures NoneStale(true, w, es)
    decreases |es|
  {
    if es != [] {
      CasIsNeverStale(Next(true, w, es[0]), es[1..]);
    }
  }

  // ---------------------------------------------------------------- terminal statuses

  /** The step is a save that overwrites a terminal status with another one. */
  predicate Overwrites(w: World, e: Event) {
    && Stale(w, e) && Terminal(w.rows[w.procs[e.pid].id].status)
    && TargetOf(w.procs[e.pid]) != w.rows[w.procs[e.pid].id].status
  }

  function OutcomeOf(ok: bool): Status {
    if ok then Executed else Approved
  }

  /** The step is an executor writing its outcome over a terminal status that is another one. */
  predicate FinishesOver(w: World, e: Event) {
    && e.Finish? && e.pid in w.procs && w.procs[e.pid].Finishing? && w.procs[e.pid].id in w.rows
    && Terminal(w.rows[w.procs[e.pid].id].status)
    && w.rows[w.procs[e.pid].id].status != OutcomeOf(w.procs[e.pid].ok)
  }

  ghost predicate LosesTerminal(w: World, w': World, id: ActionId) {
    id in w.rows && Terminal(w.rows[id].status) && !(id in w'.rows && w'.rows[id].status == w.rows[id].status)
  }

  /** As the storage is written, in any state at all, a terminal status is lost in a step
      exactly when the step is such a save or such an executor. */
  lemma TerminalLostExactly(w: World, e: Event)
    requires Enabled(w, e)
    ensures (exists id :: LosesTerminal(w, Next(false, w, e), id)) <==> Overwrites(w, e) || FinishesOver(w, e)
  {
    if Overwrites(w, e) || FinishesOver(w, e) {
      assert LosesTerminal(w, Next(false, w, e), w.procs[e.pid].id);
    }
  }

  /** With a compare-and-set, or where no save has been stale yet, neither happens. */
  lemma TerminalStays(cas: bool, w: World, e: Event, id: ActionId)
    requires Inv(w) && Enabled(w, e) && (cas || !Overwrites(w, e))
    ensures !FinishesOver(w, e) && !LosesTerminal(w, Next(cas, w, e), id)
  {
    assert ActionOk(w, id);
    if e.Finish? {
      assert Carries(w.procs[e.pid], w.procs[e.pid].id);
      assert ActionOk(w, w.procs[e.pid].id);
    }
  }

  /** Over whole runs without stale saves REJECTED, EXPIRED and EXECUTED are final. */
  lemma {:induction false} TerminalIsFinal(cas: bool, w: World, es: seq<Event>, id: ActionId)
    requires Inv(w) && Valid(cas, w, es) && NoneStale(cas, w, es)
    requires id in w.rows && Terminal(w.rows[id].status)
    ensures id in After(cas, w, es).rows && After(cas, w, es).rows[id].status == w.rows[id].status
    decreases |es|
  {
    if es != [] {
      StepKeeps(cas, w, es[0]);
      TerminalStays(cas, w, es[0], id);
      TerminalIsFinal(cas, Next(cas, w, es[0]), es[1..], id);
    }
  }

  // ---------------------------------------------------------------- the tool

  /** The tool of an action runs at most once, and only if the action was approved on time;
      a rejected or expired one never runs. */
  lemma ToolRunsOnce(cas: bool, w: World, es: seq<Event>, id: ActionId)
    requires Initial(w) && Valid(cas, w, es) && NoneStale(cas, w, es)
    ensures var v := After(cas, w, es);
            && RunsOf(v, id) <= 1
            && (RunsOf(v, id) == 1 ==> id in v.onTime && id in v.rows && v.rows[id].status in {Approved, Executed})
            && (id in v.rows && v.rows[id].status in {Pending, Rejected, Expired} ==> RunsOf(v, id) == 0)
  {
    InitialIsFine(w);
    RunKeeps(cas, w, es);
    assert ActionOk(After(cas, w, es), id);
  }

  lemma {:induction false} RunsNeverDrop(cas: bool, w: World, es: seq<Event>, id: ActionId)
    requires Valid(cas, w, es)
    ensures RunsOf(After(cas, w, es), id) >= RunsOf(w, id)
    decreases |es|
  {
    if es != [] {
      RunsNeverDrop(cas, Next(cas, w, es[0]), es[1..], id);
    }
  }

  /** A tool that failed is not tried again: the executor leaves the action APPROVED, with no
      job, no process that carries it, and one run; and in every later state of a run without
      stale saves it is still that one run. */
  lemma FailedIsNotRetried(cas: bool, w: World, es: seq<Event>, pid: ProcId, id: ActionId, later: seq<Event>)
    requires Initial(w) && Valid(cas, w, es) && NoneStale(cas, w, es)
    requires var v := After(cas, w, es); pid in v.procs && v.procs[pid] == Finishing(id, false)
    requires var v' := Next(cas, After(cas, w, es), Finish(pid)); Valid(cas, v', later) && NoneStale(cas, v', later)
    ensures var v' := Next(cas, After(cas, w, es), Finish(pid));
            && id in v'.rows && v'.rows[id].status.Approved? && v'.jobs[id] == 0
            && (forall p | p in v'.procs :: !Carries(v'.procs[p], id))
            && RunsOf(v', id) == 1 && RunsOf(After(cas, v', later), id) == 1
  {
    InitialIsFine(w);
    RunKeeps(cas, w, es);
    var v := After(cas, w, es);
    assert ActionOk(v, id) && Carries(v.procs[pid], id);
    var v' := Next(cas, v, Finish(pid));
    FinishKeeps(cas, v, pid);
    RunKeeps(cas, v', later);
    RunsNeverDrop(cas, v', later, id);
    assert ActionOk(After(cas, v', later), id);
  }

  /** Some approval read the action pending and unexpired. */
  ghost predicate ReadOnTime(cas: bool, w: World, es: seq<Event>, id: ActionId) {
    exists i, pid | 0 <= i < |es| && es[i] == Decide(pid, id, true, true) ::
      var v := After(cas, w, es[..i]);
      id in v.rows && v.rows[id].status.Pending? && v.rows[id].expiresAt >= v.now
  }

  lemma {:induction false} RunExtends(cas: bool, w: World, es: seq<Event>, e: Event)
    ensures After(cas, w, es + [e]) == Next(cas, After(cas, w, es), e)
    ensures Valid(cas, w, es + [e]) <==> Valid(cas, w, es) && Enabled(After(cas, w, es), e)
    decreases |es|
  {
    if es == [] {
      assert es + [e] == [e];
      assert After(cas, w, [e]) == After(cas, Next(cas, w, e), []);
      assert Valid(cas, w, [e]) <==> Enabled(w, e) && Valid(cas, Next(cas, w, e), []);
    } else {
      RunExtends(cas, Next(cas, w, es[0]), es[1..], e);
      assert (es + [e])[1..] == es[1..] + [e];
    }
  }

  lemma ReadStaysOnTime(cas: bool, w: World, es: seq<Event>, e: Event, id: ActionId)
    requires ReadOnTime(cas, w, es, id)
    ensures ReadOnTime(cas, w, es + [e], id)
  {
    var i, pid :| 0 <= i < |es| && es[i] == Decide(pid, id, true, true)
                  && var v := After(cas, w, es[..i]); id in v.rows && v.rows[id].status.Pending? && v.rows[id].expiresAt >= v.now;
    assert (es + [e])[i] == es[i] && (es + [e])[..i] == es[..i];
  }

  lemma NowOnTime(cas: bool, w: World, es: seq<Event>, pid: ProcId, id: ActionId)
    requires var v := After(cas, w, es); id in v.rows && v.rows[id].status.Pending? && v.rows[id].expiresAt >= v.now
    ensures ReadOnTime(cas, w, es + [Decide(pid, id, true, true)], id)
  {
    var e := Decide(pid, id, true, true);
    assert (es + [e])[|es|] == e && (es + [e])[..|es|] == es;
  }

  /** An approval in flight, or one recorded as on time, goes back to such a read. */
  lemma {:induction false} ApprovalsAreOnTime(cas: bool, w: World, es: seq<Event>, id: ActionId)
    requires Initial(w) && Valid(cas, w, es)
    ensures var v := After(cas, w, es);
            && (forall p | p in v.procs && v.procs[p] == Saving(id, Approved) :: ReadOnTime(cas, w, es, id))
            && (id in v.onTime ==> ReadOnTime(cas, w, es, id))
    decreases |es|
  {
    if es != [] {
      var n := |es| - 1;
      var rest, e := es[..n], es[n];
      assert es == rest + [e];
      RunExtends(cas, w, rest, e);
      ApprovalsAreOnTime(cas, w, rest, id);
      if ReadOnTime(cas, w, rest, id) {
        ReadStaysOnTime(cas, w, rest, e, id);
      } else {
        NewApprovalsAreReads(cas, After(cas, w, rest), e, id);
        if e.Decide? && e == Decide(e.pid, id, true, true) && Decided(After(cas, w, rest), e.pid, id, true, true).procs != After(cas, w, rest).procs {
          var v := After(cas, w, rest);
          if id in v.rows && v.rows[id].status.Pending? && v.rows[id].expiresAt >= v.now {
            NowOnTime(cas, w, rest, e.pid, id);
          }
        }
      }
    }
  }

  ghost predicate NoApproval(v: World, id: ActionId) {
    (forall p | p in v.procs :: v.procs[p] != Saving(id, Approved)) && id !in v.onTime
  }

  /** Approvals start only with a read that finds the action pending and in time. */
  lemma NewApprovalsAreReads(cas: bool, v: World, e: Event, id: ActionId)
    requires Enabled(v, e) && NoApproval(v, id)
    ensures id !in Next(cas, v, e).onTime
    ensures (forall p | p in Next(cas, v, e).procs && Next(cas, v, e).procs[p] == Saving(id, Approved) ::
               && e == Decide(p, id, true, true)
               && id in v.rows && v.rows[id].status.Pending? && v.rows[id].expiresAt >= v.now)
  {
    if e.Save? {
      NoApprovalBySave(cas, v, e.pid, id);
    } else if e.SweepNext? || e.List? {
      NoApprovalBySweep(cas, v, e, id);
    } else if !e.Decide? {
      NoApprovalElsewhere(cas, v, e, id);
    }
  }

  lemma NoApprovalBySave(cas: bool, v: World, pid: ProcId, id: ActionId)
    requires Enabled(v, Save(pid)) && NoApproval(v, id)
    ensures NoApproval(Next(cas, v, Save(pid)), id)
  {
  }

  lemma NoApprovalBySweep(cas: bool, v: World, e: Event, id: ActionId)
    requires Enabled(v, e) && NoApproval(v, id) && (e.SweepNext? || e.List?)
    ensures NoApproval(Next(cas, v, e), id)
  {
  }

  lemma NoApprovalElsewhere(cas: bool, v: World, e: Event, id: ActionId)
    requires Enabled(v, e) && NoApproval(v, id) && !e.SweepNext? && !e.List? && !e.Save? && !e.Decide?
    ensures NoApproval(Next(cas, v, e), id)
  {
  }

  // ---------------------------------------------------------------- what the unconditional save breaks

  ghost predicate Reaches(w: World, es: seq<Event>, v: World) {
    Valid(false, w, es) && After(false, w, es) == v
  }

  lemma Step(w: World, es: seq<Event>, v: World, e: Event)
    requires Reaches(w, es, v) && Enabled(v, e)
    ensures Reaches(w, es + [e], Next(false, v, e))
  {
    RunExtends(false, w, es, e);
  }

  /** Two calls that read one pending action before either saves. */
  function BothRead(second: Status): World {
    World(map[0 := Row(Pending, 10, false)], 0, multiset{}, map[1 := Saving(0, Approved), 2 := Saving(0, second)], map[], {})
  }

  lemma BothCanRead(approve: bool) returns (es: seq<Event>)
    ensures Reaches(EmptyWorld, es, BothRead(if approve then Approved else Rejected))
  {
    assert Reaches(EmptyWorld, [], EmptyWorld);
    var v := EmptyWorld;
    es := [Create(0, 10)];
    Step(EmptyWorld, [], v, Create(0, 10));
    v := Next(false, v, Create(0, 10));
    Step(EmptyWorld, es, v, Decide(1, 0, true, true));
    es, v := es + [Decide(1, 0, true, true)], Next(false, v, Decide(1, 0, true, true));
    Step(EmptyWorld, es, v, Decide(2, 0, approve, true));
    es, v := es + [Decide(2, 0, approve, true)], Next(false, v, Decide(2, 0, approve, true));
    assert v.procs == BothRead(if approve then Approved else Rejected).procs;
  }

  /** The rejection is saved first and the approval over it: the tool of a rejected action runs. */
  lemma RejectionIsOverwritten() returns (es: seq<Event>, rejected: World, v: World)
    ensures Reaches(EmptyWorld, es, v) && RunsOf(v, 0) == 1
    ensures rejected.rows[0 := Row(Rejected, 10, false)] == rejected.rows && exists n | 0 <= n <= |es| :: After(false, EmptyWorld, es[..n]) == rejected
  {
    es := BothCanRead(false);
    v := BothRead(Rejected);
    Step(EmptyWorld, es, v, Save(2));
    es, v := es + [Save(2)], Next(false, v, Save(2));
    rejected := v;
    var n := |es|;
    assert es[..n] == es;
    assert v.rows[0] == Row(Rejected, 10, false) && v.procs == map[1 := Saving(0, Approved)];
    var more, v' := SaveThenRun(es, v);
    assert more[..n] == es;
    es, v := more, v';
  }

  lemma SaveThenRun(es: seq<Event>, v: World) returns (es': seq<Event>, v': World)
    requires Reaches(EmptyWorld, es, v) && 0 in v.rows && v.procs == map[1 := Saving(0, Approved)] && v.jobs == multiset{} && v.runs == map[]
    ensures Reaches(EmptyWorld, es', v') && RunsOf(v', 0) == 1 && es <= es'
  {
    es', v' := es, v;
    Step(EmptyWorld, es', v', Save(1));
    es', v' := es' + [Save(1)], Next(false, v', Save(1));
    assert v'.procs == map[1 := Enqueueing(0)];
    Step(EmptyWorld, es', v', Enqueue(1, true));
    es', v' := es' + [Enqueue(1, true)], Next(false, v', Enqueue(1, true));
    assert v'.procs == map[] && 0 in v'.jobs;
    Step(EmptyWorld, es', v', Take(3, 0, true));
    es', v' := es' + [Take(3, 0, true)], Next(false, v', Take(3, 0, true));
    assert v'.procs[3] == Running(0);
    Step(EmptyWorld, es', v', RunTool(3, true));
    es', v' := es' + [RunTool(3, true)], Next(false, v', RunTool(3, true));
  }

  lemma BothSaved() returns (es: seq<Event>, v: World)
    ensures Reaches(EmptyWorld, es, v) && v.procs == map[1 := Enqueueing(0), 2 := Enqueueing(0)] && v.jobs == multiset{} && v.runs == map[]
    ensures 0 in v.rows && v.rows[0] == Row(Approved, 10, true)
  {
    es := BothCanRead(true);
    v := BothRead(Approved);
    Step(EmptyWorld, es, v, Save(1));
    es, v := es + [Save(1)], Next(false, v, Save(1));
    assert v.procs == map[1 := Enqueueing(0), 2 := Saving(0, Approved)];
    Step(EmptyWorld, es, v, Save(2));
    es, v := es + [Save(2)], Next(false, v, Save(2));
  }

  /** Two approvals of one action are both saved and queued, two executors find it APPROVED:
      its tool runs twice. */
  lemma ToolRunsTwice() returns (es: seq<Event>, v: World)
    ensures Reaches(EmptyWorld, es, v) && RunsOf(v, 0) == 2
  {
    es, v := BothSaved();
    Step(EmptyWorld, es, v, Enqueue(1, true));
    es, v := es + [Enqueue(1, true)], Next(false, v, Enqueue(1, true));
    assert v.procs == map[2 := Enqueueing(0)] && v.jobs == multiset{0};
    Step(EmptyWorld, es, v, Enqueue(2, true));
    es, v := es + [Enqueue(2, true)], Next(false, v, Enqueue(2, true));
    assert v.procs == map[] && v.jobs == multiset{0, 0};
    es, v := BothRun(es, v);
  }

  lemma BothRun(es: seq<Event>, v: World) returns (es': seq<Event>, v': World)
    requires Reaches(EmptyWorld, es, v) && v.procs == map[] && v.jobs == multiset{0, 0} && v.runs == map[]
    requires 0 in v.rows && v.rows[0] == Row(Approved, 10, true)
    ensures Reaches(EmptyWorld, es', v') && RunsOf(v', 0) == 2
  {
    es', v' := BothTaken(es, v);
    Step(EmptyWorld, es', v', RunTool(3, true));
    es', v' := es' + [RunTool(3, true)], Next(false, v', RunTool(3, true));
    assert v'.procs[4] == Running(0) && RunsOf(v', 0) == 1;
    Step(EmptyWorld, es', v', RunTool(4, true));
    es', v' := es' + [RunTool(4, true)], Next(false, v', RunTool(4, true));
  }

  lemma BothTaken(es: seq<Event>, v: World) returns (es': seq<Event>, v': World)
    requires Reaches(EmptyWorld, es, v) && v.procs == map[] && v.jobs == multiset{0, 0} && v.runs == map[]
    requires 0 in v.rows && v.rows[0] == Row(Approved, 10, true)
    ensures Reaches(EmptyWorld, es', v') && v'.procs == map[3 := Running(0), 4 := Running(0)] && v'.runs == map[]
  {
    es', v' := es, v;
    Step(EmptyWorld, es', v', Take(3, 0, true));
    es', v' := es' + [Take(3, 0, true)], Next(false, v', Take(3, 0, true));
    assert v'.procs == map[3 := Running(0)] && v'.jobs == multiset{0};
    Step(EmptyWorld, es', v', Take(4, 0, true));
    es', v' := es' + [Take(4, 0, true)], Next(false, v', Take(4, 0, true));
  }
}
