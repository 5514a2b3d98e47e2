/**
 * createTask, createWorkbenchTask and bindWorkbenchTask as straight-line code over the
 * shared state. Each awaited effect is one step of the protocol, and other calls run in
 * between; so every execution is a run of the protocol and inherits its guarantees. With
 * `calm` set nothing fails and nobody interferes, and the contract says what the call does.
 */
module CardService {
  import opened Options
  import opened CardCreation
  import opened CardInvariant
  import opened CardSteps
  import opened CardTheorems
  import opened Ids

  /** `w'` is reached from `w` by some run. */
  ghost predicate Follows(cfg: Profile, w: World, w': World) {
    exists es :: Valid(cfg, w, es) && After(cfg, w, es) == w'
  }

  lemma FollowsItself(cfg: Profile, w: World)
    ensures Follows(cfg, w, w)
  {
    assert Valid(cfg, w, []) && After(cfg, w, []) == w;
  }

  lemma FollowsStep(cfg: Profile, w: World, e: Event)
    requires Enabled(cfg, w, e)
    ensures Follows(cfg, w, Next(cfg, w, e))
  {
    var v := Next(cfg, w, e);
    assert Valid(cfg, v, []);
    assert After(cfg, w, [e]) == After(cfg, v, []);
  }

  lemma {:induction false} RunsJoin(cfg: Profile, w: World, a: seq<Event>, b: seq<Event>)
    requires Valid(cfg, w, a) && Valid(cfg, After(cfg, w, a), b)
    ensures Valid(cfg, w, a + b) && After(cfg, w, a + b) == After(cfg, After(cfg, w, a), b)
    decreases |a|
  {
    if a == [] {
      assert a + b == b;
    } else {
      RunsJoin(cfg, Next(cfg, w, a[0]), a[1..], b);
      assert (a + b)[1..] == a[1..] + b;
    }
  }

  lemma FollowsJoin(cfg: Profile, u: World, v: World, w: World)
    requires Follows(cfg, u, v) && Follows(cfg, v, w)
    ensures Follows(cfg, u, w)
  {
    var a :| Valid(cfg, u, a) && After(cfg, u, a) == v;
    var b :| Valid(cfg, v, b) && After(cfg, v, b) == w;
    RunsJoin(cfg, u, a, b);
  }

  lemma ReachableFollows(cfg: Profile, v: World, w: World)
    requires Reachable(cfg, v) && Follows(cfg, v, w)
    ensures Reachable(cfg, w)
  {
    var u, a :| Initial(u) && Valid(cfg, u, a) && After(cfg, u, a) == v;
    var b :| Valid(cfg, v, b) && After(cfg, v, b) == w;
    RunsJoin(cfg, u, a, b);
  }

  lemma InvOf(cfg: Profile, w: World)
    requires ValidProfile(cfg) && Reachable(cfg, w)
    ensures Inv(cfg, w)
  {
    var v, es :| Initial(v) && Valid(cfg, v, es) && After(cfg, v, es) == w;
    ReachableIsSound(cfg, v, es);
  }

  // ---------------------------------------------------------------- what a calm call does

  /** Board, receipts and anchors are what a call leaves behind. */
  ghost predicate Leaves(w: World, cards: map<TaskId, Card>, receipts: map<Slot, Receipt>, anchors: map<ConvId, TaskId>) {
    w.cards == cards && w.receipts == receipts && w.anchors == anchors
  }

  ghost predicate SameStores(w: World, w': World) {
    Leaves(w', w.cards, w.receipts, w.anchors) && w'.used == w.used
  }

  function ReceiptAt(w: World, s: Slot): Option<Receipt> {
    if s in w.receipts then Some(w.receipts[s]) else None
  }

  function AnchoredOnce(w: World, conv: ConvId, t: TaskId): map<ConvId, TaskId> {
    if conv in w.anchors then w.anchors else w.anchors[conv := t]
  }

  ghost predicate AlreadyDone(w: World, s: Slot) {
    s in w.receipts && w.receipts[s].Done?
  }

  /** A call whose receipt is done repeats its answer, and only re-anchors. */
  ghost predicate Repeats(cfg: Profile, w: World, w': World, c: Call, r: Result, t: TaskId) {
    && Leaves(w', w.cards, w.receipts, AnchoredOnce(w, c.conv, t))
    && r == if Shown(cfg, w, c, t) then Success(t) else Failure
  }

  ghost predicate Declines(w: World, w': World, r: Result) {
    Leaves(w', w.cards, w.receipts, w.anchors) && r == Failure
  }

  /** A fresh card, the only one its receipt names, and the conversation's anchor. */
  ghost predicate Creates(cfg: Profile, w: World, w': World, c: Call, r: Result) {
    && r.Success? && r.task !in w.used
    && Leaves(w', w.cards[r.task := Card(ListOf(cfg, c), PhoneOf(c), SlotOf(c))],
              w.receipts[SlotOf(c) := Done(r.task)], w.anchors[c.conv := r.task])
  }

  ghost predicate CalmCreateTask(cfg: Profile, w: World, w': World, c: Call, r: Result)
    requires c.op.CreateByPhone?
  {
    var s, live := SlotOf(c), Live(cfg, w, c.op.phone);
    if AlreadyDone(w, s) then Repeats(cfg, w, w', c, r, w.receipts[s].task)
    else if Refused(w, c) then Declines(w, w', r)
    else if live == {} then Creates(cfg, w, w', c, r)
    else if s in w.receipts && Unique(live) then
      && r.Success? && live == {r.task}
      && Leaves(w', w.cards, w.receipts[s := Done(r.task)], AnchoredOnce(w, c.conv, r.task))
    else Declines(w, w', r)
  }

  ghost predicate CalmCreateWorkbenchTask(cfg: Profile, w: World, w': World, c: Call, r: Result)
    requires c.op.CreateOnList?
  {
    var s := SlotOf(c);
    if c.op.list !in cfg.authorized then Declines(w, w', r)
    else if AlreadyDone(w, s) then Repeats(cfg, w, w', c, r, w.receipts[s].task)
    else if Refused(w, c) then Declines(w, w', r)
    else Creates(cfg, w, w', c, r)
  }

  /** The conversation is already anchored to the task that is to be bound. */
  predicate AlreadyBound(w: World, c: Call)
    requires c.op.BindTo?
  {
    c.conv in w.anchors && w.anchors[c.conv] == c.op.task
  }

  /** What the binding does under the lock. */
  ghost predicate CalmBindLocked(cfg: Profile, w: World, w': World, c: Call, r: Result)
    requires c.op.BindTo?
  {
    var s, t := SlotOf(c), c.op.task;
    if AlreadyDone(w, s) then Repeats(cfg, w, w', c, r, w.receipts[s].task)
    else if Refused(w, c) || !Authorized(cfg, w, c) then Declines(w, w', r)
    else r == Success(t) && Leaves(w', w.cards, w.receipts[s := Done(t)], w.anchors[c.conv := t])
  }

  /** Before the lock a conversation bound to the task is answered from the board, and one bound
      elsewhere is refused unless the switch is confirmed. */
  ghost predicate CalmBindWorkbenchTask(cfg: Profile, w: World, w': World, c: Call, r: Result)
    requires c.op.BindTo?
  {
    if AlreadyBound(w, c) then
      Leaves(w', w.cards, w.receipts, w.anchors) && r == if Shown(cfg, w, c, c.op.task) then Success(c.op.task) else Failure
    else if Refused(w, c) then Declines(w, w', r)
    else CalmBindLocked(cfg, w, w', c, r)
  }

  class TaskService {
    const cfg: Profile
    var world: World

    constructor (cfg: Profile, world: World)
      requires ValidProfile(cfg) && Reachable(cfg, world)
      ensures this.cfg == cfg && this.world == world
    {
      this.cfg := cfg;
      this.world := world;
    }

    /** The shared state was reachable at `start`, and a run leads from there to now. */
    ghost predicate Sound(start: World)
      reads this
    {
      ValidProfile(cfg) && Reachable(cfg, start) && Follows(cfg, start, world)
    }

    /** The shared state is one that some run of the protocol leads to. */
    ghost predicate Ready()
      reads this
    {
      ValidProfile(cfg) && Reachable(cfg, world)
    }

    /** Call `id` is running, for `c`, and awaits the effect of stage `st`. */
    predicate At(id: CallId, c: Call, st: Stage)
      reads this
    {
      id in world.calls && world.calls[id] == Process(c, st)
    }

    /** Any number of steps of other calls, of the board and of the clock. */
    method Interfere(id: CallId, calm: bool, ghost start: World)
      requires Sound(start)
      modifies this
      ensures Sound(start)
      ensures id in world.calls <==> id in old(world).calls
      ensures id in world.calls ==> world.calls[id] == old(world).calls[id]
      ensures calm ==> world == old(world)
    {
      var steps: nat := *;
      while !calm && steps > 0
        invariant Sound(start)
        invariant id in world.calls <==> id in old(world).calls
        invariant id in world.calls ==> world.calls[id] == old(world).calls[id]
        invariant calm ==> world == old(world)
        decreases steps
      {
        var e: Event := *;
        if Enabled(cfg, world, e) {
          var next := Next(cfg, world, e);
          if (id in next.calls <==> id in world.calls) && (id in world.calls ==> next.calls[id] == world.calls[id]) {
            Perform(e, start);
          }
        }
        steps := steps - 1;
      }
    }

    /** One awaited effect: it succeeds if it can, unless this is not a calm run. */
    method Await(id: CallId, calm: bool, ghost start: World) returns (o: Outcome)
      requires Sound(start) && id in world.calls
      requires CanAct(cfg, world, world.calls[id].call, world.calls[id].stage, Throws)
      modifies this
      ensures Sound(start)
      ensures CanAct(cfg, old(world), old(world).calls[id].call, old(world).calls[id].stage, o)
      ensures o in {Ok, Throws, LostReply}
      ensures world == Acted(cfg, old(world), id, old(world).calls[id].call, old(world).calls[id].stage, o)
      ensures calm && CanAct(cfg, old(world), old(world).calls[id].call, old(world).calls[id].stage, Ok) ==> o.Ok?
    {
      var c, st := world.calls[id].call, world.calls[id].stage;
      o := if CanAct(cfg, world, c, st, Ok) then Ok else Throws;
      var fault: bool := *;
      if !calm && fault {
        var late: bool := *;
        o := if late && CanAct(cfg, world, c, st, LostReply) then LostReply else Throws;
      }
      Perform(Act(id, o), start);
    }

    /** An event of the protocol, as it stands. */
    method Perform(e: Event, ghost start: World)
      requires Sound(start) && Enabled(cfg, world, e)
      modifies this
      ensures Sound(start) && world == Next(cfg, old(world), e)
    {
      FollowsStep(cfg, world, e);
      FollowsJoin(cfg, start, world, Next(cfg, world, e));
      world := Next(cfg, world, e);
    }

    /** Every call starts by taking the lock of its scope, or gives up. */
    method Enter(id: CallId, c: Call, calm: bool, ghost start: World) returns (entered: bool)
      requires Sound(start) && id !in world.calls
      requires calm ==> ScopeOf(c) !in world.locks
      modifies this
      ensures Sound(start) && At(id, c, if entered then ReadReceipt else Finished(Failure))
      ensures calm ==> entered && SameStores(old(world), world)
    {
      Perform(Arrive(id, c), start);
      Interfere(id, calm, start);
      var o := Await(id, calm, start);                    // assertReady, acquireLock
      entered := o.Ok?;
    }

    /** The receipt of an earlier attempt; a done one is answered from at once. */
    method FindReceipt(id: CallId, c: Call, calm: bool, ghost start: World) returns (ok: bool, existing: Option<Receipt>)
      requires Sound(start) && At(id, c, ReadReceipt)
      modifies this
      ensures Sound(start)
      ensures At(id, c, if !ok then Release(None, Failure)
                        else if existing.Some? && existing.value.Done? then Reanchor(existing.value.task)
                        else CheckAnchor(existing.Some?))
      ensures calm ==> ok && SameStores(old(world), world) && existing == ReceiptAt(old(world), SlotOf(c))
    {
      Interfere(id, calm, start);
      existing := ReceiptAt(world, SlotOf(c));
      var o := Await(id, calm, start);                    // getReceipt
      ok := o.Ok?;
    }

    /** A conversation that is anchored elsewhere is refused, unless the switch is confirmed. */
    method MayAnchor(id: CallId, c: Call, pend: bool, calm: bool, ghost start: World) returns (ok: bool)
      requires Sound(start) && At(id, c, CheckAnchor(pend))
      modifies this
      ensures Sound(start) && At(id, c, if ok then AfterCheck(cfg, c, pend) else Release(None, Failure))
      ensures calm ==> SameStores(old(world), world) && ok == !Refused(old(world), c)
    {
      Interfere(id, calm, start);
      ok := !Refused(world, c);
      var o := Await(id, calm, start);                    // loadConversation, anchorConflict
      ok := ok && o.Ok?;
    }

    /** The list of the workbench, or of the task to bind, has to be an authorized one. */
    method MayUse(id: CallId, c: Call, calm: bool, ghost start: World) returns (ok: bool)
      requires Sound(start) && At(id, c, Stage.Authorize)
      modifies this
      ensures Sound(start) && At(id, c, if ok then Begin else Release(None, Failure))
      ensures calm ==> SameStores(old(world), world) && ok == Authorized(cfg, old(world), c)
      ensures ok && c.op.CreateOnList? ==> c.op.list in cfg.authorized
    {
      Interfere(id, calm, start);
      ok := Authorized(cfg, world, c);
      var o := Await(id, calm, start);                    // authorizedListIds, assertTaskOnAuthorizedLists
      ok := ok && o.Ok?;
    }

    /** The card of the reply is read; its absence or mismatch fails the call. */
    method Show(id: CallId, c: Call, t: TaskId, calm: bool, ghost start: World) returns (r: Result)
      requires Sound(start) && At(id, c, Confirm(t))
      modifies this
      ensures Sound(start) && At(id, c, Release(None, r)) && r in {Failure, Success(t)}
      ensures calm ==> Leaves(world, old(world).cards, old(world).receipts, old(world).anchors)
      ensures calm ==> r == if Shown(cfg, old(world), c, t) then Success(t) else Failure
    {
      Interfere(id, calm, start);
      var o := Await(id, calm, start);                    // cardCompleto, cardPorListas
      r := if o.Ok? then Success(t) else Failure;
    }

    /** The tail shared by every path that already has its task: anchor the conversation if
        it has no anchor, then read the card of the reply. */
    method AnchorAndShow(id: CallId, c: Call, t: TaskId, calm: bool, ghost start: World) returns (r: Result)
      requires Sound(start) && At(id, c, Reanchor(t))
      modifies this
      ensures Sound(start) && At(id, c, Release(None, r))
      ensures calm ==> Leaves(world, old(world).cards, old(world).receipts, AnchoredOnce(old(world), c.conv, t))
      ensures calm ==> r == if Shown(cfg, old(world), c, t) then Success(t) else Failure
      ensures r in {Failure, Success(t)}
    {
      Interfere(id, calm, start);
      var anchored := c.conv in world.anchors;
      var o := Await(id, calm, start);                    // loadConversation
      if !o.Ok? { return Failure; }
      if !anchored {
        Interfere(id, calm, start);
        o := Await(id, calm, start);                      // ancorarConversacao
        if !o.Ok? { return Failure; }
      }
      r := Show(id, c, t, calm, start);
    }

    /** The forced rebuild of the index, list by list. */
    method Rebuild(id: CallId, c: Call, pend: bool, calm: bool, ghost start: World) returns (ok: bool, found: set<TaskId>)
      requires Sound(start) && c.op.CreateByPhone? && At(id, c, Scan(pend, cfg.indexed, {}))
      modifies this
      ensures Sound(start)
      ensures At(id, c, if ok then Scan(pend, {}, found) else Release(None, Failure))
      ensures ok ==> found == Live(cfg, world, c.op.phone)
      ensures calm ==> ok && Leaves(world, old(world).cards, old(world).receipts, old(world).anchors) && world.used == old(world).used
    {
      var left := cfg.indexed;
      found := {};
      while left != {}
        invariant Sound(start) && At(id, c, Scan(pend, left, found))
        invariant calm ==> Leaves(world, old(world).cards, old(world).receipts, old(world).anchors) && world.used == old(world).used
        decreases left
      {
        Interfere(id, calm, start);
        var fault: bool := *;
        if !calm && fault {
          Perform(Act(id, Throws), start);
          return false, found;
        }
        var list :| list in left;
        var seen := set t | t in world.cards && world.cards[t].phone == PhoneOf(c) && world.cards[t].list == list;
        Perform(Act(id, Page(list)), start);              // tarefasDaLista
        left := left - {list};
        found := found + seen;
      }
      ReachableFollows(cfg, start, world);
      InvOf(cfg, world);
      AtStage(cfg, world, id);
      ScannedAll(cfg, world, c, world.calls[id].stage);
      ok := true;
    }

    /** Compensation: delete the posted card and, if that worked, forget the receipt. */
    method Compensate(id: CallId, c: Call, t: TaskId, calm: bool, ghost start: World)
      requires Sound(start) && At(id, c, Undo(t))
      modifies this
      ensures Sound(start) && At(id, c, Release(None, Failure))
    {
      Interfere(id, calm, start);
      var o := Await(id, calm, start);                    // apagarTask
      if o.Ok? {
        Interfere(id, calm, start);
        o := Await(id, calm, start);                      // clearReceipt, failure swallowed
      }
    }

    /** beginReceipt and the POST: a card that answered, or one that may still land. */
    method PostCard(id: CallId, c: Call, calm: bool, ghost start: World) returns (posted: Option<TaskId>, flight: Option<Card>)
      requires Sound(start) && !c.op.BindTo? && At(id, c, Begin)
      modifies this
      ensures Sound(start)
      ensures At(id, c, if posted.Some? then Reread(posted.value) else Release(flight, Failure))
      ensures calm ==>
        && posted.Some? && posted.value !in old(world).used
        && Leaves(world, old(world).cards[posted.value := Card(ListOf(cfg, c), PhoneOf(c), SlotOf(c))],
                  Begun(old(world), SlotOf(c)).receipts, old(world).anchors)
    {
      posted, flight := None, None;
      Interfere(id, calm, start);
      var o := Await(id, calm, start);                    // beginReceipt
      if !o.Ok? { return; }
      assert At(id, c, Post);
      Interfere(id, calm, start);
      var list, phone := ListOf(cfg, c), PhoneOf(c);
      if !calm {
        list := *;
        var kept: bool := *;
        phone := if kept then phone else None;
        var timeout: bool, refused: bool := *, *;
        if refused {
          Perform(Act(id, Throws), start);
          return;
        }
        if timeout {
          flight := Some(Card(list, phone, SlotOf(c)));
          Perform(Act(id, TimedOut(list, phone)), start);
          return;
        }
      }
      var t := FreshTask();
      Perform(Act(id, Created(t, list, phone)), start);   // http.write
      posted := Some(t);
    }

    /** A posted card is read back, and discarded if it came out wrong. */
    method CheckCard(id: CallId, c: Call, t: TaskId, calm: bool, ghost start: World) returns (ok: bool)
      requires Sound(start) && !c.op.BindTo? && At(id, c, Reread(t))
      modifies this
      ensures Sound(start) && At(id, c, if ok then Finalize(t) else Release(None, Failure))
      ensures calm && t in old(world).cards && AsOrdered(cfg, old(world), c, t) ==>
        ok && Leaves(world, old(world).cards, old(world).receipts, old(world).anchors)
    {
      Interfere(id, calm, start);
      ok := t in world.cards && AsOrdered(cfg, world, c, t);
      var o := Await(id, calm, start);                    // taskBruta
      if !o.Ok? {
        ok := false;
      } else if !ok {
        Interfere(id, calm, start);
        o := Await(id, calm, start);                      // apagarTask, failure swallowed
      }
    }

    /** The receipt and the anchor of a card; a failure of either undoes the card. */
    method KeepCard(id: CallId, c: Call, t: TaskId, calm: bool, ghost start: World) returns (r: Result)
      requires Sound(start) && !c.op.BindTo? && At(id, c, Finalize(t))
      modifies this
      ensures Sound(start) && At(id, c, Release(None, r))
      ensures calm && Shown(cfg, old(world), c, t) ==>
        && r == Success(t)
        && Leaves(world, old(world).cards, old(world).receipts[SlotOf(c) := Done(t)], old(world).anchors[c.conv := t])
    {
      r := Failure;
      Interfere(id, calm, start);
      var o := Await(id, calm, start);                    // finalizeReceipt
      if !o.Ok? {
        Compensate(id, c, t, calm, start);
        return;
      }
      Interfere(id, calm, start);
      o := Await(id, calm, start);                        // ancorarConversacao
      if !o.Ok? {
        Compensate(id, c, t, calm, start);
        return;
      }
      r := Show(id, c, t, calm, start);
    }

    /** From beginReceipt to the anchor: post, read back, finalize, anchor. */
    method PostAndAnchor(id: CallId, c: Call, calm: bool, ghost start: World) returns (flight: Option<Card>, r: Result)
      requires Sound(start) && !c.op.BindTo? && At(id, c, Begin)
      requires ListOf(cfg, c) in cfg.authorized
      modifies this
      ensures Sound(start) && At(id, c, Release(flight, r))
      ensures calm ==> Creates(cfg, old(world), world, c, r) && flight == None
    {
      r := Failure;
      var posted;
      posted, flight := PostCard(id, c, calm, start);
      if posted.None? { return; }
      flight := None;
      var ok := CheckCard(id, c, posted.value, calm, start);
      if !ok { return; }
      r := KeepCard(id, c, posted.value, calm, start);
    }

    /** The board issues an id it never issued before. */
    method FreshTask() returns (t: TaskId)
      ensures t !in world.used
    {
      ghost var unused := SomeUnused(world.used);
      assert unused !in world.used;
      t :| t !in world.used;
    }

    /** finally: give the lock back. A POST still in flight lands before that or never. */
    method Leave(id: CallId, c: Call, flight: Option<Card>, r: Result, calm: bool, ghost start: World)
      requires Sound(start) && At(id, c, Release(flight, r))
      modifies this
      ensures Sound(start)
      ensures id in world.calls && world.calls[id].call == c && ResultOf(world.calls[id].stage) == r
      ensures (flight.None? && calm) ==>
        && Leaves(world, old(world).cards, old(world).receipts, old(world).anchors)
        && ScopeOf(c) !in world.locks
    {
      if flight.Some? {
        var lands: bool := *;
        if lands {
          var t := FreshTask();
          Perform(Land(id, t), start);
        }
      }
      var o := Await(id, calm, start);                    // releaseLock, failure swallowed
    }

    method CreateTask(id: CallId, c: Call, calm: bool) returns (r: Result)
      requires Ready() && id !in world.calls && c.op.CreateByPhone?
      requires calm ==> ScopeOf(c) !in world.locks
      modifies this
      ensures Ready() && Follows(cfg, old(world), world)
      ensures id in world.calls && world.calls[id].call == c && ResultOf(world.calls[id].stage) == r
      ensures r.Success? ==> r.task in Live(cfg, world, c.op.phone)
      ensures calm ==> CalmCreateTask(cfg, old(world), world, c, r) && ScopeOf(c) !in world.locks
    {
      ghost var start := world;
      FollowsItself(cfg, world);
      var entered := Enter(id, c, calm, start);
      if !entered {
        ReachableFollows(cfg, start, world);
        return Failure;
      }
      var flight;
      flight, r := CreateTaskLocked(id, c, calm, start);
      Leave(id, c, flight, r, calm, start);
      ReachableFollows(cfg, start, world);
      InvOf(cfg, world);
      assert ResultOk(cfg, world, c, world.calls[id].stage);
    }

    method CreateTaskLocked(id: CallId, c: Call, calm: bool, ghost start: World) returns (flight: Option<Card>, r: Result)
      requires Sound(start) && c.op.CreateByPhone? && At(id, c, ReadReceipt)
      modifies this
      ensures Sound(start) && At(id, c, Release(flight, r))
      ensures calm ==> CalmCreateTask(cfg, old(world), world, c, r) && flight == None
    {
      flight, r := None, Failure;
      var ok, existing := FindReceipt(id, c, calm, start);
      if !ok { return; }
      if existing.Some? && existing.value.Done? {
        r := AnchorAndShow(id, c, existing.value.task, calm, start);
        return;
      }
      ok := MayAnchor(id, c, existing.Some?, calm, start);
      if !ok { return; }
      var found;
      ok, found := Rebuild(id, c, existing.Some?, calm, start);
      if !ok { return; }
      Perform(Act(id, Ok), start);                        // resolver
      if found == {} {
        flight, r := PostAndAnchor(id, c, calm, start);
      } else if existing.Some? && Unique(found) {
        var t :| t in found && found == {t};
        Interfere(id, calm, start);
        var o := Await(id, calm, start);                  // finalizeReceipt
        if !o.Ok? { return; }
        r := AnchorAndShow(id, c, t, calm, start);
      }
    }

    method CreateWorkbenchTask(id: CallId, c: Call, calm: bool) returns (r: Result)
      requires Ready() && id !in world.calls && c.op.CreateOnList?
      requires calm ==> ScopeOf(c) !in world.locks
      modifies this
      ensures Ready() && Follows(cfg, old(world), world)
      ensures c.op.list in cfg.authorized ==>
                id in world.calls && world.calls[id].call == c && ResultOf(world.calls[id].stage) == r
      ensures calm ==> CalmCreateWorkbenchTask(cfg, old(world), world, c, r) && ScopeOf(c) !in world.locks
    {
      ghost var start := world;
      FollowsItself(cfg, world);
      if c.op.list !in cfg.authorized {                   // authorizedListIds, before the lock
        return Failure;
      }
      var entered := Enter(id, c, calm, start);
      if !entered {
        ReachableFollows(cfg, start, world);
        return Failure;
      }
      var flight;
      flight, r := WorkbenchLocked(id, c, calm, start);
      Leave(id, c, flight, r, calm, start);
      ReachableFollows(cfg, start, world);
    }

    method WorkbenchLocked(id: CallId, c: Call, calm: bool, ghost start: World) returns (flight: Option<Card>, r: Result)
      requires Sound(start) && c.op.CreateOnList? && c.op.list in cfg.authorized && At(id, c, ReadReceipt)
      modifies this
      ensures Sound(start) && At(id, c, Release(flight, r))
      ensures calm ==> CalmCreateWorkbenchTask(cfg, old(world), world, c, r) && flight == None
    {
      flight, r := None, Failure;
      var ok, existing := FindReceipt(id, c, calm, start);
      if !ok { return; }
      if existing.Some? && existing.value.Done? {
        r := AnchorAndShow(id, c, existing.value.task, calm, start);
        return;
      }
      ok := MayAnchor(id, c, existing.Some?, calm, start);
      if !ok { return; }
      ok := MayUse(id, c, calm, start);
      if !ok { return; }
      flight, r := PostAndAnchor(id, c, calm, start);
    }

    method BindWorkbenchTask(id: CallId, c: Call, calm: bool) returns (r: Result)
      requires Ready() && id !in world.calls && c.op.BindTo?
      requires calm ==> ScopeOf(c) !in world.locks
      modifies this
      ensures Ready() && Follows(cfg, old(world), world)
      ensures if id in world.calls then world.calls[id].call == c && ResultOf(world.calls[id].stage) == r
              else r in {Failure, Success(c.op.task)}
      ensures calm ==> CalmBindWorkbenchTask(cfg, old(world), world, c, r) && ScopeOf(c) !in world.locks
    {
      ghost var start := world;
      FollowsItself(cfg, world);
      Interfere(id, calm, start);
      var bound, refused := AlreadyBound(world, c), Refused(world, c);
      if bound || refused {                               // loadConversation, before the lock
        r := Failure;
        if bound {
          r := ShowBound(id, c, calm, start);
        }
        ReachableFollows(cfg, start, world);
        return;
      }
      var entered := Enter(id, c, calm, start);
      if !entered {
        ReachableFollows(cfg, start, world);
        return Failure;
      }
      r := BindLocked(id, c, calm, start);
      Leave(id, c, None, r, calm, start);
      ReachableFollows(cfg, start, world);
    }

    /** The answer for a conversation that is bound already: no lock, no receipt, one read. */
    method ShowBound(id: CallId, c: Call, calm: bool, ghost start: World) returns (r: Result)
      requires Sound(start) && c.op.BindTo? && id !in world.calls
      modifies this
      ensures Sound(start) && id !in world.calls && r in {Failure, Success(c.op.task)}
      ensures calm ==> world == old(world) && r == if Shown(cfg, world, c, c.op.task) then Success(c.op.task) else Failure
    {
      Interfere(id, calm, start);
      var fails: bool := *;
      r := if Shown(cfg, world, c, c.op.task) && (calm || !fails) then Success(c.op.task) else Failure;   // cardPorListas
    }

    method BindLocked(id: CallId, c: Call, calm: bool, ghost start: World) returns (r: Result)
      requires Sound(start) && c.op.BindTo? && At(id, c, ReadReceipt)
      modifies this
      ensures Sound(start) && At(id, c, Release(None, r))
      ensures calm ==> CalmBindLocked(cfg, old(world), world, c, r)
    {
      r := Failure;
      var ok, existing := FindReceipt(id, c, calm, start);
      if !ok { return; }
      if existing.Some? && existing.value.Done? {
        r := AnchorAndShow(id, c, existing.value.task, calm, start);
        return;
      }
      ok := MayAnchor(id, c, existing.Some?, calm, start);
      if !ok { return; }
      ok := MayUse(id, c, calm, start);
      if !ok { return; }
      r := BindAndFinalize(id, c, calm, start);
    }

    method BindAndFinalize(id: CallId, c: Call, calm: bool, ghost start: World) returns (r: Result)
      requires Sound(start) && c.op.BindTo? && At(id, c, Begin)
      modifies this
      ensures Sound(start) && At(id, c, Release(None, r))
      ensures calm && Authorized(cfg, old(world), c) ==>
        && r == Success(c.op.task)
        && Leaves(world, old(world).cards, old(world).receipts[SlotOf(c) := Done(c.op.task)],
                  old(world).anchors[c.conv := c.op.task])
    {
      r := Failure;
      Interfere(id, calm, start);
      var o := Await(id, calm, start);                    // beginReceipt
      if !o.Ok? { return; }
      assert At(id, c, BindAnchor(c.op.task));
      var ok := AnchorAndFinalize(id, c, calm, start);
      if !ok { return; }
      r := Show(id, c, c.op.task, calm, start);
    }

    method AnchorAndFinalize(id: CallId, c: Call, calm: bool, ghost start: World) returns (ok: bool)
      requires Sound(start) && c.op.BindTo? && At(id, c, BindAnchor(c.op.task))
      modifies this
      ensures Sound(start) && At(id, c, if ok then Confirm(c.op.task) else Release(None, Failure))
      ensures calm ==> ok && Leaves(world, old(world).cards, old(world).receipts[SlotOf(c) := Done(c.op.task)],
                                    old(world).anchors[c.conv := c.op.task])
    {
      Interfere(id, calm, start);
      var o := Await(id, calm, start);                    // ancorarConversacao
      if !o.Ok? { return false; }
      assert At(id, c, BindFinalize(c.op.task));
      Interfere(id, calm, start);
      o := Await(id, calm, start);                        // finalizeReceipt
      ok := o.Ok?;
    }
  }
}
