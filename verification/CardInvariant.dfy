/** What every step of the card protocol keeps, and what follows for every run. */
module CardInvariant {
  import opened Options
  import opened CardCreation

  // ---------------------------------------------------------------- the invariant

  /** Whoever is past the lock holds it, and nobody else does. */
  ghost predicate LocksOk(w: World) {
    && (forall s | s in w.locks ::
          && w.locks[s] in w.calls
          && Holding(w.calls[w.locks[s]].stage)
          && ScopeOf(w.calls[w.locks[s]].call) == s)
    && (forall i | i in w.calls && Holding(w.calls[i].stage) :: Holds(w, i))
  }

  ghost predicate Holds(w: World, i: CallId)
    requires i in w.calls
  {
    ScopeOf(w.calls[i].call) in w.locks && w.locks[ScopeOf(w.calls[i].call)] == i
  }

  ghost predicate AtMostOne(s: set<TaskId>) {
    forall x, y | x in s && y in s :: x == y
  }

  ghost predicate NotDone(w: World, s: Slot) {
    s in w.receipts ==> w.receipts[s].Pending?
  }

  ghost predicate Backed(w: World, s: Slot, t: TaskId) {
    s in w.receipts ==> w.receipts[s] == Done(t)
  }

  ghost predicate NoneLive(cfg: Profile, w: World, c: Call) {
    c.op.CreateByPhone? ==> Live(cfg, w, c.op.phone) == {}
  }

  ghost predicate IsLive(cfg: Profile, w: World, c: Call, t: TaskId) {
    c.op.CreateByPhone? ==> t in Live(cfg, w, c.op.phone)
  }

  function ResultOf(st: Stage): Result {
    if st.Release? || st.Stopped? || st.Finished? then st.result else Failure
  }

  /** A card returned by createTask is live, and stays so. */
  ghost predicate ResultOk(cfg: Profile, w: World, c: Call, st: Stage) {
    ResultOf(st).Success? ==> IsLive(cfg, w, c, ResultOf(st).task)
  }

  /** `t` is the card this call posted in its present tenure of the lock. */
  ghost predicate Mine(cfg: Profile, w: World, c: Call, t: TaskId) {
    && !c.op.BindTo?
    && t in w.used
    && (t in w.cards ==> w.cards[t].phone in {None, PhoneOf(c)})
    && (c.op.CreateByPhone? ==>
          && Live(cfg, w, c.op.phone) <= {t}
          && (forall i | i in w.calls && ScopeOf(w.calls[i].call) == ScopeOf(c) :: ResultOf(w.calls[i].stage) != Success(t))
          && (forall s | s in w.receipts && s.scope == ScopeOf(c) && s != SlotOf(c) :: w.receipts[s] != Done(t)))
  }

  ghost predicate StageOk(cfg: Profile, w: World, c: Call, st: Stage) {
    var s := SlotOf(c);
    match st
    case Waiting => true
    case Finished(_) => true
    case ReadReceipt => true
    case Reanchor(t) => Backed(w, s, t)
    case WriteAnchor(t) => Backed(w, s, t)
    case Confirm(t) => Backed(w, s, t)
    case CheckAnchor(_) => NotDone(w, s)
    case Authorize => NotDone(w, s) && !c.op.CreateByPhone?
    case Scan(_, left, found) =>
      && NotDone(w, s)
      && c.op.CreateByPhone?
      && left <= cfg.indexed
      && found <= Live(cfg, w, c.op.phone)
      && forall t | t in Live(cfg, w, c.op.phone) :: w.cards[t].list in left || t in found
    case Adopt(t) => NotDone(w, s) && c.op.CreateByPhone? && IsLive(cfg, w, c, t)
    case Begin => NotDone(w, s) && NoneLive(cfg, w, c)
    case Post => NotDone(w, s) && NoneLive(cfg, w, c) && !c.op.BindTo?
    case Reread(t) => NotDone(w, s) && Mine(cfg, w, c, t)
    case Discard(t) => NotDone(w, s) && Mine(cfg, w, c, t)
    case Finalize(t) => NotDone(w, s) && Mine(cfg, w, c, t) && IsLive(cfg, w, c, t)
    case Anchor(t) => Backed(w, s, t) && s !in w.acked && Mine(cfg, w, c, t) && IsLive(cfg, w, c, t)
    case Undo(t) =>
      && (NotDone(w, s) || Backed(w, s, t))
      && s !in w.acked && Mine(cfg, w, c, t) && IsLive(cfg, w, c, t)
    case Clear => s !in w.acked && NoneLive(cfg, w, c)
    case BindAnchor(_) => NotDone(w, s) && !c.op.CreateByPhone?
    case BindFinalize(_) => NotDone(w, s) && !c.op.CreateByPhone?
    case Release(f, _) => f.Some? ==> Plausible(c, f.value) && NoneLive(cfg, w, c) && !c.op.BindTo?
    case Stopped(f, _) => f.Some? ==> Plausible(c, f.value) && NoneLive(cfg, w, c) && !c.op.BindTo?
  }

  ghost predicate StagesOk(cfg: Profile, w: World) {
    forall i | i in w.calls && Holding(w.calls[i].stage) :: StageOk(cfg, w, w.calls[i].call, w.calls[i].stage)
  }

  /** A done receipt of a phone names a live card exactly when no compensating delete has
      removed that card behind the receipt's back. */
  ghost predicate ReceiptOk(cfg: Profile, w: World, s: Slot) {
    s in w.receipts && w.receipts[s].Done? && s.scope.PhoneScope? ==>
      && w.receipts[s].task in w.used
      && (w.receipts[s].task in Live(cfg, w, s.scope.phone) <==> s !in w.dangling)
  }

  ghost predicate AckOk(cfg: Profile, w: World, s: Slot) {
    s in w.acked ==>
      && s in w.receipts && w.receipts[s] == Done(w.acked[s])
      && (s.scope.PhoneScope? ==> w.acked[s] in Live(cfg, w, s.scope.phone))
  }

  /** A receipt dangles only between a delete and its clear, or because that pair broke. */
  ghost predicate DanglingOk(w: World, s: Slot) {
    s in w.dangling ==>
      || s in w.faulted
      || (&& s.scope in w.locks && w.locks[s.scope] in w.calls
          && w.calls[w.locks[s.scope]].stage.Clear?
          && SlotOf(w.calls[w.locks[s.scope]].call) == s)
  }

  ghost predicate SlotOk(cfg: Profile, w: World, s: Slot) {
    ReceiptOk(cfg, w, s) && AckOk(cfg, w, s) && DanglingOk(w, s)
  }

  ghost predicate Inv(cfg: Profile, w: World) {
    && w.cards.Keys <= w.used
    && LocksOk(w)
    && StagesOk(cfg, w)
    && (forall s :: SlotOk(cfg, w, s))
    && (forall i | i in w.calls :: ResultOk(cfg, w, w.calls[i].call, w.calls[i].stage))
  }

  // ---------------------------------------------------------------- framing

  ghost predicate SameSlot(w: World, w': World, s: Slot) {
    && (s in w.receipts <==> s in w'.receipts) && (s in w.receipts ==> w'.receipts[s] == w.receipts[s])
    && (s in w.acked <==> s in w'.acked) && (s in w.acked ==> w'.acked[s] == w.acked[s])
    && (s in w.dangling <==> s in w'.dangling)
    && (s in w.faulted ==> s in w'.faulted)
  }

  /** A step of call `id` stays within its own scope. */
  ghost predicate Local(cfg: Profile, w: World, w': World, id: CallId) {
    && id in w.calls && id in w'.calls
    && w'.calls == w.calls[id := w'.calls[id]]
    && w'.calls[id].call == w.calls[id].call
    && var sc := ScopeOf(w.calls[id].call);
    && (forall s | s != sc :: (s in w.locks <==> s in w'.locks) && (s in w.locks ==> w'.locks[s] == w.locks[s]))
    && (forall p | PhoneScope(p) != sc :: Live(cfg, w', p) == Live(cfg, w, p))
    && (forall s: Slot | s.scope != sc :: SameSlot(w, w', s))
    && w.used <= w'.used
    && w'.cards.Keys <= w'.used
    && (forall t | t in w.used && t in w'.cards :: t in w.cards && w'.cards[t] == w.cards[t])
  }

  /** What is left to show about the scope of the call that moved. */
  ghost predicate OwnScopeOk(cfg: Profile, w': World, id: CallId)
    requires id in w'.calls
  {
    var c, st := w'.calls[id].call, w'.calls[id].stage;
    && (if Holding(st) then Holds(w', id) else ScopeOf(c) !in w'.locks)
    && StageOk(cfg, w', c, st)
    && (forall s: Slot | s.scope == ScopeOf(c) :: SlotOk(cfg, w', s))
    && (forall j | j in w'.calls && ScopeOf(w'.calls[j].call) == ScopeOf(c) ::
          ResultOk(cfg, w', w'.calls[j].call, w'.calls[j].stage))
  }

  lemma OtherStageKept(cfg: Profile, w: World, w': World, id: CallId, j: CallId)
    requires Inv(cfg, w) && Local(cfg, w, w', id)
    requires j in w.calls && Holding(w.calls[j].stage)
    requires ScopeOf(w.calls[j].call) != ScopeOf(w.calls[id].call)
    ensures StageOk(cfg, w', w.calls[j].call, w.calls[j].stage)
  {
    var c, st := w.calls[j].call, w.calls[j].stage;
    assert StageOk(cfg, w, c, st);
    assert SameSlot(w, w', SlotOf(c));
    if c.op.CreateByPhone? {
      assert ScopeOf(c) == PhoneScope(c.op.phone);
      assert Live(cfg, w', c.op.phone) == Live(cfg, w, c.op.phone);
      forall s | s in w'.receipts && s.scope == ScopeOf(c)
        ensures s in w.receipts && w'.receipts[s] == w.receipts[s]
      {
        assert SameSlot(w, w', s);
      }
    }
  }

  /** The invariant survives a local step once the mover's own scope is in order. */
  lemma LocalStep(cfg: Profile, w: World, w': World, id: CallId)
    requires Inv(cfg, w) && Local(cfg, w, w', id)
    requires Holding(w.calls[id].stage) || Holding(w'.calls[id].stage) ==>
               ScopeOf(w.calls[id].call) in w.locks ==> w.locks[ScopeOf(w.calls[id].call)] == id
    requires Holding(w.calls[id].stage) || Holding(w'.calls[id].stage)
    requires OwnScopeOk(cfg, w', id)
    ensures Inv(cfg, w')
  {
    var sc := ScopeOf(w.calls[id].call);
    forall j | j in w'.calls && Holding(w'.calls[j].stage)
      ensures Holds(w', j) && StageOk(cfg, w', w'.calls[j].call, w'.calls[j].stage)
    {
      if j != id {
        assert Holds(w, j);
        OtherStageKept(cfg, w, w', id, j);
      }
    }
    forall s: Slot ensures SlotOk(cfg, w', s) {
      if s.scope != sc {
        assert SameSlot(w, w', s);
        assert SlotOk(cfg, w, s);
      }
    }
    forall j | j in w'.calls ensures ResultOk(cfg, w', w'.calls[j].call, w'.calls[j].stage) {
      if ScopeOf(w'.calls[j].call) != sc {
        assert ResultOk(cfg, w, w.calls[j].call, w.calls[j].stage);
      }
    }
  }
}
