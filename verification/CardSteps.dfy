/** The invariant of the card protocol holds after every step, hence in every run. */
module CardSteps {
  import opened Options
  import opened CardCreation
  import opened CardInvariant

  // ---------------------------------------------------------------- the board

  lemma SameBoard(cfg: Profile, w: World, w': World)
    requires w'.cards == w.cards
    ensures forall p :: Live(cfg, w', p) == Live(cfg, w, p)
  {
  }

  lemma PlacedLive(cfg: Profile, w: World, t: TaskId, card: Card, p: Phone)
    requires t !in w.used && w.cards.Keys <= w.used
    ensures Live(cfg, Placed(w, t, card), p)
         == Live(cfg, w, p) + (if card.phone == Some(p) && card.list in cfg.indexed then {t} else {})
  {
  }

  // ---------------------------------------------------------------- one stage at a time

  /** `w'` is `w` but for anchors, locks of the scope of `id`, and the stage of `id`. */
  ghost predicate OnlyMoved(w: World, w': World, id: CallId, st: Stage)
    requires id in w.calls
  {
    && w' == w.(anchors := w'.anchors, locks := w'.locks, calls := w.calls[id := Process(w.calls[id].call, st)])
    && (forall s | s != ScopeOf(w.calls[id].call) :: (s in w.locks <==> s in w'.locks) && (s in w.locks ==> w'.locks[s] == w.locks[s]))
  }

  lemma SlotMoves(cfg: Profile, w: World, w': World, id: CallId, st: Stage, s: Slot)
    requires LocksOk(w) && id in w.calls && Holding(w.calls[id].stage) && !w.calls[id].stage.Clear?
    requires OnlyMoved(w, w', id, st) && SlotOk(cfg, w, s)
    ensures SlotOk(cfg, w', s)
  {
  }

  lemma MoveIsLocal(cfg: Profile, w: World, w': World, id: CallId, st: Stage)
    requires w.cards.Keys <= w.used && id in w.calls && OnlyMoved(w, w', id, st)
    ensures Local(cfg, w, w', id)
  {
  }

  lemma ResultsMove(cfg: Profile, w: World, w': World, id: CallId, st: Stage)
    requires id in w.calls && OnlyMoved(w, w', id, st)
    requires forall i | i in w.calls :: ResultOk(cfg, w, w.calls[i].call, w.calls[i].stage)
    requires ResultOk(cfg, w, w.calls[id].call, st)
    ensures forall i | i in w'.calls :: ResultOk(cfg, w', w'.calls[i].call, w'.calls[i].stage)
  {
  }

  lemma StageMoves(cfg: Profile, w: World, w': World, id: CallId, st: Stage)
    requires id in w.calls && OnlyMoved(w, w', id, st) && StageOk(cfg, w, w.calls[id].call, st)
    ensures StageOk(cfg, w', w.calls[id].call, st)
  {
    SameBoard(cfg, w, w');
  }

  /** A step that leaves board, receipts and locks alone and moves to a stage in order. */
  lemma MoveKeeps(cfg: Profile, w: World, w': World, id: CallId, c: Call, st: Stage)
    requires Inv(cfg, w)
    requires id in w.calls && w.calls[id].call == c && Holding(w.calls[id].stage) && !w.calls[id].stage.Clear?
    requires Holding(st) && StageOk(cfg, w, c, st) && ResultOk(cfg, w, c, st)
    requires w' == Goto(w.(anchors := w'.anchors), id, c, st)
    ensures Inv(cfg, w')
  {
    AtStage(cfg, w, id);
    MoveIsLocal(cfg, w, w', id, st);
    StageMoves(cfg, w, w', id, st);
    ResultsMove(cfg, w, w', id, st);
    forall s: Slot ensures SlotOk(cfg, w', s) {
      SlotMoves(cfg, w, w', id, st, s);
    }
    LocalStep(cfg, w, w', id);
  }

  /** A call that holds nothing arrives, or gives up waiting. */
  lemma IdleKeeps(cfg: Profile, w: World, id: CallId, c: Call, st: Stage)
    requires Inv(cfg, w) && (id in w.calls ==> w.calls[id].call == c && !Holding(w.calls[id].stage))
    requires !Holding(st) && ResultOf(st) == Failure
    ensures Inv(cfg, Goto(w, id, c, st))
  {
    var w' := Goto(w, id, c, st);
    SameBoard(cfg, w, w');
    forall s: Slot ensures SlotOk(cfg, w', s) {
      assert SlotOk(cfg, w, s);
    }
    forall j | j in w'.calls && Holding(w'.calls[j].stage)
      ensures Holds(w', j) && StageOk(cfg, w', w'.calls[j].call, w'.calls[j].stage)
    {
      AtStage(cfg, w, j);
    }
  }

  lemma WaitingKeeps(cfg: Profile, w: World, id: CallId, o: Outcome)
    requires Inv(cfg, w) && Enabled(cfg, w, Act(id, o)) && w.calls[id].stage.Waiting?
    ensures Inv(cfg, Next(cfg, w, Act(id, o)))
  {
    var c, w' := w.calls[id].call, Next(cfg, w, Act(id, o));
    if o.Throws? {
      IdleKeeps(cfg, w, id, c, Finished(Failure));
    } else {
      SameBoard(cfg, w, w');
      forall s: Slot ensures SlotOk(cfg, w', s) {
        assert SlotOk(cfg, w, s);
      }
      LocalStep(cfg, w, w', id);
    }
  }

  lemma ReleaseKeeps(cfg: Profile, w: World, w': World, id: CallId, c: Call, r: Result)
    requires Inv(cfg, w)
    requires id in w.calls && w.calls[id].call == c && Holding(w.calls[id].stage) && !w.calls[id].stage.Clear?
    requires r == Failure || r == ResultOf(w.calls[id].stage)
    requires w' == Unlocked(w, id, c, r)
    ensures Inv(cfg, w')
  {
    AtStage(cfg, w, id);
    assert ResultOk(cfg, w, c, w.calls[id].stage);
    MoveIsLocal(cfg, w, w', id, Finished(r));
    ResultsMove(cfg, w, w', id, Finished(r));
    forall s: Slot ensures SlotOk(cfg, w', s) {
      SlotMoves(cfg, w, w', id, Finished(r), s);
    }
    LocalStep(cfg, w, w', id);
  }

  /** The stage a call holds is in order, and it holds its lock. */
  lemma AtStage(cfg: Profile, w: World, id: CallId)
    requires Inv(cfg, w) && id in w.calls && Holding(w.calls[id].stage)
    ensures StageOk(cfg, w, w.calls[id].call, w.calls[id].stage) && Holds(w, id)
  {
  }

  lemma ReadReceiptKeeps(cfg: Profile, w: World, id: CallId, o: Outcome)
    requires Inv(cfg, w) && Enabled(cfg, w, Act(id, o)) && w.calls[id].stage.ReadReceipt?
    ensures Inv(cfg, Next(cfg, w, Act(id, o)))
  {
    var c := w.calls[id].call;
    var s := SlotOf(c);
    var st := if o.Throws? then Release(None, Failure)
              else if s !in w.receipts then CheckAnchor(false)
              else if w.receipts[s].Pending? then CheckAnchor(true)
              else Reanchor(w.receipts[s].task);
    MoveKeeps(cfg, w, Next(cfg, w, Act(id, o)), id, c, st);
  }

  lemma ReanchorKeeps(cfg: Profile, w: World, id: CallId, o: Outcome)
    requires Inv(cfg, w) && Enabled(cfg, w, Act(id, o)) && w.calls[id].stage.Reanchor?
    ensures Inv(cfg, Next(cfg, w, Act(id, o)))
  {
    AtStage(cfg, w, id);
    var c, t := w.calls[id].call, w.calls[id].stage.task;
    var st := if o.Throws? then Release(None, Failure)
              else if c.conv in w.anchors then Confirm(t) else WriteAnchor(t);
    MoveKeeps(cfg, w, Next(cfg, w, Act(id, o)), id, c, st);
  }

  lemma CheckAnchorKeeps(cfg: Profile, w: World, id: CallId, o: Outcome)
    requires Inv(cfg, w) && Enabled(cfg, w, Act(id, o)) && w.calls[id].stage.CheckAnchor?
    ensures Inv(cfg, Next(cfg, w, Act(id, o)))
  {
    AtStage(cfg, w, id);
    var c, pend := w.calls[id].call, w.calls[id].stage.pend;
    var st := if o.Throws? || Refused(w, c) then Release(None, Failure) else AfterCheck(cfg, c, pend);
    MoveKeeps(cfg, w, Next(cfg, w, Act(id, o)), id, c, st);
  }

  lemma AuthorizeKeeps(cfg: Profile, w: World, id: CallId, o: Outcome)
    requires Inv(cfg, w) && Enabled(cfg, w, Act(id, o)) && w.calls[id].stage.Authorize?
    ensures Inv(cfg, Next(cfg, w, Act(id, o)))
  {
    AtStage(cfg, w, id);
    var c := w.calls[id].call;
    var st := if o.Throws? || !Authorized(cfg, w, c) then Release(None, Failure) else Begin;
    MoveKeeps(cfg, w, Next(cfg, w, Act(id, o)), id, c, st);
  }

  /** One more list of the rebuild: what it shows of this phone joins what was found. */
  lemma PageKeeps(cfg: Profile, w: World, id: CallId, l: ListId)
    requires Inv(cfg, w) && Enabled(cfg, w, Act(id, Page(l))) && w.calls[id].stage.Scan?
    ensures Inv(cfg, Next(cfg, w, Act(id, Page(l))))
  {
    AtStage(cfg, w, id);
    var c, st := w.calls[id].call, w.calls[id].stage;
    var seen := set t | t in w.cards && w.cards[t].phone == PhoneOf(c) && w.cards[t].list == l;
    var st' := Scan(st.pend, st.left - {l}, st.found + seen);
    assert StageOk(cfg, w, c, st') by {
      assert seen <= Live(cfg, w, c.op.phone);
      forall t | t in Live(cfg, w, c.op.phone) ensures w.cards[t].list in st'.left || t in st'.found {
        assert w.cards[t].list == l ==> t in seen;
      }
    }
    MoveKeeps(cfg, w, Next(cfg, w, Act(id, Page(l))), id, c, st');
  }

  /** When every list has been read, what was found is all there is. */
  lemma ScannedAll(cfg: Profile, w: World, c: Call, st: Stage)
    requires st.Scan? && st.left == {} && StageOk(cfg, w, c, st)
    ensures st.found == Live(cfg, w, c.op.phone)
  {
  }

  lemma ScanKeeps(cfg: Profile, w: World, id: CallId, o: Outcome)
    requires Inv(cfg, w) && Enabled(cfg, w, Act(id, o)) && w.calls[id].stage.Scan?
    ensures Inv(cfg, Next(cfg, w, Act(id, o)))
  {
    AtStage(cfg, w, id);
    var c, st, w' := w.calls[id].call, w.calls[id].stage, Next(cfg, w, Act(id, o));
    if o.Page? {
      PageKeeps(cfg, w, id, o.list);
    } else if o.Throws? {
      MoveKeeps(cfg, w, w', id, c, Release(None, Failure));
    } else {
      ScannedAll(cfg, w, c, st);
      MoveKeeps(cfg, w, w', id, c, w'.calls[id].stage);
    }
  }

  lemma WriteAnchorKeeps(cfg: Profile, w: World, id: CallId, o: Outcome)
    requires Inv(cfg, w) && Enabled(cfg, w, Act(id, o)) && w.calls[id].stage.WriteAnchor?
    ensures Inv(cfg, Next(cfg, w, Act(id, o)))
  {
    AtStage(cfg, w, id);
    var c, t := w.calls[id].call, w.calls[id].stage.task;
    MoveKeeps(cfg, w, Next(cfg, w, Act(id, o)), id, c, if o.Ok? then Confirm(t) else Release(None, Failure));
  }

  lemma AnchorKeeps(cfg: Profile, w: World, id: CallId, o: Outcome)
    requires Inv(cfg, w) && Enabled(cfg, w, Act(id, o)) && w.calls[id].stage.Anchor?
    ensures Inv(cfg, Next(cfg, w, Act(id, o)))
  {
    AtStage(cfg, w, id);
    var c, t := w.calls[id].call, w.calls[id].stage.task;
    MoveKeeps(cfg, w, Next(cfg, w, Act(id, o)), id, c, if o.Ok? then Confirm(t) else Undo(t));
  }

  lemma BindAnchorKeeps(cfg: Profile, w: World, id: CallId, o: Outcome)
    requires Inv(cfg, w) && Enabled(cfg, w, Act(id, o)) && w.calls[id].stage.BindAnchor?
    ensures Inv(cfg, Next(cfg, w, Act(id, o)))
  {
    AtStage(cfg, w, id);
    var c, t := w.calls[id].call, w.calls[id].stage.task;
    MoveKeeps(cfg, w, Next(cfg, w, Act(id, o)), id, c, if o.Ok? then BindFinalize(t) else Release(None, Failure));
  }

  /** A step that touches no more than its own slot of the receipt store. */
  lemma SlotStep(cfg: Profile, w: World, w': World, id: CallId, st: Stage)
    requires Inv(cfg, w) && id in w.calls && Holding(w.calls[id].stage) && Holding(st)
    requires w'.cards == w.cards && w'.used == w.used && w'.locks == w.locks
    requires w'.calls == w.calls[id := Process(w.calls[id].call, st)]
    requires forall s | s != SlotOf(w.calls[id].call) :: SameSlot(w, w', s)
    requires SlotOk(cfg, w', SlotOf(w.calls[id].call))
    requires StageOk(cfg, w', w.calls[id].call, st) && ResultOk(cfg, w', w.calls[id].call, st)
    ensures Inv(cfg, w')
  {
    var c := w.calls[id].call;
    SameBoard(cfg, w, w');
    AtStage(cfg, w, id);
    forall s: Slot | s.scope == ScopeOf(c) ensures SlotOk(cfg, w', s) {
      if s != SlotOf(c) {
        assert SameSlot(w, w', s);
        assert SlotOk(cfg, w, s);
      }
    }
    LocalStep(cfg, w, w', id);
  }

  /** Writing a done receipt for a card that is live, or for the workbench. */
  lemma FinalizedKeeps(cfg: Profile, w: World, id: CallId, t: TaskId, st: Stage)
    requires Inv(cfg, w) && id in w.calls && Holding(w.calls[id].stage) && Holding(st)
    requires var c := w.calls[id].call;
             NotDone(w, SlotOf(c)) && IsLive(cfg, w, c, t) && StageOk(cfg, Finalized(w, SlotOf(c), t), c, st)
    requires ResultOf(st) == Failure
    ensures Inv(cfg, Goto(Finalized(w, SlotOf(w.calls[id].call), t), id, w.calls[id].call, st))
  {
    var c := w.calls[id].call;
    var s := SlotOf(c);
    var w1 := Finalized(w, s, t);
    var w' := Goto(w1, id, c, st);
    SameBoard(cfg, w, w1);
    SameBoard(cfg, w, w');
    assert SlotOk(cfg, w, s);
    assert SlotOk(cfg, w', s);
    assert StageOk(cfg, w', c, st);
    SlotStep(cfg, w, w', id, st);
  }

  lemma AdoptKeeps(cfg: Profile, w: World, id: CallId, o: Outcome)
    requires Inv(cfg, w) && Enabled(cfg, w, Act(id, o)) && w.calls[id].stage.Adopt?
    ensures Inv(cfg, Next(cfg, w, Act(id, o)))
  {
    AtStage(cfg, w, id);
    var c, t := w.calls[id].call, w.calls[id].stage.task;
    if o.Throws? {
      MoveKeeps(cfg, w, Next(cfg, w, Act(id, o)), id, c, Release(None, Failure));
    } else {
      FinalizedKeeps(cfg, w, id, t, if o.Ok? then Reanchor(t) else Release(None, Failure));
    }
  }

  lemma FinalizeKeeps(cfg: Profile, w: World, id: CallId, o: Outcome)
    requires Inv(cfg, w) && Enabled(cfg, w, Act(id, o)) && w.calls[id].stage.Finalize?
    ensures Inv(cfg, Next(cfg, w, Act(id, o)))
  {
    AtStage(cfg, w, id);
    var c, t := w.calls[id].call, w.calls[id].stage.task;
    assert SlotOk(cfg, w, SlotOf(c));
    if o.Throws? {
      MoveKeeps(cfg, w, Next(cfg, w, Act(id, o)), id, c, Undo(t));
    } else {
      SameBoard(cfg, w, Finalized(w, SlotOf(c), t));
      FinalizedKeeps(cfg, w, id, t, if o.Ok? then Anchor(t) else Undo(t));
    }
  }

  lemma BindFinalizeKeeps(cfg: Profile, w: World, id: CallId, o: Outcome)
    requires Inv(cfg, w) && Enabled(cfg, w, Act(id, o)) && w.calls[id].stage.BindFinalize?
    ensures Inv(cfg, Next(cfg, w, Act(id, o)))
  {
    AtStage(cfg, w, id);
    var c, t := w.calls[id].call, w.calls[id].stage.task;
    if o.Throws? {
      MoveKeeps(cfg, w, Next(cfg, w, Act(id, o)), id, c, Release(None, Failure));
    } else {
      FinalizedKeeps(cfg, w, id, t, if o.Ok? then Confirm(t) else Release(None, Failure));
    }
  }

  /** The receipt becomes pending where there was none. */
  lemma BegunKeeps(cfg: Profile, w: World, id: CallId, st: Stage)
    requires Inv(cfg, w) && id in w.calls && Holding(w.calls[id].stage) && !w.calls[id].stage.Clear? && Holding(st)
    requires ResultOf(st) == Failure && StageOk(cfg, w, w.calls[id].call, st) && !st.Confirm? && !st.WriteAnchor? && !st.Reanchor?
    requires NotDone(w, SlotOf(w.calls[id].call)) && !st.Anchor? && !st.Undo?
    ensures Inv(cfg, Goto(Begun(w, SlotOf(w.calls[id].call)), id, w.calls[id].call, st))
  {
    var c := w.calls[id].call;
    var s, w' := SlotOf(c), Goto(Begun(w, SlotOf(c)), id, c, st);
    if s in w.receipts {
      MoveKeeps(cfg, w, w', id, c, st);
    } else {
      SameBoard(cfg, w, w');
      AtStage(cfg, w, id);
      assert SlotOk(cfg, w, s);
      assert ReceiptOk(cfg, w', s) && AckOk(cfg, w', s) && DanglingOk(w', s);
      assert StageOk(cfg, w', c, st);
      SlotStep(cfg, w, w', id, st);
    }
  }

  lemma BeginKeeps(cfg: Profile, w: World, id: CallId, o: Outcome)
    requires Inv(cfg, w) && Enabled(cfg, w, Act(id, o)) && w.calls[id].stage.Begin?
    ensures Inv(cfg, Next(cfg, w, Act(id, o)))
  {
    AtStage(cfg, w, id);
    var c := w.calls[id].call;
    if o.Throws? {
      MoveKeeps(cfg, w, Next(cfg, w, Act(id, o)), id, c, Release(None, Failure));
    } else {
      BegunKeeps(cfg, w, id, if !o.Ok? then Release(None, Failure) else if c.op.BindTo? then BindAnchor(c.op.task) else Post);
    }
  }

  /** Moving a call on, without a new result, leaves a posted card its poster's own. */
  lemma MineMoves(cfg: Profile, w: World, w': World, id: CallId, st: Stage, t: TaskId)
    requires id in w.calls && Mine(cfg, w, w.calls[id].call, t)
    requires w' == Goto(w, id, w.calls[id].call, st) && ResultOf(st) in {Failure, ResultOf(w.calls[id].stage)}
    ensures Mine(cfg, w', w.calls[id].call, t)
  {
  }

  /** A card placed where a phone had none. */
  lemma PlacedIsLocal(cfg: Profile, w: World, w': World, id: CallId, t: TaskId, card: Card, st: Stage)
    requires w.cards.Keys <= w.used && t !in w.used && id in w.calls && Plausible(w.calls[id].call, card)
    requires w' == Goto(Placed(w, t, card), id, w.calls[id].call, st)
    ensures Local(cfg, w, w', id)
    ensures forall p :: Live(cfg, w', p) == Live(cfg, w, p) + (if card.phone == Some(p) && card.list in cfg.indexed then {t} else {})
  {
    var w1 := Placed(w, t, card);
    SameBoard(cfg, w1, w');
    forall p ensures Live(cfg, w', p) == Live(cfg, w, p) + (if card.phone == Some(p) && card.list in cfg.indexed then {t} else {})
    {
      PlacedLive(cfg, w, t, card, p);
    }
  }

  lemma PlacedKeeps(cfg: Profile, w: World, w': World, id: CallId, t: TaskId, card: Card, st: Stage)
    requires Inv(cfg, w) && id in w.calls && Holding(w.calls[id].stage) && !w.calls[id].stage.Clear?
    requires var c := w.calls[id].call;
             && t !in w.used && Plausible(c, card) && NoneLive(cfg, w, c) && !c.op.BindTo?
             && w' == Goto(Placed(w, t, card), id, c, st)
             && StageOk(cfg, w', c, st)
    requires Holding(st) && ResultOf(st) in {Failure, ResultOf(w.calls[id].stage)}
    ensures Inv(cfg, w')
  {
    var c := w.calls[id].call;
    AtStage(cfg, w, id);
    PlacedIsLocal(cfg, w, w', id, t, card, st);
    forall s: Slot | s.scope == ScopeOf(c) ensures SlotOk(cfg, w', s) {
      assert SlotOk(cfg, w, s);
    }
    LocalStep(cfg, w, w', id);
  }

  /** The card just placed is this call's own. */
  lemma PlacedIsMine(cfg: Profile, w: World, id: CallId, t: TaskId, card: Card)
    requires Inv(cfg, w) && id in w.calls
    requires var c := w.calls[id].call;
             t !in w.used && Plausible(c, card) && NoneLive(cfg, w, c) && !c.op.BindTo?
    ensures Mine(cfg, Placed(w, t, card), w.calls[id].call, t)
  {
    var c := w.calls[id].call;
    if c.op.CreateByPhone? {
      PlacedLive(cfg, w, t, card, c.op.phone);
      forall s | s in w.receipts && s.scope == ScopeOf(c) && s != SlotOf(c)
        ensures w.receipts[s] != Done(t)
      {
        assert SlotOk(cfg, w, s);
      }
      forall i | i in w.calls && ScopeOf(w.calls[i].call) == ScopeOf(c)
        ensures ResultOf(w.calls[i].stage) != Success(t)
      {
        assert ResultOk(cfg, w, w.calls[i].call, w.calls[i].stage);
      }
    }
  }

  lemma CreatedKeeps(cfg: Profile, w: World, id: CallId, o: Outcome)
    requires Inv(cfg, w) && Enabled(cfg, w, Act(id, o)) && w.calls[id].stage.Post? && o.Created?
    ensures Inv(cfg, Next(cfg, w, Act(id, o)))
  {
    AtStage(cfg, w, id);
    var c, w' := w.calls[id].call, Next(cfg, w, Act(id, o));
    var card := Card(o.list, o.phone, SlotOf(c));
    var w1 := Placed(w, o.task, card);
    PlacedIsMine(cfg, w, id, o.task, card);
    MineMoves(cfg, w1, w', id, Reread(o.task), o.task);
    assert NotDone(w', SlotOf(c));
    PlacedKeeps(cfg, w, w', id, o.task, card, Reread(o.task));
  }

  lemma PostKeeps(cfg: Profile, w: World, id: CallId, o: Outcome)
    requires Inv(cfg, w) && Enabled(cfg, w, Act(id, o)) && w.calls[id].stage.Post?
    ensures Inv(cfg, Next(cfg, w, Act(id, o)))
  {
    if o.Created? {
      CreatedKeeps(cfg, w, id, o);
    } else {
      AtStage(cfg, w, id);
      var c := w.calls[id].call;
      var st := Release(if o.TimedOut? then Some(Card(o.list, o.phone, SlotOf(c))) else None, Failure);
      MoveKeeps(cfg, w, Next(cfg, w, Act(id, o)), id, c, st);
    }
  }

  lemma LandKeeps(cfg: Profile, w: World, id: CallId, t: TaskId)
    requires Inv(cfg, w) && Enabled(cfg, w, Land(id, t))
    ensures Inv(cfg, Next(cfg, w, Land(id, t)))
  {
    var c, st := w.calls[id].call, w.calls[id].stage;
    assert StageOk(cfg, w, c, st);
    PlacedKeeps(cfg, w, Next(cfg, w, Land(id, t)), id, t, st.flight.value, st.(flight := None));
  }

  lemma RereadKeeps(cfg: Profile, w: World, id: CallId, o: Outcome)
    requires ValidProfile(cfg)
    requires Inv(cfg, w) && Enabled(cfg, w, Act(id, o)) && w.calls[id].stage.Reread?
    ensures Inv(cfg, Next(cfg, w, Act(id, o)))
  {
    AtStage(cfg, w, id);
    var c, t := w.calls[id].call, w.calls[id].stage.task;
    var st := if o.Throws? then Release(None, Failure) else if AsOrdered(cfg, w, c, t) then Finalize(t) else Discard(t);
    MoveKeeps(cfg, w, Next(cfg, w, Act(id, o)), id, c, st);
  }

  /** No other phone loses a card when a call deletes its own. */
  lemma MineIsNobodyElses(cfg: Profile, w: World, c: Call, t: TaskId, p: Phone)
    requires Mine(cfg, w, c, t) && PhoneScope(p) != ScopeOf(c)
    ensures t !in Live(cfg, w, p)
  {
  }

  /** `w'` is `w` after call `id` deleted task `t` as an undo and moved to stage `st`. */
  ghost predicate UndoneBy(w: World, w': World, id: CallId, t: TaskId, st: Stage)
    requires id in w.calls
  {
    var c := w.calls[id].call;
    && w'.cards == w.cards - {t}
    && w'.used == w.used && w'.locks == w.locks && w'.receipts == w.receipts && w'.acked == w.acked
    && w'.dangling == Undone(w, SlotOf(c), t).dangling
    && (w'.faulted == w.faulted || w'.faulted == w.faulted + {SlotOf(c)})
    && w'.calls == w.calls[id := Process(c, st)]
  }

  lemma UndoneLive(cfg: Profile, w: World, w': World, id: CallId, t: TaskId, st: Stage)
    requires id in w.calls && UndoneBy(w, w', id, t, st)
    ensures forall p :: Live(cfg, w', p) == Live(cfg, w, p) - {t}
  {
  }

  lemma UndoneIsLocal(cfg: Profile, w: World, w': World, id: CallId, t: TaskId, st: Stage)
    requires w.cards.Keys <= w.used
    requires id in w.calls && UndoneBy(w, w', id, t, st) && Mine(cfg, w, w.calls[id].call, t)
    ensures Local(cfg, w, w', id)
  {
    UndoneLive(cfg, w, w', id, t, st);
    var c := w.calls[id].call;
    forall p | PhoneScope(p) != ScopeOf(c) ensures Live(cfg, w', p) == Live(cfg, w, p) {
      MineIsNobodyElses(cfg, w, c, t, p);
    }
  }

  /** No receipt of the scope but the call's own named the card it deletes. */
  lemma UndoneSlot(cfg: Profile, w: World, w': World, id: CallId, t: TaskId, st: Stage, s: Slot)
    requires id in w.calls && UndoneBy(w, w', id, t, st) && Mine(cfg, w, w.calls[id].call, t)
    requires SlotOf(w.calls[id].call) !in w.acked && s.scope == ScopeOf(w.calls[id].call)
    requires SlotOk(cfg, w, s)
    ensures ReceiptOk(cfg, w', s) && AckOk(cfg, w', s)
  {
  }

  /** A call deletes the card it posted. */
  lemma DeletedKeeps(cfg: Profile, w: World, w': World, id: CallId, t: TaskId, st: Stage)
    requires Inv(cfg, w) && id in w.calls && Holding(w.calls[id].stage) && !w.calls[id].stage.Clear?
    requires st.Clear? || st == Release(None, Failure)
    requires UndoneBy(w, w', id, t, st)
    requires Mine(cfg, w, w.calls[id].call, t) && SlotOf(w.calls[id].call) !in w.acked
    requires DanglingOk(w', SlotOf(w.calls[id].call))
    ensures Inv(cfg, w')
  {
    var c := w.calls[id].call;
    AtStage(cfg, w, id);
    UndoneIsLocal(cfg, w, w', id, t, st);
    UndoneLive(cfg, w, w', id, t, st);
    forall s: Slot | s.scope == ScopeOf(c) ensures SlotOk(cfg, w', s) {
      assert SlotOk(cfg, w, s);
      UndoneSlot(cfg, w, w', id, t, st, s);
    }
    assert StageOk(cfg, w', c, st);
    LocalStep(cfg, w, w', id);
  }

  lemma DiscardKeeps(cfg: Profile, w: World, id: CallId, o: Outcome)
    requires Inv(cfg, w) && Enabled(cfg, w, Act(id, o)) && w.calls[id].stage.Discard?
    ensures Inv(cfg, Next(cfg, w, Act(id, o)))
  {
    var c, st, w' := w.calls[id].call, w.calls[id].stage, Next(cfg, w, Act(id, o));
    var s := SlotOf(c);
    assert StageOk(cfg, w, c, st);
    assert SlotOk(cfg, w, s);
    if o.Throws? {
      MoveKeeps(cfg, w, w', id, c, w'.calls[id].stage);
    } else {
      DeletedKeeps(cfg, w, w', id, st.task, Release(None, Failure));
    }
  }

  lemma UndoKeeps(cfg: Profile, w: World, id: CallId, o: Outcome)
    requires Inv(cfg, w) && Enabled(cfg, w, Act(id, o)) && w.calls[id].stage.Undo?
    ensures Inv(cfg, Next(cfg, w, Act(id, o)))
  {
    var c, st, w' := w.calls[id].call, w.calls[id].stage, Next(cfg, w, Act(id, o));
    var s := SlotOf(c);
    assert StageOk(cfg, w, c, st);
    if o.Throws? {
      MoveKeeps(cfg, w, w', id, c, w'.calls[id].stage);
    } else {
      DeletedKeeps(cfg, w, w', id, st.task, w'.calls[id].stage);
    }
  }

  lemma ClearKeeps(cfg: Profile, w: World, id: CallId, w': World, st: Stage)
    requires Inv(cfg, w) && id in w.calls && w.calls[id].stage.Clear?
    requires (st.Release? || st.Stopped?) && st.flight == None && st.result == Failure
    requires var c := w.calls[id].call;
             w' == Goto(Cleared(w, SlotOf(c)), id, c, st) || w' == Goto(Faulted(w, SlotOf(c)), id, c, st)
    ensures Inv(cfg, w')
  {
    AtStage(cfg, w, id);
    SameBoard(cfg, w, w');
    assert SlotOk(cfg, w, SlotOf(w.calls[id].call));
    SlotStep(cfg, w, w', id, st);
  }

  /** A result is computed for a card that is live, under a receipt that names it. */
  lemma AcknowledgedKeeps(cfg: Profile, w: World, id: CallId, t: TaskId)
    requires Inv(cfg, w) && id in w.calls && Holding(w.calls[id].stage) && !w.calls[id].stage.Clear?
    requires Backed(w, SlotOf(w.calls[id].call), t) && IsLive(cfg, w, w.calls[id].call, t)
    ensures Inv(cfg, Goto(Acknowledged(w, SlotOf(w.calls[id].call), t), id, w.calls[id].call, Release(None, Success(t))))
  {
    var c := w.calls[id].call;
    var s, st := SlotOf(c), Release(None, Success(t));
    var w' := Goto(Acknowledged(w, s, t), id, c, st);
    if s !in w.receipts {
      MoveKeeps(cfg, w, w', id, c, st);
    } else {
      SameBoard(cfg, w, w');
      AtStage(cfg, w, id);
      assert SlotOk(cfg, w, s);
      assert ReceiptOk(cfg, w', s) && AckOk(cfg, w', s) && DanglingOk(w', s);
      SlotStep(cfg, w, w', id, st);
    }
  }

  lemma ConfirmKeeps(cfg: Profile, w: World, id: CallId, o: Outcome)
    requires Inv(cfg, w) && Enabled(cfg, w, Act(id, o)) && w.calls[id].stage.Confirm?
    ensures Inv(cfg, Next(cfg, w, Act(id, o)))
  {
    AtStage(cfg, w, id);
    if o.Ok? {
      AcknowledgedKeeps(cfg, w, id, w.calls[id].stage.task);
    } else {
      MoveKeeps(cfg, w, Next(cfg, w, Act(id, o)), id, w.calls[id].call, Release(None, Failure));
    }
  }

  // ---------------------------------------------------------------- every step

  lemma ActKeeps(cfg: Profile, w: World, id: CallId, o: Outcome)
    requires ValidProfile(cfg) && Inv(cfg, w) && Enabled(cfg, w, Act(id, o))
    ensures Inv(cfg, Next(cfg, w, Act(id, o)))
  {
    var c, st, w' := w.calls[id].call, w.calls[id].stage, Next(cfg, w, Act(id, o));
    match st
    case Waiting => WaitingKeeps(cfg, w, id, o);
    case ReadReceipt => ReadReceiptKeeps(cfg, w, id, o);
    case Reanchor(_) => ReanchorKeeps(cfg, w, id, o);
    case CheckAnchor(_) => CheckAnchorKeeps(cfg, w, id, o);
    case Authorize => AuthorizeKeeps(cfg, w, id, o);
    case WriteAnchor(_) => WriteAnchorKeeps(cfg, w, id, o);
    case Anchor(_) => AnchorKeeps(cfg, w, id, o);
    case BindAnchor(_) => BindAnchorKeeps(cfg, w, id, o);
    case Scan(_, _, _) => ScanKeeps(cfg, w, id, o);
    case Adopt(_) => AdoptKeeps(cfg, w, id, o);
    case Finalize(_) => FinalizeKeeps(cfg, w, id, o);
    case BindFinalize(_) => BindFinalizeKeeps(cfg, w, id, o);
    case Begin => BeginKeeps(cfg, w, id, o);
    case Post => PostKeeps(cfg, w, id, o);
    case Reread(_) => RereadKeeps(cfg, w, id, o);
    case Discard(_) => DiscardKeeps(cfg, w, id, o);
    case Undo(_) => UndoKeeps(cfg, w, id, o);
    case Clear => ClearKeeps(cfg, w, id, w', Release(None, Failure));
    case Confirm(_) => ConfirmKeeps(cfg, w, id, o);
    case Release(f, r) =>
      assert StageOk(cfg, w, c, st);
      if o.Ok? {
        ReleaseKeeps(cfg, w, w', id, c, r);
      } else {
        MoveKeeps(cfg, w, w', id, c, Stopped(f, r));
      }
    case Stopped(_, _) =>
    case Finished(_) =>
  }

  lemma CrashKeeps(cfg: Profile, w: World, id: CallId, f: Option<Card>)
    requires Inv(cfg, w) && Enabled(cfg, w, Crash(id, f))
    ensures Inv(cfg, Next(cfg, w, Crash(id, f)))
  {
    var c, st, w' := w.calls[id].call, w.calls[id].stage, Next(cfg, w, Crash(id, f));
    assert StageOk(cfg, w, c, st);
    if st.Clear? {
      ClearKeeps(cfg, w, id, w', Stopped(f, Failure));
    } else {
      MoveKeeps(cfg, w, w', id, c, Stopped(f, Failure));
    }
  }

  /** Steps of nobody: what every holder relies on is left alone or only forgotten. */
  lemma ReceiptEndsKeeps(cfg: Profile, w: World, s: Slot)
    requires Inv(cfg, w)
    ensures Inv(cfg, Cleared(w, s))
  {
    var w' := Cleared(w, s);
    SameBoard(cfg, w, w');
    forall s': Slot ensures SlotOk(cfg, w', s') {
      assert SlotOk(cfg, w, s');
    }
    forall j | j in w'.calls && Holding(w'.calls[j].stage)
      ensures Holds(w', j) && StageOk(cfg, w', w'.calls[j].call, w'.calls[j].stage)
    {
      AtStage(cfg, w, j);
    }
  }

  lemma AnchorMoveKeeps(cfg: Profile, w: World, w': World)
    requires Inv(cfg, w) && w' == w.(anchors := w'.anchors)
    ensures Inv(cfg, w')
  {
    SameBoard(cfg, w, w');
    forall s: Slot ensures SlotOk(cfg, w', s) {
      assert SlotOk(cfg, w, s);
    }
    forall j | j in w'.calls && Holding(w'.calls[j].stage)
      ensures Holds(w', j) && StageOk(cfg, w', w'.calls[j].call, w'.calls[j].stage)
    {
      AtStage(cfg, w, j);
    }
  }

  lemma StepKeeps(cfg: Profile, w: World, e: Event)
    requires ValidProfile(cfg) && Inv(cfg, w) && Enabled(cfg, w, e)
    ensures Inv(cfg, Next(cfg, w, e))
  {
    match e
    case Act(id, o) => ActKeeps(cfg, w, id, o);
    case Crash(id, f) => CrashKeeps(cfg, w, id, f);
    case Land(id, t) => LandKeeps(cfg, w, id, t);
    case LeaseEnds(id) =>
      var c, st := w.calls[id].call, w.calls[id].stage;
      ReleaseKeeps(cfg, w, Next(cfg, w, e), id, c, st.result);
    case Arrive(id, c) => IdleKeeps(cfg, w, id, c, Waiting);
    case ReceiptEnds(s) => ReceiptEndsKeeps(cfg, w, s);
    case Elsewhere(_, _) => AnchorMoveKeeps(cfg, w, Next(cfg, w, e));
  }

  lemma {:induction false} RunKeeps(cfg: Profile, w: World, es: seq<Event>)
    requires ValidProfile(cfg) && Inv(cfg, w) && Valid(cfg, w, es)
    ensures Inv(cfg, After(cfg, w, es))
    decreases |es|
  {
    if es != [] {
      StepKeeps(cfg, w, es[0]);
      RunKeeps(cfg, Next(cfg, w, es[0]), es[1..]);
    }
  }
}
