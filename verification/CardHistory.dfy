/**
 * What a run leaves behind, told by the events of the run: which receipts name a card that is
 * gone, and which tasks an attempt left on the board.
 */
module CardHistory {
  import opened Options
  import opened CardCreation
  import opened CardInvariant
  import opened CardSteps
  import opened CardTheorems

  // ---------------------------------------------------------------- events and what undoes them

  /** Some event of the run sets, and none after it resets. */
  ghost predicate Since(cfg: Profile, w: World, es: seq<Event>, set': (World, Event) -> bool, reset: (World, Event) -> bool) {
    exists i | 0 <= i < |es| :: SinceAt(cfg, w, es, set', reset, i)
  }

  ghost predicate SinceAt(cfg: Profile, w: World, es: seq<Event>, set': (World, Event) -> bool, reset: (World, Event) -> bool, i: nat)
    requires i < |es|
  {
    set'(After(cfg, w, es[..i]), es[i]) && forall j | i < j < |es| :: !reset(After(cfg, w, es[..j]), es[j])
  }

  /** A property that each step sets, resets or leaves alone holds at the end exactly then. */
  lemma {:induction false} HoldsSince(cfg: Profile, w: World, es: seq<Event>, p: World -> bool,
                                      set': (World, Event) -> bool, reset: (World, Event) -> bool)
    requires !p(w)
    requires forall i | 0 <= i < |es| ::
               p(After(cfg, w, es[..i + 1])) <==> set'(After(cfg, w, es[..i]), es[i]) || (p(After(cfg, w, es[..i])) && !reset(After(cfg, w, es[..i]), es[i]))
    ensures p(After(cfg, w, es)) <==> Since(cfg, w, es, set', reset)
    decreases |es|
  {
    if es == [] {
    } else {
      var n := |es| - 1;
      var rest := es[..n];
      forall i | 0 <= i <= n ensures rest[..i] == es[..i] {
      }
      HoldsSince(cfg, w, rest, p, set', reset);
      assert es[..n + 1] == es;
      SinceStep(cfg, w, es, set', reset);
    }
  }

  lemma SinceStep(cfg: Profile, w: World, es: seq<Event>, set': (World, Event) -> bool, reset: (World, Event) -> bool)
    requires es != []
    ensures var n := |es| - 1;
            var v := After(cfg, w, es[..n]);
            Since(cfg, w, es, set', reset) <==> set'(v, es[n]) || (Since(cfg, w, es[..n], set', reset) && !reset(v, es[n]))
  {
    var n := |es| - 1;
    if set'(After(cfg, w, es[..n]), es[n]) {
      assert SinceAt(cfg, w, es, set', reset, n);
    }
    forall i: nat | i < n
      ensures SinceAt(cfg, w, es, set', reset, i) <==> SinceAt(cfg, w, es[..n], set', reset, i) && !reset(After(cfg, w, es[..n]), es[n])
    {
      SinceOneMore(cfg, w, es, set', reset, i);
    }
  }

  lemma SinceOneMore(cfg: Profile, w: World, es: seq<Event>, set': (World, Event) -> bool, reset: (World, Event) -> bool, i: nat)
    requires es != [] && i < |es| - 1
    ensures var n := |es| - 1;
            SinceAt(cfg, w, es, set', reset, i) <==> SinceAt(cfg, w, es[..n], set', reset, i) && !reset(After(cfg, w, es[..n]), es[n])
  {
    var n := |es| - 1;
    forall j | 0 <= j <= n ensures es[..n][..j] == es[..j] {
    }
    forall j | 0 <= j < n ensures es[..n][j] == es[j] {
    }
  }

  // ---------------------------------------------------------------- receipts without a card

  /** A compensating delete of the slot takes effect, whether or not its caller hears of it,
      while the receipt is done for the very task. */
  predicate DeletesUnder(w: World, e: Event, s: Slot) {
    && e.Act? && e.id in w.calls && SlotOf(w.calls[e.id].call) == s
    && w.calls[e.id].stage.Undo? && !e.outcome.Throws?
    && s in w.receipts && w.receipts[s] == Done(w.calls[e.id].stage.task)
  }

  /** The receipt of the slot is written as done, cleared or expired. */
  predicate Settles(w: World, e: Event, s: Slot) {
    || e == ReceiptEnds(s)
    || (&& e.Act? && e.id in w.calls && SlotOf(w.calls[e.id].call) == s && !e.outcome.Throws?
        && (Finalizes(w.calls[e.id].stage) || w.calls[e.id].stage.Clear?))
  }

  lemma DanglesStep(cfg: Profile, w: World, e: Event, s: Slot)
    requires Enabled(cfg, w, e)
    ensures s in Next(cfg, w, e).dangling <==> DeletesUnder(w, e, s) || (s in w.dangling && !Settles(w, e, s))
  {
    if e.Act? {
      var st := w.calls[e.id].stage;
      if !Touches(st, e.outcome) && !Finalizes(st) {
        QuietStages(cfg, w, e.id, e.outcome);
      } else if Finalizes(st) {
        FinalizingDangles(cfg, w, e.id, e.outcome, s);
      } else {
        TouchingDangles(cfg, w, e.id, e.outcome, s);
      }
    }
  }

  lemma FinalizingDangles(cfg: Profile, w: World, id: CallId, o: Outcome, s: Slot)
    requires Enabled(cfg, w, Act(id, o)) && Finalizes(w.calls[id].stage)
    ensures s in Next(cfg, w, Act(id, o)).dangling <==> s in w.dangling && !Settles(w, Act(id, o), s)
  {
  }

  lemma TouchingDangles(cfg: Profile, w: World, id: CallId, o: Outcome, s: Slot)
    requires Enabled(cfg, w, Act(id, o)) && Touches(w.calls[id].stage, o)
    ensures s in Next(cfg, w, Act(id, o)).dangling <==>
              DeletesUnder(w, Act(id, o), s) || (s in w.dangling && !Settles(w, Act(id, o), s))
  {
    if w.calls[id].stage.Undo? {
      UndoDangles(cfg, w, id, o, s);
    } else if w.calls[id].stage.Clear? {
      ClearDangles(cfg, w, id, o, s);
    }
  }

  lemma UndoDangles(cfg: Profile, w: World, id: CallId, o: Outcome, s: Slot)
    requires Enabled(cfg, w, Act(id, o)) && w.calls[id].stage.Undo?
    ensures s in Next(cfg, w, Act(id, o)).dangling <==> DeletesUnder(w, Act(id, o), s) || s in w.dangling
  {
  }

  lemma ClearDangles(cfg: Profile, w: World, id: CallId, o: Outcome, s: Slot)
    requires Enabled(cfg, w, Act(id, o)) && w.calls[id].stage.Clear?
    ensures s in Next(cfg, w, Act(id, o)).dangling <==> s in w.dangling && !Settles(w, Act(id, o), s)
  {
  }

  /** Some compensation of the slot deleted the card its receipt was done for, and the receipt
      was neither written, cleared nor expired since. */
  ghost predicate Orphaned(cfg: Profile, w: World, es: seq<Event>, s: Slot) {
    Since(cfg, w, es, (v, e) => DeletesUnder(v, e, s), (v, e) => Settles(v, e, s))
  }

  lemma DanglesExactly(cfg: Profile, w: World, es: seq<Event>, s: Slot)
    requires Initial(w) && Valid(cfg, w, es)
    ensures s in After(cfg, w, es).dangling <==> Orphaned(cfg, w, es, s)
  {
    var p := (v: World) => s in v.dangling;
    forall i | 0 <= i < |es|
      ensures p(After(cfg, w, es[..i + 1])) <==>
        DeletesUnder(After(cfg, w, es[..i]), es[i], s) || (p(After(cfg, w, es[..i])) && !Settles(After(cfg, w, es[..i]), es[i], s))
    {
      NextEvent(cfg, w, es, i);
      DanglesStep(cfg, After(cfg, w, es[..i]), es[i], s);
    }
    HoldsSince(cfg, w, es, p, (v, e) => DeletesUnder(v, e, s), (v, e) => Settles(v, e, s));
  }

  /** In every state, with the lock free or not, the done receipt of a phone names a live card of
      that phone exactly when the run has not orphaned it. */
  lemma DoneReceiptNamesLiveCard(cfg: Profile, w: World, es: seq<Event>, p: Phone, k: Key)
    requires ValidProfile(cfg) && Initial(w) && Valid(cfg, w, es)
    requires var v, s := After(cfg, w, es), Slot(PhoneScope(p), k); s in v.receipts && v.receipts[s].Done?
    ensures var v, s := After(cfg, w, es), Slot(PhoneScope(p), k);
            v.receipts[s].task in Live(cfg, v, p) <==> !Orphaned(cfg, w, es, s)
  {
    ReachableIsSound(cfg, w, es);
    assert SlotOk(cfg, After(cfg, w, es), Slot(PhoneScope(p), k));
    DanglesExactly(cfg, w, es, Slot(PhoneScope(p), k));
  }

  lemma {:induction false} FaultsComeFromBreaks(cfg: Profile, w: World, es: seq<Event>, s: Slot)
    requires Valid(cfg, w, es) && s !in w.faulted && s in After(cfg, w, es).faulted
    ensures exists i | 0 <= i < |es| :: Breaks(After(cfg, w, es[..i]), es[i], s)
    decreases |es|
  {
    var n := |es| - 1;
    NextEvent(cfg, w, es, n);
    assert es[..n + 1] == es;
    OnlyBreaksFault(cfg, After(cfg, w, es[..n]), es[n], s);
    if s in After(cfg, w, es[..n]).faulted {
      FaultsComeFromBreaks(cfg, w, es[..n], s);
      var i :| 0 <= i < n && Breaks(After(cfg, w, es[..n][..i]), es[..n][i], s);
      assert es[..n][..i] == es[..i];
    }
  }

  /** With the lock free, a receipt is orphaned only if a compensation of its slot broke: its
      delete lost the reply, its clear failed, or its call died before the clear. */
  lemma OrphansComeFromBreaks(cfg: Profile, w: World, es: seq<Event>, s: Slot)
    requires ValidProfile(cfg) && Initial(w) && Valid(cfg, w, es) && Orphaned(cfg, w, es, s)
    requires s.scope !in After(cfg, w, es).locks
    ensures exists i | 0 <= i < |es| :: Breaks(After(cfg, w, es[..i]), es[i], s)
  {
    ReachableIsSound(cfg, w, es);
    DanglesExactly(cfg, w, es, s);
    assert SlotOk(cfg, After(cfg, w, es), s);
    FaultsComeFromBreaks(cfg, w, es, s);
  }

  // ---------------------------------------------------------------- tasks left on the board

  /** A call of the slot creates task `t`, or the POST it gave up on lands as `t`. */
  predicate Places(w: World, e: Event, s: Slot, t: TaskId) {
    && (e.Act? || e.Land?) && e.id in w.calls && SlotOf(w.calls[e.id].call) == s
    && (if e.Land? then e.task == t else w.calls[e.id].stage.Post? && e.outcome.Created? && e.outcome.task == t)
  }

  /** A delete of task `t` takes effect. */
  predicate Removes(w: World, e: Event, t: TaskId) {
    && e.Act? && e.id in w.calls && !e.outcome.Throws?
    && (w.calls[e.id].stage == Discard(t) || w.calls[e.id].stage == Undo(t))
  }

  predicate Holds'(w: World, s: Slot, t: TaskId) {
    t in w.cards && w.cards[t].origin == s
  }

  lemma HoldsStep(cfg: Profile, w: World, e: Event, s: Slot, t: TaskId)
    requires Inv(cfg, w) && Enabled(cfg, w, e)
    ensures Holds'(Next(cfg, w, e), s, t) <==> Places(w, e, s, t) || (Holds'(w, s, t) && !Removes(w, e, t))
  {
    if e.Act? {
      var st := w.calls[e.id].stage;
      if !Touches(st, e.outcome) {
        QuietStages(cfg, w, e.id, e.outcome);
      } else {
        TouchingHolds(cfg, w, e.id, e.outcome, s, t);
      }
    } else if e.Land? {
      AtStage(cfg, w, e.id);
    }
  }

  lemma TouchingHolds(cfg: Profile, w: World, id: CallId, o: Outcome, s: Slot, t: TaskId)
    requires w.cards.Keys <= w.used && Enabled(cfg, w, Act(id, o)) && Touches(w.calls[id].stage, o)
    ensures Holds'(Next(cfg, w, Act(id, o)), s, t) <==> Places(w, Act(id, o), s, t) || (Holds'(w, s, t) && !Removes(w, Act(id, o), t))
  {
  }

  /** Some call of the slot put the task on the board, and nobody deleted it since. */
  ghost predicate LeftBehind(cfg: Profile, w: World, es: seq<Event>, s: Slot, t: TaskId) {
    Since(cfg, w, es, (v, e) => Places(v, e, s, t), (v, e) => Removes(v, e, t))
  }

  /** The tasks of a slot are exactly those its calls left behind. */
  lemma PostedExactly(cfg: Profile, w: World, es: seq<Event>, s: Slot, t: TaskId)
    requires ValidProfile(cfg) && Initial(w) && Valid(cfg, w, es) && PostedBy(w, s) == {}
    ensures t in PostedBy(After(cfg, w, es), s) <==> LeftBehind(cfg, w, es, s, t)
  {
    var p := (v: World) => Holds'(v, s, t);
    assert t !in PostedBy(w, s);
    forall i | 0 <= i < |es|
      ensures p(After(cfg, w, es[..i + 1])) <==>
        Places(After(cfg, w, es[..i]), es[i], s, t) || (p(After(cfg, w, es[..i])) && !Removes(After(cfg, w, es[..i]), es[i], t))
    {
      NextEvent(cfg, w, es, i);
      ReachableIsSound(cfg, w, es[..i]);
      HoldsStep(cfg, After(cfg, w, es[..i]), es[i], s, t);
    }
    HoldsSince(cfg, w, es, p, (v, e) => Places(v, e, s, t), (v, e) => Removes(v, e, t));
  }
}
