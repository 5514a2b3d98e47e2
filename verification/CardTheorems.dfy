/** What the card protocol guarantees over every run, under any interleaving and failure. */
module CardTheorems {
  import opened Options
  import opened CardCreation
  import opened CardInvariant
  import opened CardSteps

  /** A board with whatever cards and anchors it has; no call has been made yet. */
  ghost predicate Initial(w: World) {
    && w.cards.Keys <= w.used
    && w.receipts == map[] && w.locks == map[] && w.calls == map[]
    && w.acked == map[] && w.dangling == {} && w.faulted == {}
  }

  /** A state that some run of the protocol leads to. */
  ghost predicate Reachable(cfg: Profile, w: World) {
    exists v, es :: Initial(v) && Valid(cfg, v, es) && After(cfg, v, es) == w
  }

  lemma ReachableIsSound(cfg: Profile, w: World, es: seq<Event>)
    requires ValidProfile(cfg) && Initial(w) && Valid(cfg, w, es)
    ensures Inv(cfg, After(cfg, w, es))
  {
    RunKeeps(cfg, w, es);
  }

  // ---------------------------------------------------------------- one card per phone

  ghost predicate GrowsFromNone(before: set<TaskId>, after: set<TaskId>) {
    after <= before || (before == {} && AtMostOne(after))
  }

  /** The stages that read, and so change nothing but where the call stands. */
  predicate Reads(st: Stage) {
    st.ReadReceipt? || st.Reanchor? || st.CheckAnchor? || st.Authorize? || st.Scan?
  }

  /** The stages whose outcome can change the board or break a compensation. */
  predicate Touches(st: Stage, o: Outcome) {
    (st.Post? && o.Created?) || (st.Discard? && !o.Throws?) || st.Undo? || st.Clear?
  }

  /** The stages that write a done receipt. */
  predicate Finalizes(st: Stage) {
    st.Adopt? || st.Finalize? || st.BindFinalize?
  }

  ghost predicate Quiet(w: World, w': World) {
    w'.cards == w.cards && w'.used == w.used && w'.faulted == w.faulted
  }

  lemma ReadsAreQuiet(cfg: Profile, w: World, id: CallId, c: Call, st: Stage, o: Outcome)
    requires CanAct(cfg, w, c, st, o) && (st.ReadReceipt? || st.Reanchor?)
    ensures var w' := Acted(cfg, w, id, c, st, o); Quiet(w, w') && w'.acked == w.acked && w'.dangling == w.dangling
  {
  }

  lemma CheckIsQuiet(cfg: Profile, w: World, id: CallId, c: Call, st: Stage, o: Outcome)
    requires CanAct(cfg, w, c, st, o) && st.CheckAnchor?
    ensures var w' := Acted(cfg, w, id, c, st, o); Quiet(w, w') && w'.acked == w.acked && w'.dangling == w.dangling
  {
  }

  lemma AuthorizeIsQuiet(cfg: Profile, w: World, id: CallId, c: Call, st: Stage, o: Outcome)
    requires CanAct(cfg, w, c, st, o) && st.Authorize?
    ensures var w' := Acted(cfg, w, id, c, st, o); Quiet(w, w') && w'.acked == w.acked && w'.dangling == w.dangling
  {
  }

  lemma MatchedIsQuiet(w: World, id: CallId, c: Call, pend: bool, found: set<TaskId>)
    ensures var w' := Matched(w, id, c, pend, found); Quiet(w, w') && w'.acked == w.acked && w'.dangling == w.dangling
  {
  }

  lemma ScanIsQuiet(cfg: Profile, w: World, id: CallId, c: Call, st: Stage, o: Outcome)
    requires CanAct(cfg, w, c, st, o) && st.Scan?
    ensures var w' := Acted(cfg, w, id, c, st, o); Quiet(w, w') && w'.acked == w.acked && w'.dangling == w.dangling
  {
    if o.Ok? {
      MatchedIsQuiet(w, id, c, st.pend, st.found);
      assert Acted(cfg, w, id, c, st, o) == Matched(w, id, c, st.pend, st.found);
    }
  }

  lemma WritesAreQuiet(cfg: Profile, w: World, id: CallId, c: Call, st: Stage, o: Outcome)
    requires CanAct(cfg, w, c, st, o) && !Reads(st) && !Touches(st, o)
    ensures var w' := Acted(cfg, w, id, c, st, o);
            && Quiet(w, w') && (!st.Confirm? ==> w'.acked == w.acked)
            && (!Finalizes(st) ==> w'.dangling == w.dangling)
  {
  }

  /** Only a POST that answers, a discard and an undo change the board in a call's own step;
      only an undo and a clear can break a compensation. */
  lemma QuietStages(cfg: Profile, w: World, id: CallId, o: Outcome)
    requires Enabled(cfg, w, Act(id, o)) && !Touches(w.calls[id].stage, o)
    ensures var w' := Next(cfg, w, Act(id, o));
            && Quiet(w, w') && (!w.calls[id].stage.Confirm? ==> w'.acked == w.acked)
            && (!Finalizes(w.calls[id].stage) ==> w'.dangling == w.dangling)
  {
    var c, st := w.calls[id].call, w.calls[id].stage;
    if st.ReadReceipt? || st.Reanchor? {
      ReadsAreQuiet(cfg, w, id, c, st, o);
    } else if st.CheckAnchor? {
      CheckIsQuiet(cfg, w, id, c, st, o);
    } else if st.Authorize? {
      AuthorizeIsQuiet(cfg, w, id, c, st, o);
    } else if st.Scan? {
      ScanIsQuiet(cfg, w, id, c, st, o);
    } else {
      WritesAreQuiet(cfg, w, id, c, st, o);
    }
  }

  lemma PostGrowsFromNone(cfg: Profile, w: World, id: CallId, o: Outcome, p: Phone)
    requires Inv(cfg, w) && Enabled(cfg, w, Act(id, o)) && w.calls[id].stage.Post? && o.Created?
    ensures GrowsFromNone(Live(cfg, w, p), Live(cfg, Next(cfg, w, Act(id, o)), p))
  {
  }

  lemma DeleteGrowsNothing(cfg: Profile, w: World, id: CallId, o: Outcome, p: Phone)
    requires Enabled(cfg, w, Act(id, o)) && (w.calls[id].stage.Discard? || w.calls[id].stage.Undo?) && !o.Throws?
    ensures Live(cfg, Next(cfg, w, Act(id, o)), p) <= Live(cfg, w, p)
  {
  }

  lemma ClearsAreQuiet(cfg: Profile, w: World, id: CallId, o: Outcome)
    requires Enabled(cfg, w, Act(id, o))
    requires w.calls[id].stage.Clear? || (w.calls[id].stage.Undo? && o.Throws?)
    ensures Next(cfg, w, Act(id, o)).cards == w.cards
  {
  }

  lemma ActGrowsOnlyFromNone(cfg: Profile, w: World, id: CallId, o: Outcome, p: Phone)
    requires Inv(cfg, w) && Enabled(cfg, w, Act(id, o))
    ensures GrowsFromNone(Live(cfg, w, p), Live(cfg, Next(cfg, w, Act(id, o)), p))
  {
    var st := w.calls[id].stage;
    if st.Post? && o.Created? {
      PostGrowsFromNone(cfg, w, id, o, p);
    } else if (st.Discard? || st.Undo?) && !o.Throws? {
      DeleteGrowsNothing(cfg, w, id, o, p);
    } else {
      if Touches(st, o) {
        ClearsAreQuiet(cfg, w, id, o);
      } else {
        QuietStages(cfg, w, id, o);
      }
      SameBoard(cfg, w, Next(cfg, w, Act(id, o)));
    }
  }

  /** A step adds a card for a phone only when that phone has none, and then just one. */
  lemma GrowsOnlyFromNone(cfg: Profile, w: World, e: Event, p: Phone)
    requires Inv(cfg, w) && Enabled(cfg, w, e)
    ensures GrowsFromNone(Live(cfg, w, p), Live(cfg, Next(cfg, w, e), p))
  {
    match e
    case Act(id, o) => ActGrowsOnlyFromNone(cfg, w, id, o, p);
    case Land(id, t) =>
      var st := w.calls[id].stage;
      AtStage(cfg, w, id);
      PlacedIsLocal(cfg, w, Next(cfg, w, e), id, t, st.flight.value, st.(flight := None));
    case _ => SameBoard(cfg, w, Next(cfg, w, e));
  }

  lemma {:induction false} RunGrowsOnlyFromNone(cfg: Profile, w: World, es: seq<Event>, p: Phone)
    requires ValidProfile(cfg) && Inv(cfg, w) && Valid(cfg, w, es)
    ensures var after := Live(cfg, After(cfg, w, es), p);
            after <= Live(cfg, w, p) || AtMostOne(after)
    decreases |es|
  {
    if es != [] {
      StepKeeps(cfg, w, es[0]);
      GrowsOnlyFromNone(cfg, w, es[0], p);
      RunGrowsOnlyFromNone(cfg, Next(cfg, w, es[0]), es[1..], p);
    }
  }

  lemma AtMostOneIsSmall(s: set<TaskId>)
    requires AtMostOne(s)
    ensures |s| <= 1
  {
    if s != {} {
      var t :| t in s;
      assert s == {t};
    }
  }

  /** Whatever the calls, their keys, their interleaving and their failures, a phone never
      has two live cards, unless people had put several there before. */
  lemma OneCardPerPhone(cfg: Profile, w: World, es: seq<Event>, p: Phone)
    requires ValidProfile(cfg) && Initial(w) && Valid(cfg, w, es)
    ensures |Live(cfg, After(cfg, w, es), p)| <= 1 || Live(cfg, After(cfg, w, es), p) <= Live(cfg, w, p)
    ensures |Live(cfg, w, p)| <= 1 ==> |Live(cfg, After(cfg, w, es), p)| <= 1
  {
    RunGrowsOnlyFromNone(cfg, w, es, p);
    var before, after := Live(cfg, w, p), Live(cfg, After(cfg, w, es), p);
    if AtMostOne(after) {
      AtMostOneIsSmall(after);
    } else if |before| <= 1 {
      SmallSubset(after, before);
    }
  }

  lemma SmallSubset(a: set<TaskId>, b: set<TaskId>)
    requires a <= b && |b| <= 1
    ensures |a| <= 1
  {
    assert b == a + (b - a);
  }

  /** A card that createTask returned is live from then on. */
  lemma ReturnedCardStays(cfg: Profile, w: World, es: seq<Event>, i: CallId)
    requires ValidProfile(cfg) && Initial(w) && Valid(cfg, w, es)
    requires var v := After(cfg, w, es);
             i in v.calls && v.calls[i].call.op.CreateByPhone? && ResultOf(v.calls[i].stage).Success?
    ensures var v := After(cfg, w, es);
            ResultOf(v.calls[i].stage).task in Live(cfg, v, v.calls[i].call.op.phone)
  {
    ReachableIsSound(cfg, w, es);
    var v := After(cfg, w, es);
    assert ResultOk(cfg, v, v.calls[i].call, v.calls[i].stage);
  }

  /** All calls of createTask that succeed for a phone return the same card, whatever their
      keys and conversations, also after receipts expired. */
  lemma OneAnswerPerPhone(cfg: Profile, w: World, es: seq<Event>, i: CallId, j: CallId, p: Phone)
    requires ValidProfile(cfg) && Initial(w) && Valid(cfg, w, es)
    requires |Live(cfg, w, p)| <= 1
    requires var v := After(cfg, w, es);
             && i in v.calls && v.calls[i].call.op == CreateByPhone(p) && ResultOf(v.calls[i].stage).Success?
             && j in v.calls && v.calls[j].call.op == CreateByPhone(p) && ResultOf(v.calls[j].stage).Success?
    ensures var v := After(cfg, w, es);
            ResultOf(v.calls[i].stage) == ResultOf(v.calls[j].stage)
  {
    var v := After(cfg, w, es);
    ReturnedCardStays(cfg, w, es, i);
    ReturnedCardStays(cfg, w, es, j);
    OneCardPerPhone(cfg, w, es, p);
    var t, u := ResultOf(v.calls[i].stage).task, ResultOf(v.calls[j].stage).task;
    if t != u {
      assert {t, u} <= Live(cfg, v, p);
      SmallSubset({t, u}, Live(cfg, v, p));
    }
  }

  // ---------------------------------------------------------------- locks and receipts

  /** Two calls never work in one scope at the same time. */
  lemma ScopesAreExclusive(cfg: Profile, w: World, es: seq<Event>, i: CallId, j: CallId)
    requires ValidProfile(cfg) && Initial(w) && Valid(cfg, w, es)
    requires var v := After(cfg, w, es);
             && i in v.calls && Holding(v.calls[i].stage) && j in v.calls && Holding(v.calls[j].stage)
             && ScopeOf(v.calls[i].call) == ScopeOf(v.calls[j].call)
    ensures i == j
  {
    ReachableIsSound(cfg, w, es);
    AtStage(cfg, After(cfg, w, es), i);
    AtStage(cfg, After(cfg, w, es), j);
  }

  /** The step at which a compensation of slot `s` breaks: the delete lost its reply, the
      clear failed, or the call died between the two. */
  ghost predicate Breaks(w: World, e: Event, s: Slot) {
    && (e.Act? || e.Crash?)
    && e.id in w.calls && SlotOf(w.calls[e.id].call) == s
    && var st := w.calls[e.id].stage;
       || (e.Crash? && st.Clear?)
       || (e.Act? && st.Clear? && e.outcome.Throws?)
       || (e.Act? && st.Undo? && e.outcome.LostReply?)
  }

  /** Such steps are what the model records as a fault. */
  lemma OnlyBreaksFault(cfg: Profile, w: World, e: Event, s: Slot)
    requires Enabled(cfg, w, e)
    ensures s in Next(cfg, w, e).faulted <==> s in w.faulted || Breaks(w, e, s)
  {
    if e.Act? {
      OnlyBreaksFaultActs(cfg, w, e.id, e.outcome, s);
    }
  }

  lemma OnlyBreaksFaultActs(cfg: Profile, w: World, id: CallId, o: Outcome, s: Slot)
    requires Enabled(cfg, w, Act(id, o))
    ensures s in Next(cfg, w, Act(id, o)).faulted <==> s in w.faulted || Breaks(w, Act(id, o), s)
  {
    var st := w.calls[id].stage;
    if !Touches(st, o) {
      QuietStages(cfg, w, id, o);
    }
  }

  // ---------------------------------------------------------------- runs in pieces

  lemma {:induction false} RunSplits(cfg: Profile, w: World, es: seq<Event>, n: nat)
    requires Valid(cfg, w, es) && n <= |es|
    ensures Valid(cfg, w, es[..n]) && Valid(cfg, After(cfg, w, es[..n]), es[n..])
    ensures After(cfg, w, es) == After(cfg, After(cfg, w, es[..n]), es[n..])
    decreases n
  {
    if n == 0 {
      assert es[0..] == es;
    } else {
      RunSplits(cfg, Next(cfg, w, es[0]), es[1..], n - 1);
      assert es[..n] == [es[0]] + es[1..][..n - 1];
      assert es[..n][1..] == es[1..][..n - 1];
      assert es[n..] == es[1..][n - 1..];
    }
  }

  lemma NextEvent(cfg: Profile, w: World, es: seq<Event>, n: nat)
    requires Valid(cfg, w, es) && n < |es|
    ensures Valid(cfg, w, es[..n]) && Enabled(cfg, After(cfg, w, es[..n]), es[n])
    ensures After(cfg, w, es[..n + 1]) == Next(cfg, After(cfg, w, es[..n]), es[n])
  {
    RunSplits(cfg, w, es, n);
    RunSplits(cfg, w, es, n + 1);
    RunSplits(cfg, w, es[..n + 1], n);
    var v := After(cfg, w, es[..n]);
    assert es[..n + 1][..n] == es[..n];
    assert es[..n + 1][n..] == [es[n]];
    assert es[n..][0] == es[n];
    assert After(cfg, v, [es[n]]) == After(cfg, Next(cfg, v, es[n]), []);
  }

  // ---------------------------------------------------------------- success is final

  lemma AckedActStays(cfg: Profile, w: World, id: CallId, o: Outcome, s: Slot)
    requires Inv(cfg, w) && Enabled(cfg, w, Act(id, o)) && s in w.acked
    ensures s in Next(cfg, w, Act(id, o)).acked && Next(cfg, w, Act(id, o)).acked[s] == w.acked[s]
  {
    assert SlotOk(cfg, w, s);
    var st := w.calls[id].stage;
    if Holding(st) {
      AtStage(cfg, w, id);
    }
    if !Touches(st, o) && !st.Confirm? {
      QuietStages(cfg, w, id, o);
    }
  }

  lemma AckedStepStays(cfg: Profile, w: World, e: Event, s: Slot)
    requires Inv(cfg, w) && Enabled(cfg, w, e) && s in w.acked && e != ReceiptEnds(s)
    ensures s in Next(cfg, w, e).acked && Next(cfg, w, e).acked[s] == w.acked[s]
  {
    if e.Act? {
      AckedActStays(cfg, w, e.id, e.outcome, s);
    }
  }

  lemma {:induction false} AckedStays(cfg: Profile, w: World, es: seq<Event>, s: Slot)
    requires ValidProfile(cfg) && Inv(cfg, w) && Valid(cfg, w, es)
    requires s in w.acked && ReceiptEnds(s) !in es
    ensures Inv(cfg, After(cfg, w, es))
    ensures s in After(cfg, w, es).acked && After(cfg, w, es).acked[s] == w.acked[s]
    decreases |es|
  {
    if es != [] {
      StepKeeps(cfg, w, es[0]);
      AckedStepStays(cfg, w, es[0], s);
      AckedStays(cfg, Next(cfg, w, es[0]), es[1..], s);
    }
  }

  /** Call `e.id` computes the result `t` for slot `s` in this step, and the receipt lives. */
  ghost predicate Succeeds(w: World, e: Event, s: Slot, t: TaskId) {
    && e.Act? && e.outcome.Ok? && e.id in w.calls
    && SlotOf(w.calls[e.id].call) == s && w.calls[e.id].stage == Confirm(t)
    && s in w.receipts
  }

  ghost predicate Posts(w: World, e: Event, s: Slot) {
    && e.Act? && e.id in w.calls
    && SlotOf(w.calls[e.id].call) == s && w.calls[e.id].stage.Post?
  }

  /** After a success for a scope and key, and while its receipt lives, no call with that
      scope and key issues another POST or returns another task. */
  lemma SuccessIsFinal(cfg: Profile, w: World, es: seq<Event>, s: Slot, t: TaskId, m: nat, n: nat)
    requires ValidProfile(cfg) && Initial(w) && Valid(cfg, w, es)
    requires m < n < |es|
    requires Succeeds(After(cfg, w, es[..m]), es[m], s, t)
    requires ReceiptEnds(s) !in es[m + 1..n]
    ensures !Posts(After(cfg, w, es[..n]), es[n], s)
    ensures forall u :: Succeeds(After(cfg, w, es[..n]), es[n], s, u) ==> u == t
  {
    NextEvent(cfg, w, es, m);
    NextEvent(cfg, w, es, n);
    RunSplits(cfg, w, es, n);
    RunSplits(cfg, w, es[..n], m + 1);
    assert es[..n][..m + 1] == es[..m + 1];
    assert es[..n][m + 1..] == es[m + 1..n];
    var v := After(cfg, w, es[..m + 1]);
    ReachableIsSound(cfg, w, es[..n][..m + 1]);
    assert v.acked[s] == t;
    AckedStays(cfg, v, es[m + 1..n], s);
    var x := After(cfg, w, es[..n]);
    assert SlotOk(cfg, x, s);
    if es[n].Act? && Holding(x.calls[es[n].id].stage) {
      AtStage(cfg, x, es[n].id);
    }
  }
}
