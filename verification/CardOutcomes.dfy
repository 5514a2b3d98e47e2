/**
 * What the three operations come to, said by what is on the board, in the receipts and at the
 * anchors: which card a success names, what a receipt remembers, and what a failure leaves.
 */
module CardOutcomes {
  import opened Options
  import opened CardCreation
  import opened CardInvariant
  import opened CardSteps
  import opened CardTheorems
  import opened CardService
  import opened CardHistory
  import opened CardRetry

  // ---------------------------------------------------------------- calm calls, by value

  /** A card of the phone on one of the indexed lists. */
  predicate OnBoard(cfg: Profile, w: World, t: TaskId, phone: Phone) {
    t in w.cards && w.cards[t].phone == Some(phone) && w.cards[t].list in cfg.indexed
  }

  /** A calm createTask under a done receipt repeats its answer, if the card is still the phone's,
      and anchors the conversation if it is free. */
  lemma CreateTaskRepeats(cfg: Profile, w: World, w': World, conv: ConvId, key: Key, phone: Phone, confirm: bool, r: Result, t: TaskId)
    requires CalmCreateTask(cfg, w, w', Call(conv, key, CreateByPhone(phone), confirm), r)
    requires var s := Slot(PhoneScope(phone), key); s in w.receipts && w.receipts[s] == Done(t)
    ensures r == if OnBoard(cfg, w, t, phone) then Success(t) else Failure
    ensures Leaves(w', w.cards, w.receipts, if conv !in w.anchors then w.anchors[conv := t] else w.anchors)
  {
  }

  /** Without a done receipt, a calm createTask on an anchored conversation needs the switch
      confirmed; and every failure leaves all as it was. */
  lemma CreateTaskRefuses(cfg: Profile, w: World, w': World, conv: ConvId, key: Key, phone: Phone, confirm: bool, r: Result)
    requires CalmCreateTask(cfg, w, w', Call(conv, key, CreateByPhone(phone), confirm), r)
    requires var s := Slot(PhoneScope(phone), key); !(s in w.receipts && w.receipts[s].Done?)
    ensures conv in w.anchors && !confirm ==> r == Failure
    ensures r == Failure ==> Leaves(w', w.cards, w.receipts, w.anchors)
  {
  }

  /** Otherwise a phone without a card gets one, on the primary list. */
  lemma CreateTaskPosts(cfg: Profile, w: World, w': World, conv: ConvId, key: Key, phone: Phone, confirm: bool, r: Result)
    requires CalmCreateTask(cfg, w, w', Call(conv, key, CreateByPhone(phone), confirm), r)
    requires var s := Slot(PhoneScope(phone), key); !(s in w.receipts && w.receipts[s].Done?)
    requires (conv !in w.anchors || confirm) && forall t :: !OnBoard(cfg, w, t, phone)
    ensures var s := Slot(PhoneScope(phone), key);
            && r.Success? && r.task !in w.used
            && Leaves(w', w.cards[r.task := Card(cfg.primary, Some(phone), s)], w.receipts[s := Done(r.task)], w.anchors[conv := r.task])
  {
    assert forall t :: t in Live(cfg, w, phone) ==> OnBoard(cfg, w, t, phone);
    assert Live(cfg, w, phone) == {};
  }

  /** And a phone with a card never gets another: the one card of a phone is taken over under a
      pending receipt, and refused without; several are refused. */
  lemma CreateTaskTakesOver(cfg: Profile, w: World, w': World, conv: ConvId, key: Key, phone: Phone, confirm: bool, r: Result, t: TaskId)
    requires CalmCreateTask(cfg, w, w', Call(conv, key, CreateByPhone(phone), confirm), r)
    requires var s := Slot(PhoneScope(phone), key); !(s in w.receipts && w.receipts[s].Done?)
    requires (conv !in w.anchors || confirm) && OnBoard(cfg, w, t, phone)
    ensures var s := Slot(PhoneScope(phone), key);
            if s in w.receipts && forall u | OnBoard(cfg, w, u, phone) :: u == t then
              r == Success(t) && Leaves(w', w.cards, w.receipts[s := Done(t)], if conv !in w.anchors then w.anchors[conv := t] else w.anchors)
            else r == Failure
  {
    assert forall u :: u in Live(cfg, w, phone) <==> OnBoard(cfg, w, u, phone);
    if forall u | OnBoard(cfg, w, u, phone) :: u == t {
      assert Live(cfg, w, phone) == {t};
    }
  }

  /**
   * A calm createWorkbenchTask on `list`: the task is created on that very list, without a
   * phone, under the conversation's own scope, if the list is authorized and the conversation
   * free or the switch confirmed; or a done receipt is answered from.
   */
  lemma CreateWorkbenchTaskDecides(cfg: Profile, w: World, w': World, conv: ConvId, key: Key, list: ListId, confirm: bool, r: Result)
    requires CalmCreateWorkbenchTask(cfg, w, w', Call(conv, key, CreateOnList(list), confirm), r)
    ensures var s := Slot(ConvScope(conv), key);
            var free := conv !in w.anchors;
            && (list !in cfg.authorized ==> r == Failure)
            && (forall t | list in cfg.authorized && s in w.receipts && w.receipts[s] == Done(t) ::
                  && r == (if t in w.cards && w.cards[t].list in cfg.authorized then Success(t) else Failure)
                  && Leaves(w', w.cards, w.receipts, if free then w.anchors[conv := t] else w.anchors))
            && (list in cfg.authorized && !(s in w.receipts && w.receipts[s].Done?) ==>
                  if free || confirm then
                    && r.Success? && r.task !in w.used
                    && Leaves(w', w.cards[r.task := Card(list, None, s)], w.receipts[s := Done(r.task)], w.anchors[conv := r.task])
                  else r == Failure)
            && (r == Failure && !(s in w.receipts && w.receipts[s].Done?) ==> Leaves(w', w.cards, w.receipts, w.anchors))
  {
  }

  /**
   * A calm bindWorkbenchTask of `task`: a conversation that has it already is answered from the
   * board; one that has another needs the switch confirmed; and the task has to be on an
   * authorized list.
   */
  lemma BindWorkbenchTaskDecides(cfg: Profile, w: World, w': World, conv: ConvId, key: Key, task: TaskId, confirm: bool, r: Result)
    requires CalmBindWorkbenchTask(cfg, w, w', Call(conv, key, BindTo(task), confirm), r)
    ensures var s := Slot(ConvScope(conv), key);
            var bound := conv in w.anchors && w.anchors[conv] == task;
            var usable := task in w.cards && w.cards[task].list in cfg.authorized;
            && (bound ==> r == (if usable then Success(task) else Failure) && Leaves(w', w.cards, w.receipts, w.anchors))
            && (!bound && conv in w.anchors && !confirm ==> r == Failure && Leaves(w', w.cards, w.receipts, w.anchors))
            && (!bound && (conv !in w.anchors || confirm) && !(s in w.receipts && w.receipts[s].Done?) ==>
                  if usable then r == Success(task) && Leaves(w', w.cards, w.receipts[s := Done(task)], w.anchors[conv := task])
                  else r == Failure && Leaves(w', w.cards, w.receipts, w.anchors))
            && (forall t | !bound && (conv !in w.anchors || confirm) && s in w.receipts && w.receipts[s] == Done(t) ::
                  && r == (if t in w.cards && w.cards[t].list in cfg.authorized then Success(t) else Failure)
                  && Leaves(w', w.cards, w.receipts, if conv in w.anchors then w.anchors else w.anchors[conv := t]))
  {
  }

  /** A conversation that was bound to the very task while the call waited for the lock is no
      conflict. */
  lemma BoundMeanwhileIsNoConflict(cfg: Profile, w: World, w': World, conv: ConvId, key: Key, task: TaskId, confirm: bool, r: Result)
    requires CalmBindLocked(cfg, w, w', Call(conv, key, BindTo(task), confirm), r)
    requires conv in w.anchors && w.anchors[conv] == task && !AlreadyDone(w, Slot(ConvScope(conv), key))
    ensures task in w.cards && w.cards[task].list in cfg.authorized ==> r == Success(task)
  {
  }

  // ---------------------------------------------------------------- where a card stands, in every run

  /** The card that a call is about to finalize or to anchor is the one it was asked for. */
  ghost predicate AsAsked(cfg: Profile, w: World, id: CallId) {
    id in w.calls && (w.calls[id].stage.Finalize? || w.calls[id].stage.Anchor?) && w.calls[id].stage.task in w.cards ==>
      var card := w.cards[w.calls[id].stage.task];
      match w.calls[id].call.op
      case CreateOnList(list) => card.list == list
      case CreateByPhone(phone) => card.list == cfg.primary && card.phone == Some(phone)
      case BindTo(_) => true
  }

  /** Cards that are on the board stay as they are or go; ids are not issued twice. */
  lemma CardsStay(cfg: Profile, w: World, e: Event, t: TaskId)
    requires Inv(cfg, w) && Enabled(cfg, w, e) && t in w.used
    ensures t in Next(cfg, w, e).used
    ensures t in Next(cfg, w, e).cards ==> t in w.cards && Next(cfg, w, e).cards[t] == w.cards[t]
  {
    if e.Act? {
      CardsStayActs(cfg, w, e.id, e.outcome, t);
    }
  }

  lemma CardsStayActs(cfg: Profile, w: World, id: CallId, o: Outcome, t: TaskId)
    requires Inv(cfg, w) && Enabled(cfg, w, Act(id, o)) && t in w.used
    ensures t in Next(cfg, w, Act(id, o)).used
    ensures t in Next(cfg, w, Act(id, o)).cards ==> t in w.cards && Next(cfg, w, Act(id, o)).cards[t] == w.cards[t]
  {
    var st := w.calls[id].stage;
    if !Touches(st, o) {
      QuietStages(cfg, w, id, o);
    } else {
      TouchingStays(cfg, w, id, o, t);
    }
  }

  lemma TouchingStays(cfg: Profile, w: World, id: CallId, o: Outcome, t: TaskId)
    requires Enabled(cfg, w, Act(id, o)) && Touches(w.calls[id].stage, o) && t in w.used
    ensures t in Next(cfg, w, Act(id, o)).used
    ensures t in Next(cfg, w, Act(id, o)).cards ==> t in w.cards && Next(cfg, w, Act(id, o)).cards[t] == w.cards[t]
  {
    if w.calls[id].stage.Post? {
      PostStays(cfg, w, id, o, t);
    } else if w.calls[id].stage.Clear? {
      ClearsAreQuiet(cfg, w, id, o);
      ClearStays(cfg, w, id, o);
    } else {
      DeleteStays(cfg, w, id, o, t);
    }
  }

  lemma PostStays(cfg: Profile, w: World, id: CallId, o: Outcome, t: TaskId)
    requires Enabled(cfg, w, Act(id, o)) && w.calls[id].stage.Post? && o.Created? && t in w.used
    ensures t in Next(cfg, w, Act(id, o)).used
    ensures t in Next(cfg, w, Act(id, o)).cards ==> t in w.cards && Next(cfg, w, Act(id, o)).cards[t] == w.cards[t]
  {
  }

  lemma ClearStays(cfg: Profile, w: World, id: CallId, o: Outcome)
    requires Enabled(cfg, w, Act(id, o)) && w.calls[id].stage.Clear?
    ensures Next(cfg, w, Act(id, o)).used == w.used
  {
  }

  lemma DeleteStays(cfg: Profile, w: World, id: CallId, o: Outcome, t: TaskId)
    requires Enabled(cfg, w, Act(id, o)) && (w.calls[id].stage.Discard? || w.calls[id].stage.Undo?) && t in w.used
    ensures t in Next(cfg, w, Act(id, o)).used
    ensures t in Next(cfg, w, Act(id, o)).cards ==> t in w.cards && Next(cfg, w, Act(id, o)).cards[t] == w.cards[t]
  {
  }

  /** Between beginning its receipt and having its card kept, undone or given up. */
  predicate Underway(st: Stage) {
    st.Post? || st.Reread? || st.Discard? || st.Finalize? || st.Anchor? || st.Undo? || Flying(st)
  }

  /** A step of a call moves no other call; and it gets underway only by beginning. */
  ghost predicate OnlyMoves(w: World, w': World, id: CallId, c: Call, st: Stage) {
    && id in w'.calls && w'.calls == w.calls[id := w'.calls[id]] && w'.calls[id].call == c
    && (w'.calls[id].stage.Finalize? ==> st.Reread?) && (w'.calls[id].stage.Anchor? ==> st.Finalize?)
    && (Underway(w'.calls[id].stage) ==> Underway(st) || st.Begin?)
  }

  lemma ReadsMove(cfg: Profile, w: World, id: CallId, c: Call, st: Stage, o: Outcome)
    requires CanAct(cfg, w, c, st, o) && (st.Waiting? || st.Reanchor?)
    ensures OnlyMoves(w, Acted(cfg, w, id, c, st, o), id, c, st)
  {
  }

  lemma FindsMove(cfg: Profile, w: World, id: CallId, c: Call, o: Outcome)
    requires CanAct(cfg, w, c, ReadReceipt, o)
    ensures OnlyMoves(w, Acted(cfg, w, id, c, ReadReceipt, o), id, c, ReadReceipt)
  {
    var s := SlotOf(c);
    var st' := if o.Throws? then Release(None, Failure)
               else if s in w.receipts && w.receipts[s].Done? then Reanchor(w.receipts[s].task)
               else CheckAnchor(s in w.receipts);
    assert Acted(cfg, w, id, c, ReadReceipt, o) == Goto(w, id, c, st');
    GotoMoves(w, id, c, ReadReceipt, st');
  }

  lemma GotoMoves(w: World, id: CallId, c: Call, st: Stage, st': Stage)
    requires !Underway(st')
    ensures OnlyMoves(w, Goto(w, id, c, st'), id, c, st)
  {
  }

  lemma CheckMoves(cfg: Profile, w: World, id: CallId, c: Call, st: Stage, o: Outcome)
    requires CanAct(cfg, w, c, st, o) && st.CheckAnchor?
    ensures OnlyMoves(w, Acted(cfg, w, id, c, st, o), id, c, st)
  {
  }

  lemma AuthorizeMoves(cfg: Profile, w: World, id: CallId, c: Call, o: Outcome)
    requires CanAct(cfg, w, c, Stage.Authorize, o)
    ensures OnlyMoves(w, Acted(cfg, w, id, c, Stage.Authorize, o), id, c, Stage.Authorize)
  {
  }

  lemma ScanMoves(cfg: Profile, w: World, id: CallId, c: Call, st: Stage, o: Outcome)
    requires CanAct(cfg, w, c, st, o) && st.Scan?
    ensures OnlyMoves(w, Acted(cfg, w, id, c, st, o), id, c, st)
  {
    if o.Ok? {
      assert Acted(cfg, w, id, c, st, o) == Matched(w, id, c, st.pend, st.found);
      MatchedMoves(w, id, c, st.pend, st.found);
    }
  }

  lemma MatchedMoves(w: World, id: CallId, c: Call, pend: bool, found: set<TaskId>)
    ensures OnlyMoves(w, Matched(w, id, c, pend, found), id, c, Scan(pend, {}, found))
  {
  }

  lemma PostsMove(cfg: Profile, w: World, id: CallId, c: Call, st: Stage, o: Outcome)
    requires CanAct(cfg, w, c, st, o) && (st.Begin? || st.Post? || st.Reread? || st.Discard? || st.Undo? || st.Clear?)
    ensures OnlyMoves(w, Acted(cfg, w, id, c, st, o), id, c, st)
  {
  }

  lemma AnchorsMove(cfg: Profile, w: World, id: CallId, c: Call, st: Stage, o: Outcome)
    requires CanAct(cfg, w, c, st, o) && (st.WriteAnchor? || st.Anchor? || st.BindAnchor? || st.Release?)
    ensures OnlyMoves(w, Acted(cfg, w, id, c, st, o), id, c, st)
  {
  }

  lemma WritesMove(cfg: Profile, w: World, id: CallId, c: Call, st: Stage, o: Outcome)
    requires CanAct(cfg, w, c, st, o) && (st.Adopt? || st.Finalize? || st.BindFinalize? || st.Confirm?)
    ensures OnlyMoves(w, Acted(cfg, w, id, c, st, o), id, c, st)
  {
  }

  lemma ActsMove(cfg: Profile, w: World, id: CallId, o: Outcome)
    requires Enabled(cfg, w, Act(id, o))
    ensures OnlyMoves(w, Next(cfg, w, Act(id, o)), id, w.calls[id].call, w.calls[id].stage)
  {
    var c, st := w.calls[id].call, w.calls[id].stage;
    if st.Waiting? || st.Reanchor? {
      ReadsMove(cfg, w, id, c, st, o);
    } else if st.ReadReceipt? {
      FindsMove(cfg, w, id, c, o);
    } else if st.CheckAnchor? {
      CheckMoves(cfg, w, id, c, st, o);
    } else if st.Authorize? {
      AuthorizeMoves(cfg, w, id, c, o);
    } else if st.Scan? {
      ScanMoves(cfg, w, id, c, st, o);
    } else if st.Begin? || st.Post? || st.Reread? || st.Discard? || st.Undo? || st.Clear? {
      PostsMove(cfg, w, id, c, st, o);
    } else if st.WriteAnchor? || st.Anchor? || st.BindAnchor? || st.Release? {
      AnchorsMove(cfg, w, id, c, st, o);
    } else {
      WritesMove(cfg, w, id, c, st, o);
    }
  }

  /** The call that the event is a step of. */
  predicate IsOf(e: Event, id: CallId) {
    match e
    case Act(i, _) => i == id
    case Crash(i, _) => i == id
    case Land(i, _) => i == id
    case LeaseEnds(i) => i == id
    case _ => false
  }

  lemma OtherCallsStay(cfg: Profile, w: World, e: Event, id: CallId)
    requires Enabled(cfg, w, e) && id in w.calls && !IsOf(e, id)
    ensures id in Next(cfg, w, e).calls && Next(cfg, w, e).calls[id] == w.calls[id]
  {
    if e.Act? {
      ActsMove(cfg, w, e.id, e.outcome);
    }
  }

  lemma AsAskedStep(cfg: Profile, w: World, e: Event, id: CallId)
    requires Inv(cfg, w) && Enabled(cfg, w, e) && AsAsked(cfg, w, id)
    ensures AsAsked(cfg, Next(cfg, w, e), id)
  {
    if id in w.calls && !IsOf(e, id) {
      AsAskedByOthers(cfg, w, e, id);
    } else if e.Act? {
      if e.id == id {
        AsAskedActs(cfg, w, id, e.outcome);
      } else {
        ActsMove(cfg, w, e.id, e.outcome);
      }
    } else {
      AsAskedElse(cfg, w, e, id);
    }
  }

  lemma AsAskedElse(cfg: Profile, w: World, e: Event, id: CallId)
    requires Enabled(cfg, w, e) && !e.Act? && (id in w.calls ==> IsOf(e, id))
    ensures id in Next(cfg, w, e).calls ==> !Next(cfg, w, e).calls[id].stage.Finalize? && !Next(cfg, w, e).calls[id].stage.Anchor?
  {
  }

  lemma AsAskedByOthers(cfg: Profile, w: World, e: Event, id: CallId)
    requires Inv(cfg, w) && Enabled(cfg, w, e) && AsAsked(cfg, w, id) && id in w.calls && !IsOf(e, id)
    ensures AsAsked(cfg, Next(cfg, w, e), id)
  {
    OtherCallsStay(cfg, w, e, id);
    if w.calls[id].stage.Finalize? || w.calls[id].stage.Anchor? {
      AtStage(cfg, w, id);
      CardsStay(cfg, w, e, w.calls[id].stage.task);
    }
  }

  lemma AsAskedActs(cfg: Profile, w: World, id: CallId, o: Outcome)
    requires Inv(cfg, w) && Enabled(cfg, w, Act(id, o)) && AsAsked(cfg, w, id)
    ensures AsAsked(cfg, Next(cfg, w, Act(id, o)), id)
  {
    ActsMove(cfg, w, id, o);
    if w.calls[id].stage.Reread? || w.calls[id].stage.Finalize? {
      AtStage(cfg, w, id);
      AsAskedNext(cfg, w, id, o);
    }
  }

  lemma AsAskedNext(cfg: Profile, w: World, id: CallId, o: Outcome)
    requires Enabled(cfg, w, Act(id, o)) && AsAsked(cfg, w, id) && (w.calls[id].stage.Reread? || w.calls[id].stage.Finalize?)
    requires w.calls[id].stage.Reread? ==> !w.calls[id].call.op.BindTo?
    ensures AsAsked(cfg, Next(cfg, w, Act(id, o)), id)
  {
  }

  /** Over every run: what a call finalizes or anchors stands on the list it was asked for, with
      the phone it was asked for. */
  lemma {:induction false} TasksAreAsAsked(cfg: Profile, w: World, es: seq<Event>, id: CallId)
    requires ValidProfile(cfg) && Inv(cfg, w) && Valid(cfg, w, es) && AsAsked(cfg, w, id)
    ensures AsAsked(cfg, After(cfg, w, es), id)
    decreases |es|
  {
    if es != [] {
      AsAskedStep(cfg, w, es[0], id);
      StepKeeps(cfg, w, es[0]);
      TasksAreAsAsked(cfg, Next(cfg, w, es[0]), es[1..], id);
    }
  }

  // ---------------------------------------------------------------- what a failure leaves

  /** While the call holds card `t`, or has returned it, the card is accounted for. */
  ghost predicate Accounted(w: World, id: CallId, t: TaskId) {
    id in w.calls && t in w.cards ==>
      || w.calls[id].stage in {Reread(t), Discard(t), Finalize(t), Anchor(t), Undo(t), Confirm(t)}
      || ResultOf(w.calls[id].stage) == Success(t)
  }

  /** The call dies, or cannot read its card back, delete it, or assemble it for the reply. */
  predicate Trouble(w: World, e: Event, id: CallId) {
    || (e.Crash? && e.id == id)
    || (e.Act? && e.id == id && e.outcome.Throws? && id in w.calls
        && (w.calls[id].stage.Reread? || w.calls[id].stage.Discard? || w.calls[id].stage.Undo? || w.calls[id].stage.Confirm?))
  }

  lemma AccountedEarly(cfg: Profile, w: World, id: CallId, o: Outcome, t: TaskId)
    requires Enabled(cfg, w, Act(id, o)) && t in w.cards && !Trouble(w, Act(id, o), id)
    requires w.calls[id].stage in {Reread(t), Discard(t), Finalize(t)}
    ensures Accounted(Next(cfg, w, Act(id, o)), id, t)
  {
  }

  lemma AccountedLate(cfg: Profile, w: World, id: CallId, o: Outcome, t: TaskId)
    requires Enabled(cfg, w, Act(id, o)) && t in w.cards && !Trouble(w, Act(id, o), id)
    requires w.calls[id].stage in {Anchor(t), Undo(t), Confirm(t)} || ResultOf(w.calls[id].stage) == Success(t)
    ensures Accounted(Next(cfg, w, Act(id, o)), id, t)
  {
  }

  lemma AccountedStep(cfg: Profile, w: World, e: Event, id: CallId, t: TaskId)
    requires Inv(cfg, w) && Enabled(cfg, w, e) && id in w.calls && t in w.used && Accounted(w, id, t) && !Trouble(w, e, id)
    ensures id in Next(cfg, w, e).calls && t in Next(cfg, w, e).used && Accounted(Next(cfg, w, e), id, t)
  {
    CardsStay(cfg, w, e, t);
    if !IsOf(e, id) {
      OtherCallsStay(cfg, w, e, id);
    } else if e.Act? {
      ActsMove(cfg, w, id, e.outcome);
      if t in w.cards {
        if w.calls[id].stage in {Reread(t), Discard(t), Finalize(t)} {
          AccountedEarly(cfg, w, id, e.outcome, t);
        } else {
          AccountedLate(cfg, w, id, e.outcome, t);
        }
      }
    }
  }

  ghost predicate NoTrouble(cfg: Profile, w: World, es: seq<Event>, id: CallId)
    decreases |es|
  {
    es != [] ==> !Trouble(w, es[0], id) && NoTrouble(cfg, Next(cfg, w, es[0]), es[1..], id)
  }

  lemma {:induction false} StaysAccounted(cfg: Profile, w: World, es: seq<Event>, id: CallId, t: TaskId)
    requires ValidProfile(cfg) && Inv(cfg, w) && Valid(cfg, w, es) && NoTrouble(cfg, w, es, id)
    requires id in w.calls && t in w.used && Accounted(w, id, t)
    ensures id in After(cfg, w, es).calls && Accounted(After(cfg, w, es), id, t)
    decreases |es|
  {
    if es != [] {
      AccountedStep(cfg, w, es[0], id, t);
      StepKeeps(cfg, w, es[0]);
      StaysAccounted(cfg, Next(cfg, w, es[0]), es[1..], id, t);
    }
  }

  /** A call that has posted `t` and ends in a failure has taken it off the board again, whatever
      of its receipt or its anchor failed, unless it died or could not read, delete or show it. */
  lemma FailureLeavesNoCard(cfg: Profile, w: World, es: seq<Event>, id: CallId, t: TaskId)
    requires ValidProfile(cfg) && Inv(cfg, w) && Valid(cfg, w, es) && NoTrouble(cfg, w, es, id)
    requires id in w.calls && w.calls[id].stage == Reread(t)
    ensures var v := After(cfg, w, es);
            id in v.calls && (v.calls[id].stage.Release? || v.calls[id].stage.Finished?) && ResultOf(v.calls[id].stage) == Failure ==> t !in v.cards
  {
    AtStage(cfg, w, id);
    StaysAccounted(cfg, w, es, id, t);
  }

  // ---------------------------------------------------------------- what a receipt remembers

  ghost predicate SomeUnderway(w: World, s: Slot) {
    exists i | i in w.calls :: SlotOf(w.calls[i].call) == s && Underway(w.calls[i].stage)
  }

  /** Whoever posts, or has a task on the board, has a receipt. */
  ghost predicate Remembered(w: World, s: Slot) {
    SomeUnderway(w, s) || PostedBy(w, s) != {} ==> s in w.receipts
  }

  /** The receipt of the slot expires, or a compensation clears it. */
  predicate Forgets(w: World, e: Event, s: Slot) {
    || e == ReceiptEnds(s)
    || (e.Act? && e.id in w.calls && SlotOf(w.calls[e.id].call) == s && w.calls[e.id].stage.Clear? && !e.outcome.Throws?)
  }

  ghost predicate NeverForgets(cfg: Profile, w: World, es: seq<Event>, s: Slot)
    decreases |es|
  {
    es != [] ==> !Forgets(w, es[0], s) && NeverForgets(cfg, Next(cfg, w, es[0]), es[1..], s)
  }

  lemma ReadsKeepReceipts(cfg: Profile, w: World, id: CallId, c: Call, st: Stage, o: Outcome)
    requires CanAct(cfg, w, c, st, o) && (st.Waiting? || st.ReadReceipt? || st.Reanchor?)
    ensures Acted(cfg, w, id, c, st, o).receipts == w.receipts
  {
  }

  lemma ChecksKeepReceipts(cfg: Profile, w: World, id: CallId, c: Call, st: Stage, o: Outcome)
    requires CanAct(cfg, w, c, st, o) && (st.CheckAnchor? || st.Authorize?)
    ensures Acted(cfg, w, id, c, st, o).receipts == w.receipts
  {
  }

  lemma ScanKeepsReceipts(cfg: Profile, w: World, id: CallId, c: Call, st: Stage, o: Outcome)
    requires CanAct(cfg, w, c, st, o) && st.Scan?
    ensures Acted(cfg, w, id, c, st, o).receipts == w.receipts
  {
    if o.Ok? {
      assert Acted(cfg, w, id, c, st, o) == Matched(w, id, c, st.pend, st.found);
      assert Matched(w, id, c, st.pend, st.found).receipts == w.receipts;
    }
  }

  lemma BeginsRemember(cfg: Profile, w: World, id: CallId, c: Call, o: Outcome)
    requires CanAct(cfg, w, c, Begin, o)
    ensures w.receipts.Keys <= Acted(cfg, w, id, c, Begin, o).receipts.Keys
    ensures Underway(Acted(cfg, w, id, c, Begin, o).calls[id].stage) ==> SlotOf(c) in Acted(cfg, w, id, c, Begin, o).receipts
  {
  }

  lemma PostsKeepReceipts(cfg: Profile, w: World, id: CallId, c: Call, st: Stage, o: Outcome)
    requires CanAct(cfg, w, c, st, o) && (st.Post? || st.Reread? || st.Discard? || st.Undo? || (st.Clear? && o.Throws?))
    ensures Acted(cfg, w, id, c, st, o).receipts == w.receipts
  {
  }

  lemma ClearForgetsOne(cfg: Profile, w: World, id: CallId, c: Call, o: Outcome, s: Slot)
    requires CanAct(cfg, w, c, Clear, o) && s != SlotOf(c) && s in w.receipts
    ensures s in Acted(cfg, w, id, c, Clear, o).receipts
  {
  }

  lemma WritesKeepReceipts(cfg: Profile, w: World, id: CallId, c: Call, st: Stage, o: Outcome)
    requires CanAct(cfg, w, c, st, o)
    requires st.WriteAnchor? || st.Adopt? || st.Finalize? || st.Anchor? || st.BindAnchor? || st.BindFinalize? || st.Confirm? || st.Release?
    ensures w.receipts.Keys <= Acted(cfg, w, id, c, st, o).receipts.Keys
  {
  }

  lemma ActsKeepReceipts(cfg: Profile, w: World, id: CallId, o: Outcome, s: Slot)
    requires Enabled(cfg, w, Act(id, o)) && !Forgets(w, Act(id, o), s) && s in w.receipts
    ensures s in Next(cfg, w, Act(id, o)).receipts
  {
    var c, st := w.calls[id].call, w.calls[id].stage;
    if st.Waiting? || st.ReadReceipt? || st.Reanchor? {
      ReadsKeepReceipts(cfg, w, id, c, st, o);
    } else if st.CheckAnchor? || st.Authorize? {
      ChecksKeepReceipts(cfg, w, id, c, st, o);
    } else if st.Scan? {
      ScanKeepsReceipts(cfg, w, id, c, st, o);
    } else if st.Begin? {
      BeginsRemember(cfg, w, id, c, o);
    } else if st.Clear? && !o.Throws? {
      ClearForgetsOne(cfg, w, id, c, o, s);
    } else if st.Post? || st.Reread? || st.Discard? || st.Undo? || st.Clear? {
      PostsKeepReceipts(cfg, w, id, c, st, o);
    } else {
      WritesKeepReceipts(cfg, w, id, c, st, o);
    }
  }

  lemma ReceiptStays(cfg: Profile, w: World, e: Event, s: Slot)
    requires Enabled(cfg, w, e) && !Forgets(w, e, s) && s in w.receipts
    ensures s in Next(cfg, w, e).receipts
  {
    if e.Act? {
      ActsKeepReceipts(cfg, w, e.id, e.outcome, s);
    }
  }

  /** Who is underway after a step was so before, or has just begun its receipt. */
  lemma UnderwayStep(cfg: Profile, w: World, e: Event, s: Slot, i: CallId)
    requires Enabled(cfg, w, e) && i in Next(cfg, w, e).calls && Underway(Next(cfg, w, e).calls[i].stage)
    requires SlotOf(Next(cfg, w, e).calls[i].call) == s
    ensures SomeUnderway(w, s) || s in Next(cfg, w, e).receipts
  {
    if i in w.calls && !IsOf(e, i) {
      OtherCallsStay(cfg, w, e, i);
    } else if e.Act? {
      if i in w.calls {
        ActsMove(cfg, w, i, e.outcome);
        if w.calls[i].stage.Begin? {
          BeginsRemember(cfg, w, i, w.calls[i].call, e.outcome);
        }
      } else {
        ActsMove(cfg, w, e.id, e.outcome);
      }
    }
  }

  lemma RememberedStep(cfg: Profile, w: World, e: Event, s: Slot)
    requires Inv(cfg, w) && Enabled(cfg, w, e) && Remembered(w, s) && !Forgets(w, e, s)
    ensures Remembered(Next(cfg, w, e), s)
  {
    var w' := Next(cfg, w, e);
    if s in w.receipts {
      ReceiptStays(cfg, w, e, s);
    } else {
      forall t ensures t in PostedBy(w', s) ==> t in PostedBy(w, s) || SomeUnderway(w, s) {
        HoldsStep(cfg, w, e, s, t);
      }
      if i :| i in w'.calls && SlotOf(w'.calls[i].call) == s && Underway(w'.calls[i].stage) {
        UnderwayStep(cfg, w, e, s, i);
      }
    }
  }

  lemma {:induction false} RunRemembers(cfg: Profile, w: World, es: seq<Event>, s: Slot)
    requires ValidProfile(cfg) && Inv(cfg, w) && Valid(cfg, w, es) && Remembered(w, s) && NeverForgets(cfg, w, es, s)
    ensures Remembered(After(cfg, w, es), s)
    decreases |es|
  {
    if es != [] {
      RememberedStep(cfg, w, es[0], s);
      StepKeeps(cfg, w, es[0]);
      RunRemembers(cfg, Next(cfg, w, es[0]), es[1..], s);
    }
  }

  /** As long as it neither expires nor is cleared, the receipt of a key remembers every task
      that a call of the key left on the board, also one that landed late. */
  lemma ReceiptRemembers(cfg: Profile, w: World, es: seq<Event>, s: Slot, t: TaskId)
    requires ValidProfile(cfg) && Initial(w) && Valid(cfg, w, es) && PostedBy(w, s) == {}
    requires LeftBehind(cfg, w, es, s, t) && NeverForgets(cfg, w, es, s)
    ensures s in After(cfg, w, es).receipts
  {
    ReachableIsSound(cfg, w, []);
    RunRemembers(cfg, w, es, s);
    PostedExactly(cfg, w, es, s, t);
  }

  /** Hence a calm retry of createTask takes over the card an earlier attempt of its key left,
      and posts no other. */
  lemma RetryTakesOver(cfg: Profile, v: World, es: seq<Event>, w': World, conv: ConvId, key: Key, phone: Phone, confirm: bool, r: Result, t: TaskId)
    requires ValidProfile(cfg) && Initial(v) && Valid(cfg, v, es) && |Live(cfg, v, phone)| <= 1
    requires var s := Slot(PhoneScope(phone), key);
             && PostedBy(v, s) == {} && LeftBehind(cfg, v, es, s, t) && NeverForgets(cfg, v, es, s)
             && !AlreadyDone(After(cfg, v, es), s)
    requires var w := After(cfg, v, es);
             && OnBoard(cfg, w, t, phone) && conv !in w.anchors
             && CalmCreateTask(cfg, w, w', Call(conv, key, CreateByPhone(phone), confirm), r)
    ensures var w := After(cfg, v, es);
            r == Success(t) && Leaves(w', w.cards, w.receipts[Slot(PhoneScope(phone), key) := Done(t)], w.anchors[conv := t])
  {
    var w, s := After(cfg, v, es), Slot(PhoneScope(phone), key);
    ReceiptRemembers(cfg, v, es, s, t);
    OneCardPerPhone(cfg, v, es, phone);
    OneOrNone(Live(cfg, w, phone));
    assert t in Live(cfg, w, phone);
    forall u | OnBoard(cfg, w, u, phone) ensures u == t {
      assert u in Live(cfg, w, phone);
    }
    CreateTaskTakesOver(cfg, w, w', conv, key, phone, confirm, r, t);
  }

  lemma UpToTimedOut(cfg: Profile, c: Call, v: World, card: Card) returns (w: World)
    requires c.op.CreateByPhone? && Follows(cfg, EmptyWorld, v) && Lone(v, c, Begin)
    requires v.cards == map[] && v.used == {} && v.receipts == map[]
    requires card == Card(cfg.primary, Some(c.op.phone), SlotOf(c))
    ensures Follows(cfg, EmptyWorld, w) && Lone(w, c, Release(Some(card), Failure))
    ensures w.cards == map[] && w.used == {} && w.receipts == map[SlotOf(c) := Pending]
  {
    OneMoreStep(cfg, EmptyWorld, v, Act(0, Ok));
    w := Next(cfg, v, Act(0, Ok));
    assert w.calls[0].stage == Post && w.receipts == map[SlotOf(c) := Pending];
    var o := TimedOut(card.list, card.phone);
    OneMoreStep(cfg, EmptyWorld, w, Act(0, o));
    w := Next(cfg, w, Act(0, o));
  }

  lemma UpToLanded(cfg: Profile, c: Call, v: World, card: Card) returns (w: World)
    requires Follows(cfg, EmptyWorld, v) && Lone(v, c, Release(Some(card), Failure)) && v.cards == map[] && v.used == {}
    ensures Follows(cfg, EmptyWorld, w) && w.locks == map[] && w.anchors == map[]
    ensures w.cards == map[1 := card] && w.receipts == v.receipts
  {
    OneMoreStep(cfg, EmptyWorld, v, Land(0, 1));
    w := Next(cfg, v, Land(0, 1));
    assert w.calls[0].stage == Release(None, Failure);
    OneMoreStep(cfg, EmptyWorld, w, Act(0, Ok));
    w := Next(cfg, w, Act(0, Ok));
  }

  /** Such a state is real: the POST times out, the card lands, the call gives its lock back; and
      the calm retry of the same key returns that card. */
  lemma LateCardIsTakenOver(cfg: Profile, conv: ConvId, key: Key, phone: Phone) returns (w: World)
    requires ValidProfile(cfg)
    ensures Follows(cfg, EmptyWorld, w) && w.locks == map[] && w.cards.Keys == {1} && OnBoard(cfg, w, 1, phone)
    ensures forall w', r | CalmCreateTask(cfg, w, w', Call(conv, key, CreateByPhone(phone), false), r) :: r == Success(1) && w'.cards == w.cards
  {
    var c := Call(conv, key, CreateByPhone(phone), false);
    w := UpToScan(cfg, c);
    w := UpToBegin(cfg, c, w, cfg.indexed);
    var card := Card(cfg.primary, Some(phone), SlotOf(c));
    w := UpToTimedOut(cfg, c, w, card);
    w := UpToLanded(cfg, c, w, card);
    forall w', r | CalmCreateTask(cfg, w, w', c, r) ensures r == Success(1) && w'.cards == w.cards {
      CreateTaskTakesOver(cfg, w, w', conv, key, phone, false, r, 1);
    }
  }
}
