/**
 * The protocol that creates a ClickUp card at most once per phone number.
 *
 * Many calls of createTask, createWorkbenchTask and bindWorkbenchTask run at the same
 * time against one remote board, one receipt store, one lock store and one table of
 * conversation anchors. Every awaited effect of a call is one step here: it succeeds,
 * fails without effect, or takes effect and loses its reply. A call can also die
 * between any two effects.
 */
module CardCreation {
  import opened Options

  type Phone = string    // canonical form
  type Key = string      // idempotency key
  type ConvId = string
  type TaskId = nat       // opaque to the service
  type ListId = string
  type CallId = nat

  /** The configured lists: `indexed` are scanned for cards, `primary` receives new ones,
      `authorized` may hold tasks of the workbench. */
  datatype Profile = Profile(indexed: set<ListId>, primary: ListId, authorized: set<ListId>)

  ghost predicate ValidProfile(cfg: Profile) {
    cfg.primary in cfg.indexed && cfg.indexed <= cfg.authorized
  }

  datatype Operation =
    | CreateByPhone(phone: Phone)     // createTask
    | CreateOnList(list: ListId)      // createWorkbenchTask
    | BindTo(task: TaskId)            // bindWorkbenchTask

  datatype Call = Call(conv: ConvId, key: Key, op: Operation, confirmSwitch: bool)

  /** What the lock and the receipts are keyed by. */
  datatype Scope = PhoneScope(phone: Phone) | ConvScope(conv: ConvId)

  datatype Slot = Slot(scope: Scope, key: Key)

  function ScopeOf(c: Call): Scope {
    if c.op.CreateByPhone? then PhoneScope(c.op.phone) else ConvScope(c.conv)
  }

  function SlotOf(c: Call): Slot { Slot(ScopeOf(c), c.key) }

  /** The phone a call writes on the card it posts. */
  function PhoneOf(c: Call): Option<Phone> {
    if c.op.CreateByPhone? then Some(c.op.phone) else None
  }

  function ListOf(cfg: Profile, c: Call): ListId {
    if c.op.CreateOnList? then c.op.list else cfg.primary
  }

  /** A task on the remote board. `origin` is bookkeeping of the model: the slot whose
      call posted it. The service never sees it. */
  datatype Card = Card(list: ListId, phone: Option<Phone>, origin: Slot)

  datatype Receipt = Pending | Done(task: TaskId)

  datatype Result = Success(task: TaskId) | Failure

  /** Where a call stands: the effect it awaits next. */
  datatype Stage =
    | Waiting                                                      // acquireLock
    | ReadReceipt                                                  // getReceipt
    | Reanchor(task: TaskId)                                       // reload, anchor if unanchored
    | WriteAnchor(task: TaskId)
    | CheckAnchor(pend: bool)                                      // reload, refuse a second anchor
    | Authorize                                                    // lists the workbench may use
    | Scan(pend: bool, left: set<ListId>, found: set<TaskId>)      // forced index rebuild
    | Adopt(task: TaskId)                                          // finalize with the card found
    | Begin                                                        // beginReceipt
    | Post                                                         // POST the card
    | Reread(task: TaskId)                                         // confirm by reading it back
    | Discard(task: TaskId)                                        // delete a card that came out wrong
    | Finalize(task: TaskId)                                       // finalizeReceipt
    | Anchor(task: TaskId)                                         // anchor the conversation
    | Undo(task: TaskId)                                           // compensating delete
    | Clear                                                        // clearReceipt
    | BindAnchor(task: TaskId)
    | BindFinalize(task: TaskId)
    | Confirm(task: TaskId)                                        // assemble the card of the reply
    | Release(flight: Option<Card>, result: Result)                // finally: releaseLock
    | Stopped(flight: Option<Card>, result: Result)                // dead, or could not release
    | Finished(result: Result)

  datatype Process = Process(call: Call, stage: Stage)

  /**
   * The shared state. `used` are all task ids ever issued. The last three fields are
   * history: `acked` the results computed for receipts that still live, `dangling` the
   * done receipts whose card a compensating delete removed, `faulted` the slots where a
   * compensation went wrong half-way.
   */
  datatype World = World(
    cards: map<TaskId, Card>,
    used: set<TaskId>,
    receipts: map<Slot, Receipt>,
    locks: map<Scope, CallId>,
    anchors: map<ConvId, TaskId>,
    calls: map<CallId, Process>,
    acked: map<Slot, TaskId>,
    dangling: set<Slot>,
    faulted: set<Slot>
  )

  datatype Outcome =
    | Ok
    | Throws                                              // no effect
    | LostReply                                           // took effect, the caller sees an error
    | Page(list: ListId)                                  // one list of the rebuild was read
    | Created(task: TaskId, list: ListId, phone: Option<Phone>)
    | TimedOut(list: ListId, phone: Option<Phone>)        // may still land later

  datatype Event =
    | Arrive(id: CallId, call: Call)
    | Act(id: CallId, outcome: Outcome)
    | Crash(id: CallId, flight: Option<Card>)
    | Land(id: CallId, task: TaskId)                      // a timed-out POST reaches the board
    | LeaseEnds(id: CallId)
    | ReceiptEnds(slot: Slot)
    | Elsewhere(conv: ConvId, anchor: Option<TaskId>)     // another endpoint moves an anchor

  const EmptyWorld := World(map[], {}, map[], map[], map[], map[], map[], {}, {})

  /** The cards a forced rebuild of the index finds for a phone. */
  function Live(cfg: Profile, w: World, p: Phone): set<TaskId> {
    set t | t in w.cards && w.cards[t].phone == Some(p) && w.cards[t].list in cfg.indexed
  }

  /** The live tasks posted under one slot. */
  function PostedBy(w: World, s: Slot): set<TaskId> {
    set t | t in w.cards && w.cards[t].origin == s
  }

  predicate Holding(st: Stage) { !st.Waiting? && !st.Finished? }

  predicate Flying(st: Stage) { (st.Release? || st.Stopped?) && st.flight.Some? }

  /** A board keeps the phone it was sent, or loses it. */
  predicate Plausible(c: Call, card: Card) {
    card.phone in {None, PhoneOf(c)} && card.origin == SlotOf(c)
  }

  /** The card that the reply is assembled from passes the checks of cardCompleto, or of
      cardPorListas for the workbench. */
  predicate Shown(cfg: Profile, w: World, c: Call, t: TaskId) {
    && t in w.cards
    && (if c.op.CreateByPhone?
        then w.cards[t].list in cfg.indexed && w.cards[t].phone == PhoneOf(c)
        else w.cards[t].list in cfg.authorized)
  }

  predicate AsOrdered(cfg: Profile, w: World, c: Call, t: TaskId)
    requires t in w.cards
  {
    && w.cards[t].list == ListOf(cfg, c)
    && (c.op.CreateByPhone? ==> w.cards[t].phone == PhoneOf(c))
  }

  // ---------------------------------------------------------------- steps

  predicate Enabled(cfg: Profile, w: World, e: Event) {
    match e
    case Arrive(id, _) => id !in w.calls
    case Act(id, o) => id in w.calls && CanAct(cfg, w, w.calls[id].call, w.calls[id].stage, o)
    case Crash(id, f) =>
      && id in w.calls && Holding(w.calls[id].stage) && !w.calls[id].stage.Stopped?
      && (if w.calls[id].stage.Post? then f.Some? ==> Plausible(w.calls[id].call, f.value)
          else if w.calls[id].stage.Release? then f == w.calls[id].stage.flight
          else f == None)
    case Land(id, t) => id in w.calls && t !in w.used && Flying(w.calls[id].stage)
    case LeaseEnds(id) => id in w.calls && w.calls[id].stage.Stopped?
    case ReceiptEnds(s) => s in w.receipts
    case Elsewhere(_, _) => true
  }

  predicate CanAct(cfg: Profile, w: World, c: Call, st: Stage, o: Outcome) {
    match st
    case Waiting => o.Throws? || (o.Ok? && ScopeOf(c) !in w.locks)
    case ReadReceipt => o.Ok? || o.Throws?
    case Reanchor(_) => o.Ok? || o.Throws?
    case CheckAnchor(_) => o.Ok? || o.Throws?
    case Authorize => o.Ok? || o.Throws?
    case Scan(_, left, _) =>
      o.Throws? || (o.Page? && o.list in left) || (o.Ok? && left == {})
    case Post =>
      || o.Throws?
      || (o.Created? && o.task !in w.used && Plausible(c, Card(o.list, o.phone, SlotOf(c))))
      || (o.TimedOut? && Plausible(c, Card(o.list, o.phone, SlotOf(c))))
    case Reread(t) => o.Throws? || (o.Ok? && t in w.cards)
    case Confirm(t) => o.Throws? || (o.Ok? && Shown(cfg, w, c, t))
    case Release(_, _) => o.Ok? || o.Throws?
    case Stopped(_, _) => false
    case Finished(_) => false
    case _ => o.Ok? || o.Throws? || o.LostReply?
  }

  function Goto(w: World, id: CallId, c: Call, st: Stage): World {
    w.(calls := w.calls[id := Process(c, st)])
  }

  function Fail(w: World, id: CallId, c: Call): World {
    Goto(w, id, c, Release(None, Failure))
  }

  function Finalized(w: World, s: Slot, t: TaskId): World {
    w.(receipts := w.receipts[s := Done(t)], dangling := w.dangling - {s})
  }

  function Cleared(w: World, s: Slot): World {
    w.(receipts := w.receipts - {s}, dangling := w.dangling - {s}, acked := w.acked - {s})
  }

  function Begun(w: World, s: Slot): World {
    if s in w.receipts then w else w.(receipts := w.receipts[s := Pending])
  }

  function Deleted(w: World, t: TaskId): World {
    w.(cards := w.cards - {t})
  }

  /** A compensating delete; the receipt it leaves behind may now name nothing. */
  function Undone(w: World, s: Slot, t: TaskId): World {
    Deleted(w, t).(dangling := if s in w.receipts && w.receipts[s] == Done(t) then w.dangling + {s} else w.dangling)
  }

  function Placed(w: World, t: TaskId, card: Card): World {
    w.(cards := w.cards[t := card], used := w.used + {t})
  }

  function Anchored(w: World, conv: ConvId, t: TaskId): World {
    w.(anchors := w.anchors[conv := t])
  }

  function Acknowledged(w: World, s: Slot, t: TaskId): World {
    if s in w.receipts then w.(acked := w.acked[s := t]) else w
  }

  function Faulted(w: World, s: Slot): World {
    w.(faulted := w.faulted + {s})
  }

  /** The stage after the anchor check lets the call through. */
  function AfterCheck(cfg: Profile, c: Call, pend: bool): Stage {
    if c.op.CreateByPhone? then Scan(pend, cfg.indexed, {}) else Authorize
  }

  predicate Refused(w: World, c: Call) {
    && c.conv in w.anchors && !c.confirmSwitch
    && !(c.op.BindTo? && w.anchors[c.conv] == c.op.task)
  }

  predicate Authorized(cfg: Profile, w: World, c: Call) {
    if c.op.CreateOnList? then c.op.list in cfg.authorized
    else c.op.BindTo? ==> c.op.task in w.cards && w.cards[c.op.task].list in cfg.authorized
  }

  predicate Unique(s: set<TaskId>) {
    exists t :: t in s && s == {t}
  }

  /** One card is adopted when an earlier attempt of this key may have posted it; any card
      blocks a new one otherwise. */
  function Matched(w: World, id: CallId, c: Call, pend: bool, found: set<TaskId>): World {
    if found == {} then Goto(w, id, c, Begin)
    else if pend && Unique(found) then
      var t :| t in found && found == {t};
      Goto(w, id, c, Adopt(t))
    else Fail(w, id, c)
  }

  function Next(cfg: Profile, w: World, e: Event): World {
    match e
    case Arrive(id, c) => Goto(w, id, c, Waiting)
    case Act(id, o) =>
      if id in w.calls then Acted(cfg, w, id, w.calls[id].call, w.calls[id].stage, o) else w
    case Crash(id, f) =>
      if id !in w.calls then w
      else
        var c, st := w.calls[id].call, w.calls[id].stage;
        var w1 := if st.Clear? then Faulted(w, SlotOf(c)) else w;
        Goto(w1, id, c, Stopped(f, Failure))
    case Land(id, t) =>
      if id in w.calls && Flying(w.calls[id].stage) then
        var c, st := w.calls[id].call, w.calls[id].stage;
        Goto(Placed(w, t, st.flight.value), id, c, st.(flight := None))
      else w
    case LeaseEnds(id) =>
      if id in w.calls && w.calls[id].stage.Stopped? then
        Unlocked(w, id, w.calls[id].call, w.calls[id].stage.result)
      else w
    case ReceiptEnds(s) => Cleared(w, s)
    case Elsewhere(conv, a) =>
      w.(anchors := if a.Some? then w.anchors[conv := a.value] else w.anchors - {conv})
  }

  function Unlocked(w: World, id: CallId, c: Call, r: Result): World {
    Goto(w.(locks := w.locks - {ScopeOf(c)}), id, c, Finished(r))
  }

  function Acted(cfg: Profile, w: World, id: CallId, c: Call, st: Stage, o: Outcome): World {
    var s := SlotOf(c);
    match st
    case Waiting =>
      if o.Ok? then Goto(w.(locks := w.locks[s.scope := id]), id, c, ReadReceipt)
      else Goto(w, id, c, Finished(Failure))
    case ReadReceipt =>
      if o.Throws? then Fail(w, id, c)
      else if s !in w.receipts then Goto(w, id, c, CheckAnchor(false))
      else if w.receipts[s].Pending? then Goto(w, id, c, CheckAnchor(true))
      else Goto(w, id, c, Reanchor(w.receipts[s].task))
    case Reanchor(t) =>
      if o.Throws? then Fail(w, id, c)
      else Goto(w, id, c, if c.conv in w.anchors then Confirm(t) else WriteAnchor(t))
    case WriteAnchor(t) =>
      if o.Ok? then Goto(Anchored(w, c.conv, t), id, c, Confirm(t))
      else if o.Throws? then Fail(w, id, c)
      else Fail(Anchored(w, c.conv, t), id, c)
    case CheckAnchor(pend) =>
      if o.Throws? || Refused(w, c) then Fail(w, id, c)
      else Goto(w, id, c, AfterCheck(cfg, c, pend))
    case Authorize =>
      if o.Throws? || !Authorized(cfg, w, c) then Fail(w, id, c) else Goto(w, id, c, Begin)
    case Scan(pend, left, found) =>
      if o.Throws? then Fail(w, id, c)
      else if o.Page? then
        var seen := set t | t in w.cards && w.cards[t].phone == PhoneOf(c) && w.cards[t].list == o.list;
        Goto(w, id, c, Scan(pend, left - {o.list}, found + seen))
      else Matched(w, id, c, pend, found)
    case Adopt(t) =>
      if o.Ok? then Goto(Finalized(w, s, t), id, c, Reanchor(t))
      else if o.Throws? then Fail(w, id, c)
      else Fail(Finalized(w, s, t), id, c)
    case Begin =>
      if o.Ok? then Goto(Begun(w, s), id, c, if c.op.BindTo? then BindAnchor(c.op.task) else Post)
      else if o.Throws? then Fail(w, id, c)
      else Fail(Begun(w, s), id, c)
    case Post =>
      if o.Created? then Goto(Placed(w, o.task, Card(o.list, o.phone, s)), id, c, Reread(o.task))
      else if o.TimedOut? then Goto(w, id, c, Release(Some(Card(o.list, o.phone, s)), Failure))
      else Fail(w, id, c)
    case Reread(t) =>
      if o.Throws? || t !in w.cards then Fail(w, id, c)
      else Goto(w, id, c, if AsOrdered(cfg, w, c, t) then Finalize(t) else Discard(t))
    case Discard(t) =>
      if o.Throws? then Fail(w, id, c) else Fail(Deleted(w, t), id, c)
    case Finalize(t) =>
      if o.Ok? then Goto(Finalized(w, s, t), id, c, Anchor(t))
      else if o.Throws? then Goto(w, id, c, Undo(t))
      else Goto(Finalized(w, s, t), id, c, Undo(t))
    case Anchor(t) =>
      if o.Ok? then Goto(Anchored(w, c.conv, t), id, c, Confirm(t))
      else if o.Throws? then Goto(w, id, c, Undo(t))
      else Goto(Anchored(w, c.conv, t), id, c, Undo(t))
    case Undo(t) =>
      if o.Ok? then Goto(Undone(w, s, t), id, c, Clear)
      else if o.Throws? then Fail(w, id, c)
      else Fail(Faulted(Undone(w, s, t), s), id, c)
    case Clear =>
      if o.Throws? then Fail(Faulted(w, s), id, c) else Fail(Cleared(w, s), id, c)
    case BindAnchor(t) =>
      if o.Ok? then Goto(Anchored(w, c.conv, t), id, c, BindFinalize(t))
      else if o.Throws? then Fail(w, id, c)
      else Fail(Anchored(w, c.conv, t), id, c)
    case BindFinalize(t) =>
      if o.Ok? then Goto(Finalized(w, s, t), id, c, Confirm(t))
      else if o.Throws? then Fail(w, id, c)
      else Fail(Finalized(w, s, t), id, c)
    case Confirm(t) =>
      if o.Ok? then Goto(Acknowledged(w, s, t), id, c, Release(None, Success(t)))
      else Fail(w, id, c)
    case Release(f, r) =>
      if o.Ok? then Unlocked(w, id, c, r) else Goto(w, id, c, Stopped(f, r))
    case Stopped(_, _) => w
    case Finished(_) => w
  }

  // ---------------------------------------------------------------- runs

  predicate Valid(cfg: Profile, w: World, es: seq<Event>)
    decreases |es|
  {
    es == [] || (Enabled(cfg, w, es[0]) && Valid(cfg, Next(cfg, w, es[0]), es[1..]))
  }

  function After(cfg: Profile, w: World, es: seq<Event>): World
    decreases |es|
  {
    if es == [] then w else After(cfg, Next(cfg, w, es[0]), es[1..])
  }
}
