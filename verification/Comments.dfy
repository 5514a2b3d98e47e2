/**
 * Incorporating a chat message as a comment of a task, at most once per message and task.
 *
 * There is no compensation here: a call lists the comments of the task, looks for the
 * marker of the message, and posts only when it does not see one. Only the first 40
 * comments are looked at.
 */
module Comments {
  import opened Options

  type MsgId = string
  type TaskId = string
  type Key = string
  type CommentId = nat
  type CallId = nat

  const LIMIT := 40

  /** `marks` are the messages whose marker the text contains; `origin` is bookkeeping of
      the model: the message an incorporation posted it for. */
  datatype Comment = Comment(id: CommentId, marks: set<MsgId>, origin: Option<MsgId>)

  /** The task is the anchor the conversation had when the call came in. */
  datatype Call = Call(msg: MsgId, key: Key, task: TaskId)

  datatype Receipt = Pending | Done(id: CommentId)

  datatype Slot = Slot(msg: MsgId, key: Key)

  datatype Result = Success(id: CommentId) | Failure

  datatype Stage =
    | Waiting                                        // acquireLock
    | ReadReceipt                                    // getReceipt
    | Prepare                                        // authorize the task, load the message
    | Begin                                          // beginReceipt
    | List                                           // comentarios, look for the marker
    | Adopt(id: CommentId)                           // finalizeReceipt with the comment found
    | Post
    | Reread(id: CommentId)                          // comentarios, look for the new comment
    | Finalize(id: CommentId)                        // finalizeReceipt
    | Release(flight: bool, result: Result)          // releaseLock
    | Stopped(flight: bool, result: Result)
    | Finished(result: Result)

  datatype Process = Process(call: Call, stage: Stage)

  datatype World = World(
    threads: map<TaskId, seq<Comment>>,
    used: set<CommentId>,
    receipts: map<Slot, Receipt>,
    locks: map<MsgId, CallId>,
    calls: map<CallId, Process>
  )

  datatype Outcome =
    | Ok
    | Throws
    | LostReply
    | Created(id: CommentId, marks: set<MsgId>, at: nat)
    | TimedOut

  datatype Event =
    | Arrive(id: CallId, call: Call)
    | Act(id: CallId, outcome: Outcome)
    | Crash(id: CallId, flight: bool)
    | Land(id: CallId, comment: CommentId, marks: set<MsgId>, at: nat)
    | LeaseEnds(id: CallId)
    | ReceiptEnds(slot: Slot)
    | Written(task: TaskId, text: Comment, at: nat)       // somebody else comments
    | Erased(task: TaskId, at: nat)                       // somebody deletes a comment

  function Thread(w: World, t: TaskId): seq<Comment> {
    if t in w.threads then w.threads[t] else []
  }

  function Visible(s: seq<Comment>): seq<Comment> {
    s[..if |s| < LIMIT then |s| else LIMIT]
  }

  function FindMark(s: seq<Comment>, m: MsgId): Option<CommentId> {
    if s == [] then None else if m in s[0].marks then Some(s[0].id) else FindMark(s[1..], m)
  }

  predicate Lists(s: seq<Comment>, id: CommentId) {
    exists i | 0 <= i < |s| :: s[i].id == id
  }

  function InsertAt(s: seq<Comment>, c: Comment, at: nat): seq<Comment>
    requires at <= |s|
  {
    s[..at] + [c] + s[at..]
  }

  predicate Holding(st: Stage) { !st.Waiting? && !st.Finished? }

  predicate Flying(st: Stage) { (st.Release? || st.Stopped?) && st.flight }

  // ---------------------------------------------------------------- steps

  predicate CanAct(w: World, c: Call, st: Stage, o: Outcome) {
    match st
    case Waiting => o.Throws? || (o.Ok? && c.msg !in w.locks)
    case Post =>
      || o.Throws? || o.TimedOut?
      || (o.Created? && o.id !in w.used && c.msg in o.marks && o.at <= |Thread(w, c.task)|)
    case ReadReceipt => o.Ok? || o.Throws?
    case Prepare => o.Ok? || o.Throws?
    case List => o.Ok? || o.Throws?
    case Reread(_) => o.Ok? || o.Throws?
    case Release(_, _) => o.Ok? || o.Throws?
    case Stopped(_, _) => false
    case Finished(_) => false
    case _ => o.Ok? || o.Throws? || o.LostReply?
  }

  predicate Enabled(w: World, e: Event) {
    match e
    case Arrive(id, _) => id !in w.calls
    case Act(id, o) => id in w.calls && CanAct(w, w.calls[id].call, w.calls[id].stage, o)
    case Crash(id, f) =>
      && id in w.calls && Holding(w.calls[id].stage) && !w.calls[id].stage.Stopped?
      && (if w.calls[id].stage.Release? then f == w.calls[id].stage.flight else f ==> w.calls[id].stage.Post?)
    case Land(id, n, marks, at) =>
      && id in w.calls && Flying(w.calls[id].stage) && n !in w.used
      && w.calls[id].call.msg in marks && at <= |Thread(w, w.calls[id].call.task)|
    case LeaseEnds(id) => id in w.calls && w.calls[id].stage.Stopped?
    case ReceiptEnds(s) => true
    case Written(t, c, at) => c.id !in w.used && c.origin == None && at <= |Thread(w, t)|
    case Erased(t, at) => at < |Thread(w, t)|
  }

  function Goto(w: World, id: CallId, c: Call, st: Stage): World {
    w.(calls := w.calls[id := Process(c, st)])
  }

  function Fail(w: World, id: CallId, c: Call): World {
    Goto(w, id, c, Release(false, Failure))
  }

  function Finalized(w: World, s: Slot, id: CommentId): World {
    w.(receipts := w.receipts[s := Done(id)])
  }

  function Begun(w: World, s: Slot): World {
    if s in w.receipts then w else w.(receipts := w.receipts[s := Pending])
  }

  function Placed(w: World, t: TaskId, c: Comment, at: nat): World
    requires at <= |Thread(w, t)|
  {
    w.(threads := w.threads[t := InsertAt(Thread(w, t), c, at)], used := w.used + {c.id})
  }

  function Unlocked(w: World, id: CallId, c: Call, r: Result): World {
    Goto(w.(locks := w.locks - {c.msg}), id, c, Finished(r))
  }

  function Acted(w: World, id: CallId, c: Call, st: Stage, o: Outcome): World
    requires CanAct(w, c, st, o)
  {
    var s := Slot(c.msg, c.key);
    match st
    case Waiting =>
      if o.Ok? then Goto(w.(locks := w.locks[c.msg := id]), id, c, ReadReceipt)
      else Goto(w, id, c, Finished(Failure))
    case ReadReceipt =>
      if o.Throws? then Fail(w, id, c)
      else if s in w.receipts && w.receipts[s].Done? then Goto(w, id, c, Release(false, Success(w.receipts[s].id)))
      else Goto(w, id, c, Prepare)
    case Prepare => if o.Throws? then Fail(w, id, c) else Goto(w, id, c, Begin)
    case Begin =>
      if o.Ok? then Goto(Begun(w, s), id, c, List)
      else if o.Throws? then Fail(w, id, c)
      else Fail(Begun(w, s), id, c)
    case List =>
      if o.Throws? then Fail(w, id, c)
      else
        var found := FindMark(Visible(Thread(w, c.task)), c.msg);
        Goto(w, id, c, if found.Some? then Adopt(found.value) else Post)
    case Adopt(n) =>
      if o.Ok? then Goto(Finalized(w, s, n), id, c, Release(false, Success(n)))
      else if o.Throws? then Fail(w, id, c)
      else Fail(Finalized(w, s, n), id, c)
    case Post =>
      if o.Created? then Goto(Placed(w, c.task, Comment(o.id, o.marks, Some(c.msg)), o.at), id, c, Reread(o.id))
      else Goto(w, id, c, Release(o.TimedOut?, Failure))
    case Reread(n) =>
      if o.Ok? && Lists(Visible(Thread(w, c.task)), n) then Goto(w, id, c, Finalize(n)) else Fail(w, id, c)
    case Finalize(n) =>
      if o.Ok? then Goto(Finalized(w, s, n), id, c, Release(false, Success(n)))
      else if o.Throws? then Fail(w, id, c)
      else Fail(Finalized(w, s, n), id, c)
    case Release(f, r) =>
      if o.Ok? then Unlocked(w, id, c, r) else Goto(w, id, c, Stopped(f, r))
    case Stopped(_, _) => w
    case Finished(_) => w
  }

  function Next(w: World, e: Event): World
    requires Enabled(w, e)
  {
    match e
    case Arrive(id, c) => Goto(w, id, c, Waiting)
    case Act(id, o) => Acted(w, id, w.calls[id].call, w.calls[id].stage, o)
    case Crash(id, f) => Goto(w, id, w.calls[id].call, Stopped(f, Failure))
    case Land(id, n, marks, at) =>
      var c := w.calls[id].call;
      Goto(Placed(w, c.task, Comment(n, marks, Some(c.msg)), at), id, c, w.calls[id].stage.(flight := false))
    case LeaseEnds(id) => Unlocked(w, id, w.calls[id].call, w.calls[id].stage.result)
    case ReceiptEnds(s) => w.(receipts := w.receipts - {s})
    case Written(t, c, at) => Placed(w, t, c, at)
    case Erased(t, at) =>
      var s := Thread(w, t);
      w.(threads := w.threads[t := s[..at] + s[at + 1..]])
  }

  predicate Valid(w: World, es: seq<Event>)
    decreases |es|
  {
    es == [] || (Enabled(w, es[0]) && Valid(Next(w, es[0]), es[1..]))
  }

  function After(w: World, es: seq<Event>): World
    requires Valid(w, es)
    decreases |es|
  {
    if es == [] then w else After(Next(w, es[0]), es[1..])
  }

  // ---------------------------------------------------------------- the invariant

  ghost predicate NoneFrom(s: seq<Comment>, m: MsgId) {
    forall i | 0 <= i < |s| :: s[i].origin != Some(m)
  }

  ghost predicate AtMostOneFrom(s: seq<Comment>, m: MsgId) {
    forall i, j | 0 <= i < |s| && 0 <= j < |s| && s[i].origin == Some(m) && s[j].origin == Some(m) :: i == j
  }

  ghost predicate Marked(s: seq<Comment>) {
    forall i | 0 <= i < |s| && s[i].origin.Some? :: s[i].origin.value in s[i].marks
  }

  ghost predicate LocksOk(w: World) {
    && (forall m | m in w.locks ::
          && w.locks[m] in w.calls && Holding(w.calls[w.locks[m]].stage) && w.calls[w.locks[m]].call.msg == m)
    && (forall i | i in w.calls && Holding(w.calls[i].stage) ::
          w.calls[i].call.msg in w.locks && w.locks[w.calls[i].call.msg] == i)
  }

  /** A call about to post, or with a post in flight, has no comment of its message there. */
  ghost predicate PostersOk(w: World) {
    forall i | i in w.calls && (w.calls[i].stage.Post? || Flying(w.calls[i].stage)) ::
      NoneFrom(Thread(w, w.calls[i].call.task), w.calls[i].call.msg)
  }

  ghost predicate ThreadOk(s: seq<Comment>) {
    Marked(s) && forall m :: AtMostOneFrom(s, m)
  }

  ghost predicate Inv(w: World) {
    LocksOk(w) && PostersOk(w) && forall t :: ThreadOk(Thread(w, t))
  }

  /** Every comment incorporated for `m` is among those a listing returns. */
  ghost predicate InReach(s: seq<Comment>, m: MsgId) {
    forall i | 0 <= i < |s| && s[i].origin == Some(m) :: i < LIMIT
  }

  /** The listing of this step, if it is one, can see what it looks for. */
  ghost predicate Sees(w: World, e: Event) {
    e.Act? && e.id in w.calls && w.calls[e.id].stage.List? ==>
      InReach(Thread(w, w.calls[e.id].call.task), w.calls[e.id].call.msg)
  }

  lemma {:induction false} FindMarkIsFirst(s: seq<Comment>, m: MsgId)
    ensures FindMark(s, m).None? <==> forall i | 0 <= i < |s| :: m !in s[i].marks
    ensures FindMark(s, m).Some? ==> exists i | 0 <= i < |s| ::
              s[i].id == FindMark(s, m).value && m in s[i].marks && forall j | 0 <= j < i :: m !in s[j].marks
  {
    if s != [] && m !in s[0].marks {
      FindMarkIsFirst(s[1..], m);
      if FindMark(s[1..], m).Some? {
        var i :| 0 <= i < |s[1..]| && s[1..][i].id == FindMark(s[1..], m).value && m in s[1..][i].marks
                 && forall j | 0 <= j < i :: m !in s[1..][j].marks;
        assert s[i + 1].id == FindMark(s, m).value;
        forall j | 0 <= j < i + 1 ensures m !in s[j].marks {
          if j > 0 { assert s[j] == s[1..][j - 1]; }
        }
      }
    } else if s != [] {
      assert s[0].id == FindMark(s, m).value;
    }
  }

  lemma InsertKeepsThread(s: seq<Comment>, c: Comment, at: nat)
    requires ThreadOk(s) && at <= |s|
    requires c.origin.Some? ==> c.origin.value in c.marks && NoneFrom(s, c.origin.value)
    ensures ThreadOk(InsertAt(s, c, at))
    ensures forall m | c.origin != Some(m) && NoneFrom(s, m) :: NoneFrom(InsertAt(s, c, at), m)
  {
    var r := InsertAt(s, c, at);
    assert forall i | 0 <= i < |r| :: r[i] == if i < at then s[i] else if i == at then c else s[i - 1];
    forall m ensures AtMostOneFrom(r, m) {
      assert AtMostOneFrom(s, m);
    }
  }

  lemma EraseKeepsThread(s: seq<Comment>, at: nat)
    requires ThreadOk(s) && at < |s|
    ensures ThreadOk(s[..at] + s[at + 1..])
    ensures forall m | NoneFrom(s, m) :: NoneFrom(s[..at] + s[at + 1..], m)
  {
    var r := s[..at] + s[at + 1..];
    assert forall i | 0 <= i < |r| :: r[i] == if i < at then s[i] else s[i + 1];
    forall m ensures AtMostOneFrom(r, m) {
      assert AtMostOneFrom(s, m);
    }
  }

  /** A comment posted by its message's lock holder. */
  lemma PlacedKeeps(w: World, id: CallId, c: Comment, at: nat, st: Stage)
    requires Inv(w) && id in w.calls && (w.calls[id].stage.Post? || Flying(w.calls[id].stage))
    requires at <= |Thread(w, w.calls[id].call.task)|
    requires c.origin == Some(w.calls[id].call.msg) && w.calls[id].call.msg in c.marks
    requires Holding(st) && !st.Post? && !Flying(st)
    ensures Inv(Goto(Placed(w, w.calls[id].call.task, c, at), id, w.calls[id].call, st))
  {
    var k := w.calls[id].call;
    var w' := Goto(Placed(w, k.task, c, at), id, k, st);
    InsertKeepsThread(Thread(w, k.task), c, at);
    forall i | i in w'.calls && (w'.calls[i].stage.Post? || Flying(w'.calls[i].stage))
      ensures NoneFrom(Thread(w', w'.calls[i].call.task), w'.calls[i].call.msg)
    {
      assert w.calls[i].call.msg != k.msg;
    }
    forall t ensures ThreadOk(Thread(w', t)) {
      assert ThreadOk(Thread(w, t));
    }
  }

  lemma ListKeeps(w: World, id: CallId, o: Outcome)
    requires Inv(w) && Enabled(w, Act(id, o)) && w.calls[id].stage.List?
    requires Sees(w, Act(id, o))
    ensures Inv(Next(w, Act(id, o)))
  {
    var c, w' := w.calls[id].call, Next(w, Act(id, o));
    var s := Thread(w, c.task);
    FindMarkIsFirst(Visible(s), c.msg);
    assert w'.threads == w.threads;
    assert ThreadOk(s);
    assert forall i | 0 <= i < |Visible(s)| :: Visible(s)[i] == s[i];
    assert w'.calls[id].stage.Post? ==> NoneFrom(s, c.msg);
    assert forall t :: Thread(w', t) == Thread(w, t);
  }

  /** A step that leaves the threads alone and starts no post. */
  lemma QuietKeeps(w: World, w': World, id: CallId, st: Stage)
    requires Inv(w) && id in w.calls && Holding(w.calls[id].stage) && w'.threads == w.threads
    requires w'.calls == w.calls[id := Process(w.calls[id].call, st)]
    requires if Holding(st) then w'.locks == w.locks else w'.locks == w.locks - {w.calls[id].call.msg}
    requires st.Post? ==> false
    requires Flying(st) ==> w.calls[id].stage.Post? || Flying(w.calls[id].stage)
    ensures Inv(w')
  {
    assert forall t :: Thread(w', t) == Thread(w, t);
  }

  /** Every stage but List and an answered Post is quiet. */
  lemma QuietStage(w: World, id: CallId, c: Call, st: Stage, o: Outcome)
    requires CanAct(w, c, st, o) && Holding(st) && !st.List? && !(st.Post? && o.Created?)
    ensures var w' := Acted(w, id, c, st, o);
            && w'.threads == w.threads && id in w'.calls
            && w'.calls == w.calls[id := Process(c, w'.calls[id].stage)]
            && (if Holding(w'.calls[id].stage) then w'.locks == w.locks else w'.locks == w.locks - {c.msg})
            && !w'.calls[id].stage.Post?
            && (Flying(w'.calls[id].stage) ==> st.Post? || Flying(st))
  {
  }

  lemma ActKeeps(w: World, id: CallId, o: Outcome)
    requires Inv(w) && Enabled(w, Act(id, o)) && Sees(w, Act(id, o))
    ensures Inv(Next(w, Act(id, o)))
  {
    var c, st, w' := w.calls[id].call, w.calls[id].stage, Next(w, Act(id, o));
    if st.List? {
      ListKeeps(w, id, o);
    } else if st.Post? && o.Created? {
      PlacedKeeps(w, id, Comment(o.id, o.marks, Some(c.msg)), o.at, Reread(o.id));
    } else if st.Waiting? {
      assert forall t :: Thread(w', t) == Thread(w, t);
    } else {
      QuietStage(w, id, c, st, o);
      QuietKeeps(w, w', id, w'.calls[id].stage);
    }
  }

  /** People touch one thread; it stays in order and gains no incorporated comment. */
  lemma OtherThreadsKeep(w: World, w': World, t: TaskId)
    requires Inv(w) && w'.calls == w.calls && w'.locks == w.locks
    requires forall u | u != t :: Thread(w', u) == Thread(w, u)
    requires ThreadOk(Thread(w', t)) && forall m | NoneFrom(Thread(w, t), m) :: NoneFrom(Thread(w', t), m)
    ensures Inv(w')
  {
  }

  lemma StepKeeps(w: World, e: Event)
    requires Inv(w) && Enabled(w, e) && Sees(w, e)
    ensures Inv(Next(w, e))
  {
    var w' := Next(w, e);
    match e
    case Act(id, o) => ActKeeps(w, id, o);
    case Crash(id, f) => QuietKeeps(w, w', id, Stopped(f, Failure));
    case LeaseEnds(id) => QuietKeeps(w, w', id, Finished(w.calls[id].stage.result));
    case Land(id, n, marks, at) =>
      var c := w.calls[id].call;
      PlacedKeeps(w, id, Comment(n, marks, Some(c.msg)), at, w.calls[id].stage.(flight := false));
    case Written(t, c, at) =>
      assert ThreadOk(Thread(w, t));
      InsertKeepsThread(Thread(w, t), c, at);
      OtherThreadsKeep(w, w', t);
    case Erased(t, at) =>
      assert ThreadOk(Thread(w, t));
      EraseKeepsThread(Thread(w, t), at);
      OtherThreadsKeep(w, w', t);
    case Arrive(_, _) => assert forall t :: Thread(w', t) == Thread(w, t);
    case ReceiptEnds(_) => assert forall t :: Thread(w', t) == Thread(w, t);
  }

  // ---------------------------------------------------------------- every run

  ghost predicate Foreign(s: seq<Comment>) {
    forall i | 0 <= i < |s| :: s[i].origin == None
  }

  /** Threads as people left them; nothing incorporated yet. */
  ghost predicate Initial(w: World) {
    && w.receipts == map[] && w.locks == map[] && w.calls == map[]
    && forall t :: Foreign(Thread(w, t))
  }

  /** No listing of the run misses a comment that incorporation made. */
  ghost predicate AllSeen(w: World, es: seq<Event>)
    requires Valid(w, es)
    decreases |es|
  {
    es != [] ==> Sees(w, es[0]) && AllSeen(Next(w, es[0]), es[1..])
  }

  lemma {:induction false} RunKeeps(w: World, es: seq<Event>)
    requires Inv(w) && Valid(w, es) && AllSeen(w, es)
    ensures Inv(After(w, es))
    decreases |es|
  {
    if es != [] {
      StepKeeps(w, es[0]);
      RunKeeps(Next(w, es[0]), es[1..]);
    }
  }

  /** At most one comment per message and task, over all keys, retries, lost replies and
      crashes, and whatever tasks the conversation is anchored to meanwhile. */
  lemma OncePerMessageAndTask(w: World, es: seq<Event>, t: TaskId, m: MsgId)
    requires Initial(w) && Valid(w, es) && AllSeen(w, es)
    ensures AtMostOneFrom(Thread(After(w, es), t), m)
  {
    assert forall t :: Foreign(Thread(w, t));
    RunKeeps(w, es);
    assert ThreadOk(Thread(After(w, es), t));
  }

  /** Short threads hide nothing: 40 comments are enough room. */
  ghost predicate StaysShort(w: World, es: seq<Event>)
    requires Valid(w, es)
    decreases |es|
  {
    (forall t :: |Thread(w, t)| <= 40) && (es != [] ==> StaysShort(Next(w, es[0]), es[1..]))
  }

  lemma {:induction false} ShortThreadsAreSeen(w: World, es: seq<Event>)
    requires Valid(w, es) && StaysShort(w, es)
    ensures AllSeen(w, es)
    decreases |es|
  {
    if es != [] {
      ShortThreadsAreSeen(Next(w, es[0]), es[1..]);
    }
  }

  /** The exact gap: a listing lets a call post beside an incorporated comment if and only
      if that comment is there and no marker of the message is among the first 40. */
  lemma PostsAgainExactlyWhenHidden(w: World, id: CallId)
    requires Inv(w) && id in w.calls && w.calls[id].stage.List?
    ensures var c := w.calls[id].call;
            var s := Thread(w, c.task);
            Next(w, Act(id, Ok)).calls[id].stage.Post? && !NoneFrom(s, c.msg)
            <==> (exists i | 40 <= i < |s| :: s[i].origin == Some(c.msg))
                 && (forall i | 0 <= i < |s| && i < 40 :: c.msg !in s[i].marks)
  {
    var c := w.calls[id].call;
    var s := Thread(w, c.task);
    FindMarkIsFirst(Visible(s), c.msg);
    assert ThreadOk(s);
    assert forall i | 0 <= i < |Visible(s)| :: Visible(s)[i] == s[i];
  }
}
