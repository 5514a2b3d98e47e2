/**
 * incorporateWorkbench for comments, as straight-line code over the shared state: every
 * execution is a run of the protocol, and a calm one does what its contract says.
 */
module CommentService {
  import opened Options
  import opened Comments
  import opened Ids

  ghost predicate Follows(w: World, w': World) {
    exists es :: Valid(w, es) && After(w, es) == w'
  }

  lemma FollowsItself(w: World)
    ensures Follows(w, w)
  {
    assert Valid(w, []) && After(w, []) == w;
  }

  lemma {:induction false} RunExtends(w: World, es: seq<Event>, e: Event)
    requires Valid(w, es) && Enabled(After(w, es), e)
    ensures Valid(w, es + [e]) && After(w, es + [e]) == Next(After(w, es), e)
    decreases |es|
  {
    if es == [] {
      assert Valid(Next(w, e), []);
      assert es + [e] == [e];
    } else {
      RunExtends(Next(w, es[0]), es[1..], e);
      assert (es + [e])[1..] == es[1..] + [e];
    }
  }

  lemma FollowsStep(w: World, v: World, e: Event)
    requires Follows(w, v) && Enabled(v, e)
    ensures Follows(w, Next(v, e))
  {
    var es :| Valid(w, es) && After(w, es) == v;
    RunExtends(w, es, e);
  }

  /** `w'` has exactly one comment more than `w`, for `c`, at some place of its thread. */
  ghost predicate Adds(w: World, w': World, c: Call, n: CommentId) {
    exists marks: set<MsgId>, at: nat :: AddsAt(w, w', c, n, marks, at)
  }

  ghost predicate AddsAt(w: World, w': World, c: Call, n: CommentId, marks: set<MsgId>, at: nat) {
    && c.msg in marks && at <= |Thread(w, c.task)|
    && w'.threads == w.threads[c.task := InsertAt(Thread(w, c.task), Comment(n, marks, Some(c.msg)), at)]
  }

  lemma AddsSomewhere(w: World, w': World, c: Call, n: CommentId, marks: set<MsgId>, at: nat)
    requires AddsAt(w, w', c, n, marks, at)
    ensures Adds(w, w', c, n)
  {
  }

  /** A new comment, and a receipt for it if the listing that confirms it shows it. */
  ghost predicate AddsAndConfirms(w: World, w': World, c: Call, r: Result) {
    exists n | n !in w.used :: AddsAndConfirmsAs(w, w', c, r, n)
  }

  ghost predicate AddsAndConfirmsAs(w: World, w': World, c: Call, r: Result, n: CommentId) {
    && Adds(w, w', c, n)
    && r == (if Lists(Visible(Thread(w', c.task)), n) then Success(n) else Failure)
    && w'.receipts == if r.Success? then w.receipts[Slot(c.msg, c.key) := Done(n)] else w.receipts
  }

  ghost predicate FindsOrAdds(w: World, w': World, c: Call, r: Result) {
    var found := FindMark(Visible(Thread(w, c.task)), c.msg);
    if found.Some? then
      && r == Success(found.value) && w'.threads == w.threads
      && w'.receipts == w.receipts[Slot(c.msg, c.key) := Done(found.value)]
    else
      AddsAndConfirms(w, w', c, r)
  }

  /** What an incorporation does when nothing fails and nobody interferes. */
  ghost predicate CalmIncorporate(w: World, w': World, c: Call, r: Result) {
    var s := Slot(c.msg, c.key);
    if s in w.receipts && w.receipts[s].Done? then
      r == Success(w.receipts[s].id) && w'.threads == w.threads && w'.receipts == w.receipts
    else
      FindsOrAdds(Begun(w, s), w', c, r)
  }

  /** A comment of the thread, among the 40 that a listing returns. */
  predicate ShownAt(w: World, t: TaskId, i: nat) {
    t in w.threads && i < |w.threads[t]| && i < 40
  }

  /** An incorporation without a done receipt, by value: the first of the 40 listed comments that
      carries the marker is taken over, and its receipt done. */
  lemma MarkedIsTakenOver(w: World, w': World, c: Call, r: Result, i: nat)
    requires CalmIncorporate(w, w', c, r) && !(Slot(c.msg, c.key) in w.receipts && w.receipts[Slot(c.msg, c.key)].Done?)
    requires ShownAt(w, c.task, i) && c.msg in w.threads[c.task][i].marks
    requires forall j | 0 <= j < i :: c.msg !in w.threads[c.task][j].marks
    ensures r == Success(w.threads[c.task][i].id) && w'.threads == w.threads && w'.receipts == w.receipts[Slot(c.msg, c.key) := Done(r.id)]
  {
    var s := Thread(w, c.task);
    FindMarkIsFirst(Visible(s), c.msg);
    assert forall j | 0 <= j < |Visible(s)| :: Visible(s)[j] == s[j];
    var at :| 0 <= at < |Visible(s)| && Visible(s)[at].id == FindMark(Visible(s), c.msg).value && c.msg in Visible(s)[at].marks
              && forall j | 0 <= j < at :: c.msg !in Visible(s)[j].marks;
    assert at == i;
  }

  /** A new comment `n` of the message stands in thread `t`, at some place, and all else is as
      it was. */
  ghost predicate OneMore(w: World, w': World, t: TaskId, m: MsgId, n: CommentId) {
    && n !in w.used && t in w'.threads && w'.threads == w.threads[t := w'.threads[t]]
    && exists at: nat :: PlacedAt(w, w', t, m, n, at)
  }

  ghost predicate PlacedAt(w: World, w': World, t: TaskId, m: MsgId, n: CommentId, at: nat) {
    t in w'.threads && OneMoreAt(if t in w.threads then w.threads[t] else [], w'.threads[t], m, n, at)
  }

  ghost predicate OneMoreAt(s: seq<Comment>, s': seq<Comment>, m: MsgId, n: CommentId, at: nat) {
    at <= |s| && at < |s'| && s' == s[..at] + [s'[at]] + s[at..] && s'[at].id == n && s'[at].origin == Some(m) && m in s'[at].marks
  }

  lemma InsertedIsOneMore(s: seq<Comment>, m: MsgId, n: CommentId, marks: set<MsgId>, at: nat)
    requires at <= |s| && m in marks
    ensures OneMoreAt(s, InsertAt(s, Comment(n, marks, Some(m)), at), m, n, at)
  {
  }

  lemma AddedIsOneMore(w: World, w': World, c: Call, n: CommentId)
    requires Adds(w, w', c, n) && n !in w.used
    ensures OneMore(w, w', c.task, c.msg, n)
  {
    var marks: set<MsgId>, at: nat :| AddsAt(w, w', c, n, marks, at);
    InsertedIsOneMore(Thread(w, c.task), c.msg, n, marks, at);
    assert PlacedAt(w, w', c.task, c.msg, n, at);
  }

  /** With none of the 40 marked, one comment of the message is added to that thread and to no
      other, for which the receipt is done if it is among the 40, and else left pending. */
  lemma UnmarkedIsPosted(w: World, w': World, c: Call, r: Result) returns (n: CommentId)
    requires CalmIncorporate(w, w', c, r) && !(Slot(c.msg, c.key) in w.receipts && w.receipts[Slot(c.msg, c.key)].Done?)
    requires forall i: nat | ShownAt(w, c.task, i) :: c.msg !in w.threads[c.task][i].marks
    ensures OneMore(w, w', c.task, c.msg, n)
    ensures r == if exists i: nat | ShownAt(w', c.task, i) :: w'.threads[c.task][i].id == n then Success(n) else Failure
    ensures w'.receipts == w.receipts[Slot(c.msg, c.key) := if r.Success? then Done(n) else Pending]
  {
    n := UnmarkedAdds(w, w', c, r);
    BegunAdds(w, w', c, n);
    ListedExactly(w', c.task, n);
  }

  lemma UnmarkedAdds(w: World, w': World, c: Call, r: Result) returns (n: CommentId)
    requires CalmIncorporate(w, w', c, r) && !(Slot(c.msg, c.key) in w.receipts && w.receipts[Slot(c.msg, c.key)].Done?)
    requires forall i: nat | ShownAt(w, c.task, i) :: c.msg !in w.threads[c.task][i].marks
    ensures n !in w.used && Adds(Begun(w, Slot(c.msg, c.key)), w', c, n)
    ensures r == if Lists(Visible(Thread(w', c.task)), n) then Success(n) else Failure
    ensures w'.receipts == w.receipts[Slot(c.msg, c.key) := if r.Success? then Done(n) else Pending]
  {
    var v := Begun(w, Slot(c.msg, c.key));
    NoneIsMarked(w, c);
    assert Thread(v, c.task) == Thread(w, c.task);
    assert AddsAndConfirms(v, w', c, r);
    n :| n !in v.used && AddsAndConfirmsAs(v, w', c, r, n);
    assert w.receipts[Slot(c.msg, c.key) := Pending] == v.receipts;
  }

  lemma BegunAdds(w: World, w': World, c: Call, n: CommentId)
    requires n !in w.used && Adds(Begun(w, Slot(c.msg, c.key)), w', c, n)
    ensures OneMore(w, w', c.task, c.msg, n)
  {
    var v := Begun(w, Slot(c.msg, c.key));
    var marks: set<MsgId>, at: nat :| AddsAt(v, w', c, n, marks, at);
    assert AddsAt(w, w', c, n, marks, at);
    AddedIsOneMore(w, w', c, n);
  }

  lemma NoneIsMarked(w: World, c: Call)
    requires forall i: nat | ShownAt(w, c.task, i) :: c.msg !in w.threads[c.task][i].marks
    ensures FindMark(Visible(Thread(w, c.task)), c.msg).None?
  {
    var s := Thread(w, c.task);
    FindMarkIsFirst(Visible(s), c.msg);
    forall i | 0 <= i < |Visible(s)| ensures c.msg !in Visible(s)[i].marks {
      assert ShownAt(w, c.task, i);
    }
  }

  lemma ListedExactly(w: World, t: TaskId, n: CommentId)
    requires t in w.threads
    ensures Lists(Visible(Thread(w, t)), n) <==> exists i: nat | ShownAt(w, t, i) :: w.threads[t][i].id == n
  {
    var s := w.threads[t];
    if Lists(Visible(s), n) {
      var i :| 0 <= i < |Visible(s)| && Visible(s)[i].id == n;
      assert ShownAt(w, t, i) && s[i].id == n;
    }
    if i: nat :| ShownAt(w, t, i) && s[i].id == n {
      assert Visible(s)[i].id == n;
    }
  }

  class CommentService {
    var world: World

    constructor (world: World)
      ensures this.world == world
    {
      this.world := world;
    }

    predicate At(id: CallId, c: Call, st: Stage)
      reads this
    {
      id in world.calls && world.calls[id] == Process(c, st)
    }

    /** Any number of steps of other calls, of other people and of the clock. */
    method Interfere(id: CallId, calm: bool, ghost start: World)
      requires Follows(start, world) && id in world.calls
      modifies this
      ensures Follows(start, world) && id in world.calls && world.calls[id] == old(world).calls[id]
      ensures calm ==> world == old(world)
    {
      var steps: nat := *;
      while !calm && steps > 0
        invariant Follows(start, world) && id in world.calls && world.calls[id] == old(world).calls[id]
        invariant calm ==> world == old(world)
        decreases steps
      {
        var e: Event := *;
        if Enabled(world, e) && id in Next(world, e).calls && Next(world, e).calls[id] == world.calls[id] {
          Perform(e, start);
        }
        steps := steps - 1;
      }
    }

    method Perform(e: Event, ghost start: World)
      requires Follows(start, world) && Enabled(world, e)
      modifies this
      ensures Follows(start, world) && world == Next(old(world), e)
    {
      FollowsStep(start, world, e);
      world := Next(world, e);
    }

    /** One awaited effect: it succeeds if it can, unless this is not a calm run. */
    method Await(id: CallId, calm: bool, ghost start: World) returns (o: Outcome)
      requires Follows(start, world) && id in world.calls
      requires CanAct(world, world.calls[id].call, world.calls[id].stage, Throws)
      modifies this
      ensures Follows(start, world) && o in {Ok, Throws, LostReply}
      ensures CanAct(old(world), old(world).calls[id].call, old(world).calls[id].stage, o)
      ensures world == Acted(old(world), id, old(world).calls[id].call, old(world).calls[id].stage, o)
      ensures calm && CanAct(old(world), old(world).calls[id].call, old(world).calls[id].stage, Ok) ==> o.Ok?
    {
      var c, st := world.calls[id].call, world.calls[id].stage;
      o := if CanAct(world, c, st, Ok) then Ok else Throws;
      var fault: bool := *;
      if !calm && fault {
        var late: bool := *;
        o := if late && CanAct(world, c, st, LostReply) then LostReply else Throws;
      }
      Perform(Act(id, o), start);
    }

    /** Lists the comments of the task; posts only if none of them carries the marker. */
    method FindOrPost(id: CallId, c: Call, calm: bool, ghost start: World) returns (flight: bool, r: Result)
      requires Follows(start, world) && At(id, c, List)
      modifies this
      ensures Follows(start, world) && At(id, c, Release(flight, r))
      ensures calm ==> !flight && FindsOrAdds(old(world), world, c, r)
    {
      flight, r := false, Failure;
      Interfere(id, calm, start);
      var found := FindMark(Visible(Thread(world, c.task)), c.msg);
      var o := Await(id, calm, start);                    // comentarios
      if !o.Ok? { return; }
      if found.Some? {
        Interfere(id, calm, start);
        o := Await(id, calm, start);                      // finalizeReceipt
        r := if o.Ok? then Success(found.value) else Failure;
        return;
      }
      ghost var before := world;
      flight, r := PostAndConfirm(id, c, calm, start);
      if calm {
        SameEnds(before, old(world), world, world, c, r);
      }
    }

    method PostAndConfirm(id: CallId, c: Call, calm: bool, ghost start: World) returns (flight: bool, r: Result)
      requires Follows(start, world) && At(id, c, Post)
      modifies this
      ensures Follows(start, world) && At(id, c, Release(flight, r))
      ensures calm ==> !flight && AddsAndConfirms(old(world), world, c, r)
    {
      flight, r := false, Failure;
      Interfere(id, calm, start);
      var timeout: bool, refused: bool := *, *;
      if !calm && refused {
        Perform(Act(id, Throws), start);
        return;
      }
      if !calm && timeout {
        flight := true;
        Perform(Act(id, TimedOut), start);
        return;
      }
      ghost var before := world;
      var n, at := FreshPlace(c.task);
      var copied: set<MsgId> := *;
      var marks := copied + {c.msg};
      Perform(Act(id, Created(n, marks, at)), start);   // http.write
      assert AddsAt(before, world, c, n, marks, at);
      Interfere(id, calm, start);
      ghost var posted := world;
      var confirmed := Lists(Visible(Thread(world, c.task)), n);
      var o := Await(id, calm, start);                    // comentarios
      if o.Ok? && confirmed {
        Interfere(id, calm, start);
        o := Await(id, calm, start);                      // finalizeReceipt
        r := if o.Ok? then Success(n) else Failure;
      }
      if calm {
        assert Thread(world, c.task) == Thread(posted, c.task);
        assert AddsAt(before, world, c, n, marks, at);
        AddsSomewhere(before, world, c, n, marks, at);
        assert AddsAndConfirmsAs(before, world, c, r, n);
      }
    }

    /** The remote chooses an id it never issued and a place in the thread. */
    method FreshPlace(t: TaskId) returns (n: CommentId, at: nat)
      ensures n !in world.used && at <= |Thread(world, t)|
    {
      ghost var unused := SomeUnused(world.used);
      assert unused !in world.used;
      n :| n !in world.used;
      at :| 0 <= at <= |Thread(world, t)|;
    }

    method IncorporateComment(id: CallId, c: Call, calm: bool) returns (r: Result)
      requires id !in world.calls
      requires calm ==> c.msg !in world.locks
      modifies this
      ensures Follows(old(world), world)
      ensures calm ==> CalmIncorporate(old(world), world, c, r)
    {
      ghost var start := world;
      FollowsItself(world);
      Perform(Arrive(id, c), start);
      Interfere(id, calm, start);
      var o := Await(id, calm, start);                    // assertReady, acquireLock
      if !o.Ok? { return Failure; }
      var flight;
      ghost var before := world;
      flight, r := Locked(id, c, calm, start);
      ghost var after := world;
      if flight {
        var lands: bool := *;
        if lands {
          var n, at := FreshPlace(c.task);
          Perform(Land(id, n, {c.msg}, at), start);
        }
      }
      o := Await(id, calm, start);                        // releaseLock, failure swallowed
      var s := Slot(c.msg, c.key);
      if calm {
        SameEnds(Begun(before, s), Begun(old(world), s), after, world, c, r);
      }
    }

    method Locked(id: CallId, c: Call, calm: bool, ghost start: World) returns (flight: bool, r: Result)
      requires Follows(start, world) && At(id, c, ReadReceipt)
      modifies this
      ensures Follows(start, world) && At(id, c, Release(flight, r))
      ensures calm ==> !flight && CalmIncorporate(old(world), world, c, r)
    {
      flight, r := false, Failure;
      var s := Slot(c.msg, c.key);
      Interfere(id, calm, start);
      var existing := if s in world.receipts then Some(world.receipts[s]) else None;
      var o := Await(id, calm, start);                    // getReceipt
      if !o.Ok? { return; }
      if existing.Some? && existing.value.Done? {
        r := Success(existing.value.id);
        return;
      }
      ghost var before := world;
      flight, r := PrepareAndFind(id, c, calm, start);
      if calm {
        SameEnds(Begun(before, s), Begun(old(world), s), world, world, c, r);
      }
    }

    method PrepareAndFind(id: CallId, c: Call, calm: bool, ghost start: World) returns (flight: bool, r: Result)
      requires Follows(start, world) && At(id, c, Prepare)
      modifies this
      ensures Follows(start, world) && At(id, c, Release(flight, r))
      ensures calm ==> !flight && FindsOrAdds(Begun(old(world), Slot(c.msg, c.key)), world, c, r)
    {
      flight, r := false, Failure;
      Interfere(id, calm, start);
      var o := Await(id, calm, start);                    // assertTaskOnAuthorizedLists, loadOriginMessage
      if !o.Ok? { return; }
      assert At(id, c, Begin);
      Interfere(id, calm, start);
      o := Await(id, calm, start);                        // beginReceipt
      if !o.Ok? { return; }
      assert At(id, c, List);
      ghost var before := world;
      flight, r := FindOrPost(id, c, calm, start);
      if calm {
        SameEnds(before, Begun(old(world), Slot(c.msg, c.key)), world, world, c, r);
      }
    }
  }

  /** Who calls and who holds locks does not matter to what an incorporation does. */
  lemma SameEnds(w: World, v: World, w': World, v': World, c: Call, r: Result)
    requires w.threads == v.threads && w.used == v.used && w.receipts == v.receipts
    requires w'.threads == v'.threads && w'.receipts == v'.receipts
    ensures AddsAndConfirms(w, w', c, r) ==> AddsAndConfirms(v, v', c, r)
    ensures FindsOrAdds(w, w', c, r) ==> FindsOrAdds(v, v', c, r)
  {
    if AddsAndConfirms(w, w', c, r) {
      SameAdds(w, v, w', v', c, r);
    }
    assert Thread(w, c.task) == Thread(v, c.task);
  }

  lemma SameAdds(w: World, v: World, w': World, v': World, c: Call, r: Result)
    requires w.threads == v.threads && w.used == v.used && w.receipts == v.receipts
    requires w'.threads == v'.threads && w'.receipts == v'.receipts
    requires AddsAndConfirms(w, w', c, r)
    ensures AddsAndConfirms(v, v', c, r)
  {
    var n :| n !in w.used && AddsAndConfirmsAs(w, w', c, r, n);
    var marks, at :| AddsAt(w, w', c, n, marks, at);
    assert AddsAt(v, v', c, n, marks, at);
    assert AddsAndConfirmsAs(v, v', c, r, n);
  }
}
