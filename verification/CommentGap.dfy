/** A run in which one message becomes two comments of one task: 40 later comments hide the first. */
module CommentGap {
  import opened Options
  import opened Comments
  import opened CommentService

  const EmptyWorld := World(map[], {}, map[], map[], map[])

  /** Call `id` stands at `st`, nobody holds a lock but it, and the thread of its task is `s`. */
  ghost predicate At(w: World, id: CallId, c: Call, st: Stage, s: seq<Comment>) {
    && id in w.calls && w.calls[id] == Process(c, st) && Thread(w, c.task) == s
    && (Holding(st) ==> w.locks == map[c.msg := id]) && (!Holding(st) ==> w.locks == map[])
  }

  lemma Step(w: World, e: Event)
    requires Follows(EmptyWorld, w) && Enabled(w, e)
    ensures Follows(EmptyWorld, Next(w, e))
  {
    FollowsStep(EmptyWorld, w, e);
  }

  lemma UpToPrepare(v: World, id: CallId, c: Call, s: seq<Comment>) returns (w: World)
    requires Follows(EmptyWorld, v) && id !in v.calls && v.locks == map[] && Thread(v, c.task) == s
    requires Slot(c.msg, c.key) !in v.receipts
    ensures Follows(EmptyWorld, w) && At(w, id, c, Prepare, s) && w.used == v.used && w.calls.Keys == v.calls.Keys + {id}
    ensures w.receipts == v.receipts
  {
    Step(v, Arrive(id, c));
    w := Next(v, Arrive(id, c));
    Step(w, Act(id, Ok));
    w := Next(w, Act(id, Ok));
    assert At(w, id, c, ReadReceipt, s);
    Step(w, Act(id, Ok));
    w := Next(w, Act(id, Ok));
  }

  /** A call that finds no done receipt comes to list the comments. */
  lemma UpToList(v: World, id: CallId, c: Call, s: seq<Comment>) returns (w: World)
    requires Follows(EmptyWorld, v) && id !in v.calls && v.locks == map[] && Thread(v, c.task) == s
    requires Slot(c.msg, c.key) !in v.receipts
    ensures Follows(EmptyWorld, w) && At(w, id, c, List, s) && w.used == v.used && w.calls.Keys == v.calls.Keys + {id}
    ensures w.receipts == v.receipts[Slot(c.msg, c.key) := Pending]
  {
    w := UpToPrepare(v, id, c, s);
    Step(w, Act(id, Ok));
    w := Next(w, Act(id, Ok));
    assert At(w, id, c, Begin, s);
    Step(w, Act(id, Ok));
    w := Next(w, Act(id, Ok));
  }

  /** Seeing no marker, it posts on top of the thread. */
  lemma UpToPosted(v: World, id: CallId, c: Call, s: seq<Comment>, n: CommentId) returns (w: World)
    requires Follows(EmptyWorld, v) && At(v, id, c, List, s) && n !in v.used
    requires forall i | 0 <= i < |Visible(s)| :: c.msg !in Visible(s)[i].marks
    ensures Follows(EmptyWorld, w) && At(w, id, c, Reread(n), [Comment(n, {c.msg}, Some(c.msg))] + s)
    ensures w.used == v.used + {n} && w.receipts == v.receipts && w.calls.Keys == v.calls.Keys
  {
    FindMarkIsFirst(Visible(s), c.msg);
    Step(v, Act(id, Ok));
    w := Next(v, Act(id, Ok));
    assert At(w, id, c, Post, s);
    var o := Created(n, {c.msg}, 0);
    Step(w, Act(id, o));
    w := Next(w, Act(id, o));
    assert InsertAt(s, Comment(n, {c.msg}, Some(c.msg)), 0) == [Comment(n, {c.msg}, Some(c.msg))] + s;
  }

  /** It sees its comment, finalizes the receipt and gives the lock back. */
  lemma UpToDone(v: World, id: CallId, c: Call, n: CommentId) returns (w: World)
    requires Follows(EmptyWorld, v) && At(v, id, c, Reread(n), [Comment(n, {c.msg}, Some(c.msg))])
    ensures Follows(EmptyWorld, w) && At(w, id, c, Finished(Success(n)), [Comment(n, {c.msg}, Some(c.msg))])
    ensures w.used == v.used && w.receipts == v.receipts[Slot(c.msg, c.key) := Done(n)] && w.calls.Keys == v.calls.Keys
  {
    assert Visible(Thread(v, c.task))[0].id == n;
    Step(v, Act(id, Ok));
    w := Next(v, Act(id, Ok));
    assert w.calls[id].stage == Finalize(n);
    Step(w, Act(id, Ok));
    w := Next(w, Act(id, Ok));
    assert w.calls[id].stage == Release(false, Success(n));
    Step(w, Act(id, Ok));
    w := Next(w, Act(id, Ok));
  }

  /** `k` comments of other people above the first, none with a marker. */
  ghost predicate Buried(s: seq<Comment>, k: nat, first: Comment) {
    |s| == k + 1 && s[k] == first && forall i | 0 <= i < k :: s[i].marks == {}
  }

  lemma {:induction false} UpToBuried(v: World, t: TaskId, first: Comment, k: nat) returns (w: World)
    requires Follows(EmptyWorld, v) && Thread(v, t) == [first] && v.used == {0}
    ensures Follows(EmptyWorld, w) && Buried(Thread(w, t), k, first) && (forall n | n in w.used :: n <= k)
    ensures w.calls == v.calls && w.locks == v.locks && w.receipts == v.receipts
  {
    if k == 0 {
      w := v;
    } else {
      var u := UpToBuried(v, t, first, k - 1);
      var c := Comment(k, {}, None);
      Step(u, Written(t, c, 0));
      w := Next(u, Written(t, c, 0));
      assert Thread(w, t) == InsertAt(Thread(u, t), c, 0) == [c] + Thread(u, t);
    }
  }

  lemma FirstComment(c: Call) returns (w: World)
    ensures Follows(EmptyWorld, w) && Thread(w, c.task) == [Comment(0, {c.msg}, Some(c.msg))]
    ensures w.used == {0} && w.calls.Keys == {0} && w.locks == map[] && w.receipts.Keys == {Slot(c.msg, c.key)}
  {
    FollowsItself(EmptyWorld);
    w := UpToList(EmptyWorld, 0, c, []);
    w := UpToPosted(w, 0, c, [], 0);
    assert [Comment(0, {c.msg}, Some(c.msg))] + [] == [Comment(0, {c.msg}, Some(c.msg))];
    w := UpToDone(w, 0, c, 0);
  }

  lemma SecondComment(v: World, c: Call, first: Comment) returns (w: World)
    requires Follows(EmptyWorld, v) && 1 !in v.calls && v.locks == map[] && Slot(c.msg, c.key) !in v.receipts
    requires Buried(Thread(v, c.task), LIMIT, first) && forall n | n in v.used :: n <= LIMIT
    ensures Follows(EmptyWorld, w) && Thread(w, c.task) == [Comment(LIMIT + 1, {c.msg}, Some(c.msg))] + Thread(v, c.task)
  {
    var s := Thread(v, c.task);
    assert forall i | 0 <= i < |Visible(s)| :: Visible(s)[i] == s[i];
    w := UpToList(v, 1, c, s);
    w := UpToPosted(w, 1, c, s, LIMIT + 1);
  }

  /** One message under two keys, with 40 comments in between, becomes two comments. */
  lemma HiddenCommentIsPostedAgain(m: MsgId, t: TaskId, k1: Key, k2: Key) returns (w: World)
    requires k1 != k2
    ensures Initial(EmptyWorld) && Follows(EmptyWorld, w)
    ensures |Thread(w, t)| == 42 && !AtMostOneFrom(Thread(w, t), m)
  {
    var first := Comment(0, {m}, Some(m));
    var v := FirstComment(Call(m, k1, t));
    v := UpToBuried(v, t, first, LIMIT);
    w := SecondComment(v, Call(m, k2, t), first);
    assert Thread(w, t)[0].origin == Some(m) && Thread(w, t)[LIMIT + 1] == first;
  }
}
