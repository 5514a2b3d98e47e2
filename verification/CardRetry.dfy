/** What a retry finds after earlier attempts failed, for each of the two ways to create. */
module CardRetry {
  import opened Options
  import opened CardCreation
  import opened CardInvariant
  import opened CardSteps
  import opened CardTheorems
  import opened CardService
  import opened CardHistory

  /**
   * A calm createTask on an unanchored conversation, in any state that failures, crashes
   * and other calls can leave. It succeeds exactly when its key's receipt is done and not
   * orphaned, or pending, or there is none and the phone has no card; and then the
   * conversation is anchored to the one live card of the phone.
   */
  lemma RetryFindsTheOneCard(cfg: Profile, v: World, es: seq<Event>, w': World, c: Call, r: Result)
    requires ValidProfile(cfg) && Initial(v) && Valid(cfg, v, es)
    requires c.op.CreateByPhone? && |Live(cfg, v, c.op.phone)| <= 1
    requires var w := After(cfg, v, es);
             c.conv !in w.anchors && CalmCreateTask(cfg, w, w', c, r)
    ensures var w := After(cfg, v, es);
            var s := SlotOf(c);
            && (r.Success? <==>
                  if AlreadyDone(w, s) then !Orphaned(cfg, v, es, s)
                  else s in w.receipts || Live(cfg, w, c.op.phone) == {})
            && (r.Success? ==>
                  && w'.anchors == w.anchors[c.conv := r.task]
                  && Live(cfg, w', c.op.phone) == {r.task}
                  && w'.receipts[s := Done(r.task)] == w'.receipts)
  {
    var w := After(cfg, v, es);
    var s, p := SlotOf(c), c.op.phone;
    ReachableIsSound(cfg, v, es);
    OneCardPerPhone(cfg, v, es, p);
    DanglesExactly(cfg, v, es, s);
    assert SlotOk(cfg, w, s);
    OneOrNone(Live(cfg, w, p));
    if r.Success? {
      if !AlreadyDone(w, s) && Live(cfg, w, p) == {} {
        assert w'.cards == Placed(w, r.task, Card(cfg.primary, Some(p), s)).cards;
        PlacedLive(cfg, w, r.task, Card(cfg.primary, Some(p), s), p);
        SameBoard(cfg, Placed(w, r.task, Card(cfg.primary, Some(p), s)), w');
      } else {
        SameBoard(cfg, w, w');
      }
    }
  }

  lemma OneOrNone(s: set<TaskId>)
    requires |s| <= 1
    ensures s == {} || Unique(s)
    ensures forall t | t in s :: s == {t}
  {
    forall t | t in s ensures s == {t} {
      assert |s - {t}| == |s| - 1;
    }
  }

  /** A retry under an orphaned receipt fails, and leaves an unanchored conversation anchored
      to a card that is no longer there. */
  lemma DanglingRetryAnchorsToNothing(cfg: Profile, v: World, es: seq<Event>, w': World, c: Call, r: Result)
    requires ValidProfile(cfg) && Initial(v) && Valid(cfg, v, es) && c.op.CreateByPhone?
    requires var w := After(cfg, v, es);
             AlreadyDone(w, SlotOf(c)) && Orphaned(cfg, v, es, SlotOf(c)) && CalmCreateTask(cfg, w, w', c, r)
    ensures var w := After(cfg, v, es);
            && r == Failure
            && (if c.conv in w.anchors then w'.anchors == w.anchors
                else c.conv in w'.anchors && w'.anchors[c.conv] !in Live(cfg, w', c.op.phone))
  {
    var w := After(cfg, v, es);
    ReachableIsSound(cfg, v, es);
    DanglesExactly(cfg, v, es, SlotOf(c));
    assert SlotOk(cfg, w, SlotOf(c));
    SameBoard(cfg, w, w');
  }

  lemma PostedGrows(w: World, w': World, t: TaskId, card: Card)
    requires w.cards.Keys <= w.used && t !in w.used && w'.cards == w.cards[t := card]
    ensures t !in PostedBy(w, card.origin)
    ensures PostedBy(w', card.origin) == PostedBy(w, card.origin) + {t}
  {
  }

  /** The workbench has no rematch: a retry without a done receipt always posts again, so
      the key ends with one task exactly when, in the whole run before, no task that a call of
      the key created, or whose POST landed late, is still there. */
  lemma WorkbenchRetryPostsAgain(cfg: Profile, v: World, es: seq<Event>, w': World, c: Call, r: Result)
    requires ValidProfile(cfg) && Initial(v) && Valid(cfg, v, es) && PostedBy(v, SlotOf(c)) == {}
    requires c.op.CreateOnList? && c.op.list in cfg.authorized
    requires var w := After(cfg, v, es);
             CalmCreateWorkbenchTask(cfg, w, w', c, r) && !AlreadyDone(w, SlotOf(c)) && !Refused(w, c)
    ensures var w := After(cfg, v, es);
            && r.Success? && r.task !in PostedBy(w, SlotOf(c))
            && PostedBy(w', SlotOf(c)) == PostedBy(w, SlotOf(c)) + {r.task}
            && (|PostedBy(w', SlotOf(c))| == 1 <==> forall t :: !LeftBehind(cfg, v, es, SlotOf(c), t))
  {
    var w, s := After(cfg, v, es), SlotOf(c);
    ReachableIsSound(cfg, v, es);
    PostedGrows(w, w', r.task, Card(ListOf(cfg, c), PhoneOf(c), s));
    forall t ensures t in PostedBy(w, s) <==> LeftBehind(cfg, v, es, s, t) {
      PostedExactly(cfg, v, es, s, t);
    }
    assert PostedBy(w, s) == {} <==> forall t :: t !in PostedBy(w, s);
  }

  lemma OneMoreStep(cfg: Profile, w: World, v: World, e: Event)
    requires Follows(cfg, w, v) && Enabled(cfg, v, e)
    ensures Follows(cfg, w, Next(cfg, v, e))
  {
    FollowsStep(cfg, v, e);
    FollowsJoin(cfg, w, v, Next(cfg, v, e));
  }

  /** Where the workbench call `c` has come to in a world with no other call. */
  ghost predicate Alone(w: World, c: Call, st: Stage) {
    && w.calls == map[0 := Process(c, st)] && w.locks == map[ScopeOf(c) := 0] && w.anchors == map[]
    && !AlreadyDone(w, SlotOf(c))
  }

  lemma UpToAuthorize(cfg: Profile, c: Call) returns (w: World)
    requires c.op.CreateOnList?
    ensures Follows(cfg, EmptyWorld, w) && Alone(w, c, Stage.Authorize) && w.cards == map[] && w.used == {}
  {
    FollowsItself(cfg, EmptyWorld);
    w := Next(cfg, EmptyWorld, Arrive(0, c));
    OneMoreStep(cfg, EmptyWorld, EmptyWorld, Arrive(0, c));
    OneMoreStep(cfg, EmptyWorld, w, Act(0, Ok));
    w := Next(cfg, w, Act(0, Ok));
    assert w.calls[0].stage == ReadReceipt;
    OneMoreStep(cfg, EmptyWorld, w, Act(0, Ok));
    w := Next(cfg, w, Act(0, Ok));
    assert w.calls[0].stage == CheckAnchor(false);
    OneMoreStep(cfg, EmptyWorld, w, Act(0, Ok));
    w := Next(cfg, w, Act(0, Ok));
  }

  lemma UpToTimeout(cfg: Profile, c: Call, v: World, card: Card) returns (w: World)
    requires c.op.CreateOnList? && c.op.list in cfg.authorized && card == Card(c.op.list, None, SlotOf(c))
    requires Follows(cfg, EmptyWorld, v) && Alone(v, c, Stage.Authorize) && v.cards == map[] && v.used == {}
    ensures Follows(cfg, EmptyWorld, w) && Alone(w, c, Release(Some(card), Failure)) && w.cards == map[] && w.used == {}
  {
    OneMoreStep(cfg, EmptyWorld, v, Act(0, Ok));
    w := Next(cfg, v, Act(0, Ok));
    assert w.calls[0].stage == Begin;
    OneMoreStep(cfg, EmptyWorld, w, Act(0, Ok));
    w := Next(cfg, w, Act(0, Ok));
    assert w.calls[0].stage == Post;
    OneMoreStep(cfg, EmptyWorld, w, Act(0, TimedOut(c.op.list, None)));
    w := Next(cfg, w, Act(0, TimedOut(c.op.list, None)));
  }

  lemma UpToTheEnd(cfg: Profile, c: Call, v: World, card: Card) returns (w: World)
    requires c.op.CreateOnList? && card == Card(c.op.list, None, SlotOf(c))
    requires Follows(cfg, EmptyWorld, v) && Alone(v, c, Release(Some(card), Failure)) && v.cards == map[] && v.used == {}
    ensures Follows(cfg, EmptyWorld, w) && w.cards == map[1 := card] && w.locks == map[] && w.anchors == map[]
    ensures !AlreadyDone(w, SlotOf(c))
  {
    OneMoreStep(cfg, EmptyWorld, v, Land(0, 1));
    w := Next(cfg, v, Land(0, 1));
    assert w.calls[0].stage == Release(None, Failure);
    OneMoreStep(cfg, EmptyWorld, w, Act(0, Ok));
    w := Next(cfg, w, Act(0, Ok));
  }

  /** Such a task behind a free lock is real: the POST times out, lands, and the call ends.
      From here the lemma above gives a second task under the same key. */
  lemma WorkbenchStrayIsReachable(cfg: Profile, c: Call)
    requires c.op.CreateOnList? && c.op.list in cfg.authorized
    ensures exists w :: Follows(cfg, EmptyWorld, w) && PostedBy(w, SlotOf(c)) == {1}
                        && !AlreadyDone(w, SlotOf(c)) && !Refused(w, c) && ScopeOf(c) !in w.locks
  {
    var card := Card(c.op.list, None, SlotOf(c));
    var v := UpToAuthorize(cfg, c);
    v := UpToTimeout(cfg, c, v, card);
    var w := UpToTheEnd(cfg, c, v, card);
    assert PostedBy(w, SlotOf(c)) == {1};
  }

  // ---------------------------------------------------------------- a receipt is orphaned

  /** Where the createTask call `c` has come to in a world with no other call and no card but
      its own. */
  ghost predicate Lone(w: World, c: Call, st: Stage) {
    && w.calls == map[0 := Process(c, st)] && w.locks == map[ScopeOf(c) := 0] && w.anchors == map[]
    && w.dangling == {}
  }

  lemma UpToScan(cfg: Profile, c: Call) returns (w: World)
    requires c.op.CreateByPhone?
    ensures Follows(cfg, EmptyWorld, w) && Lone(w, c, Scan(false, cfg.indexed, {})) && w.cards == map[] && w.used == {}
    ensures w.receipts == map[]
  {
    FollowsItself(cfg, EmptyWorld);
    w := Next(cfg, EmptyWorld, Arrive(0, c));
    OneMoreStep(cfg, EmptyWorld, EmptyWorld, Arrive(0, c));
    OneMoreStep(cfg, EmptyWorld, w, Act(0, Ok));
    w := Next(cfg, w, Act(0, Ok));
    assert w.calls[0].stage == ReadReceipt;
    OneMoreStep(cfg, EmptyWorld, w, Act(0, Ok));
    w := Next(cfg, w, Act(0, Ok));
    assert w.calls[0].stage == CheckAnchor(false);
    OneMoreStep(cfg, EmptyWorld, w, Act(0, Ok));
    w := Next(cfg, w, Act(0, Ok));
  }

  /** An empty board is read to the end, and the call goes on to begin. */
  lemma {:induction false} UpToBegin(cfg: Profile, c: Call, v: World, left: set<ListId>) returns (w: World)
    requires c.op.CreateByPhone? && Follows(cfg, EmptyWorld, v) && Lone(v, c, Scan(false, left, {}))
    requires v.cards == map[] && v.used == {} && v.receipts == map[]
    ensures Follows(cfg, EmptyWorld, w) && Lone(w, c, Begin) && w.cards == map[] && w.used == {} && w.receipts == map[]
    decreases left
  {
    if left == {} {
      OneMoreStep(cfg, EmptyWorld, v, Act(0, Ok));
      w := Next(cfg, v, Act(0, Ok));
    } else {
      var l :| l in left;
      OneMoreStep(cfg, EmptyWorld, v, Act(0, Page(l)));
      w := Next(cfg, v, Act(0, Page(l)));
      assert w.calls[0].stage == Scan(false, left - {l}, {});
      w := UpToBegin(cfg, c, w, left - {l});
    }
  }

  lemma UpToReread(cfg: Profile, c: Call, v: World) returns (w: World)
    requires c.op.CreateByPhone? && Follows(cfg, EmptyWorld, v) && Lone(v, c, Begin)
    requires v.cards == map[] && v.used == {} && v.receipts == map[]
    ensures Follows(cfg, EmptyWorld, w) && Lone(w, c, Reread(1))
    ensures w.cards == map[1 := Card(cfg.primary, PhoneOf(c), SlotOf(c))]
  {
    OneMoreStep(cfg, EmptyWorld, v, Act(0, Ok));
    w := Next(cfg, v, Act(0, Ok));
    assert w.calls[0].stage == Post;
    var o := Created(1, cfg.primary, PhoneOf(c));
    OneMoreStep(cfg, EmptyWorld, w, Act(0, o));
    w := Next(cfg, w, Act(0, o));
  }

  lemma UpToAnchor(cfg: Profile, c: Call, v: World) returns (w: World)
    requires c.op.CreateByPhone? && Follows(cfg, EmptyWorld, v) && Lone(v, c, Reread(1))
    requires v.cards == map[1 := Card(cfg.primary, PhoneOf(c), SlotOf(c))]
    ensures Follows(cfg, EmptyWorld, w) && Lone(w, c, Anchor(1)) && w.cards == v.cards
    ensures SlotOf(c) in w.receipts && w.receipts[SlotOf(c)] == Done(1)
  {
    OneMoreStep(cfg, EmptyWorld, v, Act(0, Ok));
    w := Next(cfg, v, Act(0, Ok));
    assert w.calls[0].stage == Finalize(1);
    OneMoreStep(cfg, EmptyWorld, w, Act(0, Ok));
    w := Next(cfg, w, Act(0, Ok));
  }

  lemma UpToDelete(cfg: Profile, c: Call, v: World) returns (w: World)
    requires c.op.CreateByPhone? && Follows(cfg, EmptyWorld, v) && Lone(v, c, Anchor(1)) && v.cards.Keys == {1}
    requires SlotOf(c) in v.receipts && v.receipts[SlotOf(c)] == Done(1)
    ensures Follows(cfg, EmptyWorld, w) && w.calls == map[0 := Process(c, Release(None, Failure))]
    ensures w.cards == map[] && w.locks == map[ScopeOf(c) := 0] && w.anchors == map[] && w.receipts == v.receipts
  {
    OneMoreStep(cfg, EmptyWorld, v, Act(0, Throws));
    w := Next(cfg, v, Act(0, Throws));
    assert w.calls[0].stage == Undo(1);
    OneMoreStep(cfg, EmptyWorld, w, Act(0, LostReply));
    w := Next(cfg, w, Act(0, LostReply));
  }

  lemma UpToOrphan(cfg: Profile, c: Call, v: World) returns (w: World)
    requires Follows(cfg, EmptyWorld, v) && v.calls == map[0 := Process(c, Release(None, Failure))]
    requires v.cards == map[] && v.locks == map[ScopeOf(c) := 0] && v.anchors == map[]
    ensures Follows(cfg, EmptyWorld, w) && w.cards == map[] && w.locks == map[] && w.anchors == map[] && w.receipts == v.receipts
  {
    OneMoreStep(cfg, EmptyWorld, v, Act(0, Ok));
    w := Next(cfg, v, Act(0, Ok));
  }

  /** Such a receipt behind a free lock is real: the card is posted and finalized, the anchor
      fails, and the delete that undoes the card loses its reply. */
  lemma OrphanIsReachable(cfg: Profile, c: Call) returns (es: seq<Event>)
    requires ValidProfile(cfg) && c.op.CreateByPhone?
    ensures Valid(cfg, EmptyWorld, es)
    ensures var w := After(cfg, EmptyWorld, es);
            && ScopeOf(c) !in w.locks && c.conv !in w.anchors && AlreadyDone(w, SlotOf(c)) && Orphaned(cfg, EmptyWorld, es, SlotOf(c))
  {
    var v := UpToScan(cfg, c);
    v := UpToBegin(cfg, c, v, cfg.indexed);
    v := UpToReread(cfg, c, v);
    v := UpToAnchor(cfg, c, v);
    v := UpToDelete(cfg, c, v);
    var w := UpToOrphan(cfg, c, v);
    es :| Valid(cfg, EmptyWorld, es) && After(cfg, EmptyWorld, es) == w;
    DoneReceiptNamesLiveCard(cfg, EmptyWorld, es, c.op.phone, c.key);
  }
}
