/**
 * moveCard reads its card before its transaction starts, and createCard reads the largest
 * order before it inserts. Here the board may change between that read and the write.
 */
module KanbanRaces {
  import opened Options
  import opened Kanban
  import opened KanbanBoard

  /** A move whose card was read earlier as `c`, written onto the board as it is now. */
  function StaleMoved(cards: Cards, id: CardId, c: Card, to: StageId, toIndex: int, kind: StageType, now: nat): Cards
    requires id in cards
  {
    if c.stage == to && c.order == toIndex then cards
    else MadeRoom(cards, c, to, toIndex)[id := cards[id].(stage := to, order := toIndex, status := StatusAt(kind), closedAt := ClosedAt(c, kind, now))]
  }

  lemma FreshReadIsAMove(cards: Cards, id: CardId, to: StageId, toIndex: int, kind: StageType, now: nat)
    requires id in cards
    ensures StaleMoved(cards, id, cards[id], to, toIndex, kind, now) == Moved(cards, id, to, toIndex, kind, now)
  {
  }

  /** The place of the neighbour that the move shifts onto the place it remembers. */
  function ShiftedOnto(c: Card, to: StageId, toIndex: int): int {
    if c.stage == to && toIndex < c.order then c.order - 1 else c.order + 1
  }

  /** Another card has taken the remembered place, and one more stands where the shift starts. */
  ghost predicate PlaceRetaken(cards: Cards, id: CardId, c: Card, to: StageId, toIndex: int) {
    && !(c.stage == to && c.order == toIndex)
    && (exists a | a in cards && a != id :: cards[a].stage == c.stage && cards[a].order == c.order)
    && (exists b | b in cards && b != id :: cards[b].stage == c.stage && cards[b].order == ShiftedOnto(c, to, toIndex))
  }

  /** Where the move with the remembered card `c` puts another card. */
  lemma StaleNudged(pipelines: map<PipelineId, OrgId>, stages: map<StageId, Stage>, cards: Cards,
                    id: CardId, c: Card, to: StageId, toIndex: int, kind: StageType, now: nat, b: CardId)
    requires Owned(pipelines, cards) && Staged(stages, cards) && id in cards && b in cards && b != id
    requires c.stage in stages && to in stages && stages[to].pipeline == stages[c.stage].pipeline == c.pipeline
    requires c.pipeline in pipelines && pipelines[c.pipeline] == c.org
    ensures var cards' := StaleMoved(cards, id, c, to, toIndex, kind, now);
            b in cards' && cards'[b] == cards[b].(order := Nudged(cards[b], c, to, toIndex))
  {
  }

  /** A stale move keeps the orders distinct exactly when its remembered place was not retaken. */
  lemma StaleMoveKeepsDistinctExactly(pipelines: map<PipelineId, OrgId>, stages: map<StageId, Stage>, cards: Cards,
                                      id: CardId, c: Card, to: StageId, toIndex: int, kind: StageType, now: nat)
    requires Sound(pipelines, stages, cards) && id in cards
    requires c.stage in stages && to in stages && stages[to].pipeline == stages[c.stage].pipeline == c.pipeline
    requires c.pipeline in pipelines && pipelines[c.pipeline] == c.org
    ensures DistinctOrders(StaleMoved(cards, id, c, to, toIndex, kind, now)) <==> !PlaceRetaken(cards, id, c, to, toIndex)
  {
    var cards' := StaleMoved(cards, id, c, to, toIndex, kind, now);
    forall b | b in cards && b != id ensures cards'[b] == cards[b].(order := Nudged(cards[b], c, to, toIndex)) {
      StaleNudged(pipelines, stages, cards, id, c, to, toIndex, kind, now, b);
    }
    if PlaceRetaken(cards, id, c, to, toIndex) {
      var a :| a in cards && a != id && cards[a].stage == c.stage && cards[a].order == c.order;
      var b :| b in cards && b != id && cards[b].stage == c.stage && cards[b].order == ShiftedOnto(c, to, toIndex);
      assert a != b && cards'[a].order == cards'[b].order;
    } else {
      NotRetakenIsDistinct(cards, cards', id, c, to, toIndex);
    }
  }

  lemma NotRetakenIsDistinct(cards: Cards, cards': Cards, id: CardId, c: Card, to: StageId, toIndex: int)
    requires DistinctOrders(cards) && id in cards && cards'.Keys == cards.Keys
    requires if c.stage == to && c.order == toIndex then cards' == cards else cards'[id].stage == to && cards'[id].order == toIndex
    requires forall b | b in cards && b != id :: cards'[b] == cards[b].(order := Nudged(cards[b], c, to, toIndex))
    requires !PlaceRetaken(cards, id, c, to, toIndex)
    ensures DistinctOrders(cards')
  {
    if !(c.stage == to && c.order == toIndex) {
      forall a, b | a in cards' && b in cards' && a != b && cards'[a].stage == cards'[b].stage
        ensures cards'[a].order != cards'[b].order
      {
        if a != id && b != id {
          assert cards[a].order != cards[b].order;
          assert !(cards[a].stage == c.stage && cards[a].order == c.order && cards[b].order == ShiftedOnto(c, to, toIndex));
          assert !(cards[b].stage == c.stage && cards[b].order == c.order && cards[a].order == ShiftedOnto(c, to, toIndex));
        }
      }
    }
  }

  // ---------------------------------------------------------------- what runs between read and insert

  /** One operation on the board, as its contract describes it. */
  datatype BoardOp = Creates(id: CardId, card: Card) | Moves(id: CardId, to: StageId, toIndex: int) | Removes(id: CardId) | Upserts

  ghost predicate StepOf(cards: Cards, op: BoardOp, cards': Cards) {
    match op
    case Creates(id, card) => id !in cards && cards' == cards[id := card]
    case Moves(id, to, toIndex) => id in cards && MoveOf(cards, cards', id, to, toIndex)
    case Removes(id) => cards' == cards - {id}
    case Upserts => cards' == cards
  }

  predicate StandsAt(cards: Cards, b: CardId, s: StageId, n: int) {
    b in cards && cards[b].stage == s && cards[b].order == n
  }

  /** The operation brings card `b` to place `n` of stage `s`: it creates it there, moves it
      there, or moves another card and shifts it there. */
  predicate Brings(cards: Cards, op: BoardOp, b: CardId, s: StageId, n: int) {
    match op
    case Creates(id, card) => id == b && card.stage == s && card.order == n
    case Moves(id, to, toIndex) =>
      && id in cards && b in cards && !StandsAt(cards, b, s, n)
      && (if b == id then to == s && toIndex == n
          else cards[b].stage == s && Nudged(cards[b], cards[id], to, toIndex) == n)
    case Removes(_) => false
    case Upserts => false
  }

  ghost predicate Trace(boards: seq<Cards>, ops: seq<BoardOp>) {
    |boards| == |ops| + 1 && forall i | 0 <= i < |ops| :: StepOf(boards[i], ops[i], boards[i + 1])
  }

  /** Between read and insert some operation brings a card to place `n` of the stage, and it
      stays there. */
  ghost predicate PlaceTaken(boards: seq<Cards>, ops: seq<BoardOp>, s: StageId, n: int)
    requires |boards| == |ops| + 1
  {
    exists i, b | 0 <= i < |ops| && Brings(boards[i], ops[i], b, s, n) :: forall j | i < j <= |ops| :: StandsAt(boards[j], b, s, n)
  }

  /** When a card came to where it stands at the end. */
  lemma {:induction false} LastArrival(boards: seq<Cards>, ops: seq<BoardOp>, b: CardId, s: StageId, n: int, k: nat) returns (i: nat)
    requires Trace(boards, ops) && k <= |ops|
    requires !StandsAt(boards[0], b, s, n) && forall j | k <= j <= |ops| :: StandsAt(boards[j], b, s, n)
    ensures i < |ops| && Brings(boards[i], ops[i], b, s, n) && forall j | i < j <= |ops| :: StandsAt(boards[j], b, s, n)
  {
    if StandsAt(boards[k - 1], b, s, n) {
      i := LastArrival(boards, ops, b, s, n, k - 1);
    } else {
      i := k - 1;
      assert StepOf(boards[i], ops[i], boards[i + 1]);
      assert StandsAt(boards[i + 1], b, s, n);
    }
  }

  /** createCard reads the largest order of the column and inserts one past it. Whatever runs in
      between, two cards end on one order exactly when some operation brought a card to that
      place and it is still there. */
  lemma StaleCreateCollidesExactly(boards: seq<Cards>, ops: seq<BoardOp>, id: CardId, card: Card)
    requires Trace(boards, ops) && DistinctOrders(boards[|ops|]) && id !in boards[|ops|]
    requires NextOrder(boards[0], card.pipeline, card.stage, card.order)
    requires forall b | b in boards[0] && boards[0][b].stage == card.stage :: boards[0][b].pipeline == card.pipeline
    ensures !DistinctOrders(boards[|ops|][id := card]) <==> PlaceTaken(boards, ops, card.stage, card.order)
  {
    var now, after := boards[|ops|], boards[|ops|][id := card];
    if b: CardId :| StandsAt(now, b, card.stage, card.order) {
      assert !StandsAt(boards[0], b, card.stage, card.order);
      var i := LastArrival(boards, ops, b, card.stage, card.order, |ops|);
      assert after[b].order == after[id].order && after[b].stage == after[id].stage && b != id;
    } else {
      NothingThere(now, id, card);
      assert PlaceTaken(boards, ops, card.stage, card.order) ==> exists b: CardId :: StandsAt(now, b, card.stage, card.order);
    }
  }

  lemma NothingThere(now: Cards, id: CardId, card: Card)
    requires DistinctOrders(now) && id !in now && forall b :: !StandsAt(now, b, card.stage, card.order)
    ensures DistinctOrders(now[id := card])
  {
    assert forall b | b in now && now[b].stage == card.stage :: !StandsAt(now, b, card.stage, card.order);
  }

  /** Two createCard calls that read before either inserts end on the same order. */
  lemma TwoCreatesCollide(cards: Cards, a: CardId, b: CardId, ca: Card, cb: Card)
    requires a !in cards && b !in cards && a != b
    requires ca.pipeline == cb.pipeline && ca.stage == cb.stage
    requires NextOrder(cards, ca.pipeline, ca.stage, ca.order) && NextOrder(cards, cb.pipeline, cb.stage, cb.order)
    ensures !DistinctOrders(cards[a := ca][b := cb])
  {
    var cards' := cards[a := ca][b := cb];
    assert ca.order == cb.order;
    assert cards'[a].order == cards'[b].order;
  }

  function OpenCard(order: int): Card {
    Card(0, 0, 0, order, Open, None, None)
  }

  function ThreeCards(): Cards {
    map[1 := OpenCard(0), 2 := OpenCard(1), 3 := OpenCard(2)]
  }

  lemma FirstMove() returns (pipelines: map<PipelineId, OrgId>, stages: map<StageId, Stage>)
    ensures 0 in stages && stages[0] == Stage(0, Normal, 0) && 0 in pipelines && pipelines[0] == 0
    ensures var between := Moved(ThreeCards(), 1, 0, 2, Normal, 0);
            && Sound(pipelines, stages, ThreeCards()) && Sound(pipelines, stages, between)
            && MoveOf(ThreeCards(), between, 1, 0, 2)
  {
    pipelines, stages := map[0 := 0], map[0 := Stage(0, Normal, 0)];
    MovedStaysSound(pipelines, stages, ThreeCards(), 1, 0, 2, Normal, 0);
  }

  /** Three cards; the first is read, then moved behind the others by someone else, and only
      then moved to place 1: the two others collide. */
  lemma TwoMovesCollide()
    ensures (
      var between := Moved(ThreeCards(), 1, 0, 2, Normal, 0);
      && DistinctOrders(ThreeCards()) && DistinctOrders(between)
      && !DistinctOrders(StaleMoved(between, 1, OpenCard(0), 0, 1, Normal, 0)))
  {
    var pipelines, stages := FirstMove();
    var between := Moved(ThreeCards(), 1, 0, 2, Normal, 0);
    assert PlaceRetaken(between, 1, OpenCard(0), 0, 1) by {
      assert between[2].order == 0 && between[2].stage == 0;
      assert between[3].order == 1 && between[3].stage == 0;
    }
    StaleMoveKeepsDistinctExactly(pipelines, stages, between, 1, OpenCard(0), 0, 1, Normal, 0);
  }
}
