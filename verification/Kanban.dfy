/**
 * The order of the cards on a kanban board. Cards carry an integer `order` within their
 * stage; moves shift whole ranges of orders with bulk updates.
 */
module Kanban {
  import opened Options

  type CardId = nat
  type StageId = nat
  type PipelineId = nat
  type OrgId = nat
  type ConvId = nat

  datatype StageType = Normal | Won | Lost
  datatype Status = Open | CardWon | CardLost

  datatype Stage = Stage(pipeline: PipelineId, kind: StageType, order: int)

  datatype Card = Card(org: OrgId, pipeline: PipelineId, stage: StageId, order: int,
                       status: Status, closedAt: Option<nat>, conv: Option<ConvId>)

  type Cards = map<CardId, Card>

  // ---------------------------------------------------------------- bulk updates

  /** The rows an updateMany of moveCard selects. */
  predicate InRange(c: Card, p: PipelineId, o: OrgId, s: StageId, lo: int, hi: Option<int>) {
    c.pipeline == p && c.org == o && c.stage == s && lo <= c.order && (hi.Some? ==> c.order <= hi.value)
  }

  /** updateMany: shift the orders of the selected rows by `d`. */
  function Shift(cards: Cards, p: PipelineId, o: OrgId, s: StageId, lo: int, hi: Option<int>, d: int): Cards {
    map id | id in cards ::
      if InRange(cards[id], p, o, s, lo, hi) then cards[id].(order := cards[id].order + d) else cards[id]
  }

  /** Every card is of its pipeline's organization. */
  ghost predicate Owned(pipelines: map<PipelineId, OrgId>, cards: Cards) {
    forall id | id in cards :: cards[id].pipeline in pipelines && pipelines[cards[id].pipeline] == cards[id].org
  }

  ghost predicate Staged(stages: map<StageId, Stage>, cards: Cards) {
    forall id | id in cards :: cards[id].stage in stages && stages[cards[id].stage].pipeline == cards[id].pipeline
  }

  ghost predicate DistinctOrders(cards: Cards) {
    forall a, b | a in cards && b in cards && a != b && cards[a].stage == cards[b].stage :: cards[a].order != cards[b].order
  }

  ghost predicate Sound(pipelines: map<PipelineId, OrgId>, stages: map<StageId, Stage>, cards: Cards) {
    Owned(pipelines, cards) && Staged(stages, cards) && DistinctOrders(cards)
  }

  // ---------------------------------------------------------------- moveCard

  function StatusAt(kind: StageType): Status {
    match kind case Won => CardWon case Lost => CardLost case Normal => Open
  }

  function ClosedAt(c: Card, kind: StageType, now: nat): Option<nat> {
    if kind.Normal? then None else if c.closedAt.Some? then c.closedAt else Some(now)
  }

  /** The shifts that make room for the card, before it is written itself. */
  function MadeRoom(cards: Cards, c: Card, to: StageId, toIndex: int): Cards {
    if c.stage == to then
      if c.order < toIndex then Shift(cards, c.pipeline, c.org, c.stage, c.order + 1, Some(toIndex), -1)
      else Shift(cards, c.pipeline, c.org, c.stage, toIndex, Some(c.order - 1), 1)
    else
      Shift(Shift(cards, c.pipeline, c.org, c.stage, c.order + 1, None, -1),
            c.pipeline, c.org, to, toIndex, None, 1)
  }

  function Placed(cards: Cards, id: CardId, to: StageId, toIndex: int, kind: StageType, now: nat): Cards
    requires id in cards
  {
    cards[id := cards[id].(stage := to, order := toIndex, status := StatusAt(kind), closedAt := ClosedAt(cards[id], kind, now))]
  }

  /** The board after a move. Dropping a card where it lies returns early and writes nothing. */
  function Moved(cards: Cards, id: CardId, to: StageId, toIndex: int, kind: StageType, now: nat): Cards
    requires id in cards
  {
    var c := cards[id];
    if c.stage == to && c.order == toIndex then cards
    else Placed(MadeRoom(cards, c, to, toIndex), id, to, toIndex, kind, now)
  }

  /** Where a card other than the moved one ends up. */
  function Nudged(c: Card, moved: Card, to: StageId, toIndex: int): int {
    if moved.stage == to then
      if c.stage != to then c.order
      else if moved.order < c.order <= toIndex then c.order - 1
      else if toIndex <= c.order < moved.order then c.order + 1
      else c.order
    else if c.stage == moved.stage && moved.order < c.order then c.order - 1
    else if c.stage == to && toIndex <= c.order then c.order + 1
    else c.order
  }

  /** `cards'` is `cards` after card `id` went to place `toIndex` of stage `to`: the others
      are only nudged. */
  ghost predicate MoveOf(cards: Cards, cards': Cards, id: CardId, to: StageId, toIndex: int)
    requires id in cards
  {
    && cards'.Keys == cards.Keys
    && cards'[id].stage == to && cards'[id].order == toIndex
    && cards'[id].pipeline == cards[id].pipeline && cards'[id].org == cards[id].org && cards'[id].conv == cards[id].conv
    && (forall b | b in cards && b != id :: cards'[b] == cards[b].(order := Nudged(cards[b], cards[id], to, toIndex)))
  }

  /** The bulk updates of a move do exactly that. */
  lemma MovedIsMove(pipelines: map<PipelineId, OrgId>, stages: map<StageId, Stage>, cards: Cards,
                    id: CardId, to: StageId, toIndex: int, kind: StageType, now: nat)
    requires Owned(pipelines, cards) && Staged(stages, cards) && id in cards
    requires to in stages && stages[to].pipeline == cards[id].pipeline
    ensures MoveOf(cards, Moved(cards, id, to, toIndex, kind, now), id, to, toIndex)
  {
    var m := cards[id];
    forall b | b in cards && (cards[b].stage == m.stage || cards[b].stage == to)
      ensures cards[b].pipeline == m.pipeline && cards[b].org == m.org
    {
    }
  }

  /** Distinct orders survive a move to any index at all, also when the orders have gaps. */
  lemma MoveKeepsDistinct(cards: Cards, cards': Cards, id: CardId, to: StageId, toIndex: int)
    requires DistinctOrders(cards) && id in cards && MoveOf(cards, cards', id, to, toIndex)
    ensures DistinctOrders(cards')
  {
    forall a, b | a in cards' && b in cards' && a != b && cards'[a].stage == cards'[b].stage
      ensures cards'[a].order != cards'[b].order
    {
      assert a != id ==> cards[a].stage == cards[id].stage ==> cards[a].order != cards[id].order;
    }
  }

  /** A move never reorders the other cards of a stage among themselves. */
  lemma MoveKeepsOthersInOrder(cards: Cards, cards': Cards, id: CardId, to: StageId, toIndex: int, a: CardId, b: CardId)
    requires DistinctOrders(cards) && id in cards && MoveOf(cards, cards', id, to, toIndex)
    requires a in cards && b in cards && a != id && b != id && cards[a].stage == cards[b].stage
    ensures cards'[a].stage == cards'[b].stage == cards[a].stage
    ensures cards'[a].order < cards'[b].order <==> cards[a].order < cards[b].order
  {
  }

  // ---------------------------------------------------------------- columns as lists

  /** The cards of stage `s` are exactly the list `l`, with orders 0, 1, 2, ... */
  ghost predicate Column(cards: Cards, s: StageId, l: seq<CardId>) {
    Listed(cards, s, l) && Complete(cards, s, l)
  }

  function RemoveAt<T>(l: seq<T>, i: nat): seq<T>
    requires i < |l|
  {
    l[..i] + l[i + 1..]
  }

  function InsertAt<T>(l: seq<T>, i: nat, x: T): seq<T>
    requires i <= |l|
  {
    l[..i] + [x] + l[i..]
  }

  /** The first half of Column: the list names cards of the stage, each at its order. */
  ghost predicate Listed(cards: Cards, s: StageId, l: seq<CardId>) {
    forall i | 0 <= i < |l| :: l[i] in cards && cards[l[i]].stage == s && cards[l[i]].order == i
  }

  /** The second half: no card of the stage is missing. */
  ghost predicate Complete(cards: Cards, s: StageId, l: seq<CardId>) {
    forall id | id in cards && cards[id].stage == s :: 0 <= cards[id].order < |l| && l[cards[id].order] == id
  }

  lemma RearrangedAt(l: seq<CardId>, from: nat, toIndex: nat, i: nat)
    requires from < |l| && toIndex < |l| && i < |l|
    ensures var r := InsertAt(RemoveAt(l, from), toIndex, l[from]);
            && |r| == |l|
            && r[i] == if i == toIndex then l[from]
                       else if from <= i < toIndex then l[i + 1]
                       else if toIndex < i <= from then l[i - 1]
                       else l[i]
  {
  }

  /** A move within a dense column is remove-at then insert-at. */
  lemma MoveWithinColumn(cards: Cards, cards': Cards, l: seq<CardId>, from: nat, toIndex: nat)
    requires from < |l| && toIndex < |l| && l[from] in cards
    requires Column(cards, cards[l[from]].stage, l) && MoveOf(cards, cards', l[from], cards[l[from]].stage, toIndex)
    ensures Column(cards', cards[l[from]].stage, InsertAt(RemoveAt(l, from), toIndex, l[from]))
  {
    var s := cards[l[from]].stage;
    var r := InsertAt(RemoveAt(l, from), toIndex, l[from]);
    assert Listed(cards', s, r) by {
      forall i | 0 <= i < |r| ensures r[i] in cards' && cards'[r[i]].stage == s && cards'[r[i]].order == i {
        RearrangedAt(l, from, toIndex, i);
      }
    }
    assert Complete(cards', s, r) by {
      forall b | b in cards' && cards'[b].stage == s ensures 0 <= cards'[b].order < |r| && r[cards'[b].order] == b {
        var i := cards[b].order;
        assert l[i] == b;
        RearrangedAt(l, from, toIndex, if i == from then toIndex
                                       else if from < i <= toIndex then i - 1
                                       else if toIndex <= i < from then i + 1
                                       else i);
      }
    }
  }

  lemma MoveOutOfColumn(cards: Cards, cards': Cards, l: seq<CardId>, from: nat, to: StageId, toIndex: int)
    requires from < |l| && l[from] in cards && to != cards[l[from]].stage
    requires Column(cards, cards[l[from]].stage, l) && MoveOf(cards, cards', l[from], to, toIndex)
    ensures Column(cards', cards[l[from]].stage, RemoveAt(l, from))
  {
  }

  lemma MoveIntoColumn(cards: Cards, cards': Cards, id: CardId, to: StageId, m: seq<CardId>, toIndex: nat)
    requires toIndex <= |m| && id in cards && to != cards[id].stage
    requires Column(cards, to, m) && MoveOf(cards, cards', id, to, toIndex)
    ensures Column(cards', to, InsertAt(m, toIndex, id))
  {
  }

  /** A move between dense columns removes from one list and inserts into the other. */
  lemma MoveAcrossColumns(cards: Cards, cards': Cards, l: seq<CardId>, from: nat, to: StageId, m: seq<CardId>, toIndex: nat)
    requires from < |l| && toIndex <= |m| && l[from] in cards && to != cards[l[from]].stage
    requires Column(cards, cards[l[from]].stage, l) && Column(cards, to, m) && MoveOf(cards, cards', l[from], to, toIndex)
    ensures Column(cards', cards[l[from]].stage, RemoveAt(l, from))
    ensures Column(cards', to, InsertAt(m, toIndex, l[from]))
  {
    MoveOutOfColumn(cards, cards', l, from, to, toIndex);
    MoveIntoColumn(cards, cards', l[from], to, m, toIndex);
  }

  /** Columns a move does not touch are the same list after it. */
  lemma MoveLeavesOtherColumns(cards: Cards, cards': Cards, id: CardId, to: StageId, toIndex: int, s: StageId, l: seq<CardId>)
    requires id in cards && MoveOf(cards, cards', id, to, toIndex)
    requires s != cards[id].stage && s != to && Column(cards, s, l)
    ensures Column(cards', s, l)
  {
  }

  /** The indices moveCard may be asked for: within the column, or its end for another one. */
  predicate IndexFits(sameStage: bool, l: seq<CardId>, m: seq<CardId>, toIndex: int) {
    0 <= toIndex && (if sameStage then toIndex < |l| else toIndex <= |m|)
  }

  /** An index beyond the end leaves a hole just before the card. */
  lemma MoveLeavesHole(cards: Cards, cards': Cards, l: seq<CardId>, from: nat, to: StageId, m: seq<CardId>, toIndex: int, r: seq<CardId>)
    requires from < |l| && l[from] in cards
    requires Column(cards, cards[l[from]].stage, l) && Column(cards, to, m) && MoveOf(cards, cards', l[from], to, toIndex)
    requires !IndexFits(to == cards[l[from]].stage, l, m, toIndex)
    ensures !Column(cards', to, r)
  {
    var id := l[from];
    var hole := if to == cards[id].stage then |l| - 1 else |m|;
    if toIndex > hole {
      forall b | b in cards' && cards'[b].stage == to ensures cards'[b].order != hole {
        if b != id && to == cards[id].stage {
          assert l[cards[b].order] == b;
        }
      }
    }
    assert Column(cards', to, r) ==> 0 <= toIndex < |r|;
    var filler := if 0 <= hole < |r| then r[hole] else id;
    assert toIndex > hole && filler in cards' && cards'[filler].stage == to ==> cards'[filler].order != hole;
  }

  /** The target stays dense exactly when the index fits. */
  lemma MoveIsDenseExactlyWhenIndexFits(cards: Cards, cards': Cards, l: seq<CardId>, from: nat, to: StageId, m: seq<CardId>, toIndex: int)
    requires from < |l| && l[from] in cards
    requires Column(cards, cards[l[from]].stage, l) && Column(cards, to, m) && MoveOf(cards, cards', l[from], to, toIndex)
    ensures (exists r :: Column(cards', to, r)) <==> IndexFits(to == cards[l[from]].stage, l, m, toIndex)
  {
    if IndexFits(to == cards[l[from]].stage, l, m, toIndex) {
      if to == cards[l[from]].stage {
        MoveWithinColumn(cards, cards', l, from, toIndex);
      } else {
        MoveAcrossColumns(cards, cards', l, from, to, m, toIndex);
      }
    } else {
      forall r ensures !Column(cards', to, r) {
        MoveLeavesHole(cards, cards', l, from, to, m, toIndex, r);
      }
    }
  }
}
