/**
 * The operations on a kanban board: each either refuses and changes nothing, or changes
 * the board exactly as its contract says. All of them keep the board sound.
 */
module KanbanBoard {
  import opened Options
  import opened Kanban
  import opened Ids

  datatype Outcome = Done | NotFound | BadRequest

  /** One entry of upsertStages: `id` is present for a stage to update. */
  datatype StageEntry = StageEntry(id: Option<StageId>, kind: Option<StageType>, order: Option<int>)

  /** The columns an entry writes; the place in the list is the default order. */
  function Written(p: PipelineId, e: StageEntry, i: int): Stage {
    Stage(p, if e.kind.Some? then e.kind.value else Normal, if e.order.Some? then e.order.value else i)
  }

  function KeepIds(entries: seq<StageEntry>): set<StageId> {
    set i | 0 <= i < |entries| && entries[i].id.Some? :: entries[i].id.value
  }

  function Orphans(stages: map<StageId, Stage>, p: PipelineId, entries: seq<StageEntry>): set<StageId> {
    set s | s in stages && stages[s].pipeline == p && s !in KeepIds(entries)
  }

  predicate AllKnown(stages: map<StageId, Stage>, p: PipelineId, entries: seq<StageEntry>) {
    forall i | 0 <= i < |entries| && entries[i].id.Some? ::
      entries[i].id.value in stages && stages[entries[i].id.value].pipeline == p
  }

  predicate Emptied(cards: Cards, gone: set<StageId>) {
    forall id | id in cards :: cards[id].stage !in gone
  }

  /** The rows written for the first `n` entries: updates go to the named stage, the others to
      stages that did not exist; a stage named twice ends as the later entry says. */
  ghost predicate RowsOf(before: map<StageId, Stage>, p: PipelineId, entries: seq<StageEntry>, n: nat,
                         rows: seq<StageId>, stages: map<StageId, Stage>)
    requires n <= |entries|
  {
    |rows| == n && RowsNamed(before, entries, rows) && NewRowsDiffer(entries, rows) && RowsWritten(p, entries, rows, stages)
  }

  ghost predicate RowsNamed(before: map<StageId, Stage>, entries: seq<StageEntry>, rows: seq<StageId>)
    requires |rows| <= |entries|
  {
    forall i | 0 <= i < |rows| :: if entries[i].id.Some? then rows[i] == entries[i].id.value else rows[i] !in before
  }

  ghost predicate NewRowsDiffer(entries: seq<StageEntry>, rows: seq<StageId>)
    requires |rows| <= |entries|
  {
    forall i, j | 0 <= i < j < |rows| && entries[j].id.None? :: rows[i] != rows[j]
  }

  /** The entry at `i` is the last one written to its row. */
  predicate LastForRow(rows: seq<StageId>, i: nat)
    requires i < |rows|
  {
    forall j | i < j < |rows| :: rows[j] != rows[i]
  }

  ghost predicate RowsWritten(p: PipelineId, entries: seq<StageEntry>, rows: seq<StageId>, stages: map<StageId, Stage>)
    requires |rows| <= |entries|
  {
    forall i | 0 <= i < |rows| && LastForRow(rows, i) :: rows[i] in stages && stages[rows[i]] == Written(p, entries[i], i)
  }

  /** The order a new card gets: one past the largest of its column, 0 in an empty one. */
  ghost predicate NextOrder(cards: Cards, p: PipelineId, s: StageId, n: int) {
    if forall id | id in cards :: !(cards[id].pipeline == p && cards[id].stage == s) then n == 0
    else
      && (forall id | id in cards && cards[id].pipeline == p && cards[id].stage == s :: cards[id].order < n)
      && (exists id | id in cards && cards[id].pipeline == p && cards[id].stage == s :: cards[id].order == n - 1)
  }

  ghost predicate FirstStage(stages: map<StageId, Stage>, p: PipelineId, s: StageId) {
    && s in stages && stages[s].pipeline == p
    && (forall t | t in stages && stages[t].pipeline == p :: stages[s].order <= stages[t].order)
  }

  class Board {
    var pipelines: map<PipelineId, OrgId>
    var stages: map<StageId, Stage>
    var cards: Cards

    ghost predicate Valid()
      reads this
    {
      Sound(pipelines, stages, cards)
    }

    constructor ()
      ensures Valid()
    {
      pipelines, stages, cards := map[], map[], map[];
    }

    predicate Owns(p: PipelineId, org: OrgId)
      reads this
    {
      p in pipelines && pipelines[p] == org
    }

    /** The conversation already has a card in the pipeline. */
    predicate Entered(p: PipelineId, conv: Option<ConvId>)
      reads this
    {
      conv.Some? && exists id | id in cards :: cards[id].pipeline == p && cards[id].conv == conv
    }

    method FirstStageOf(p: PipelineId) returns (s: Option<StageId>)
      ensures s.None? ==> forall t | t in stages :: stages[t].pipeline != p
      ensures s.Some? ==> FirstStage(stages, p, s.value)
    {
      var column := set t | t in stages && stages[t].pipeline == p;
      if column == {} {
        assert forall t | t in stages :: stages[t].pipeline == p ==> t in column;
        return None;
      }
      ghost var rank := map t: nat | t in column :: stages[t].order;
      ghost var least := SomeLeast(rank, column);
      var best :| best in column && forall t | t in column :: stages[best].order <= stages[t].order;
      s := Some(best);
    }

    method NextOrderOf(p: PipelineId, s: StageId) returns (n: int)
      ensures NextOrder(cards, p, s, n)
    {
      var column := set id | id in cards && cards[id].pipeline == p && cards[id].stage == s;
      if column == {} {
        assert forall id | id in cards :: cards[id].pipeline == p && cards[id].stage == s ==> id in column;
        return 0;
      }
      ghost var rank := map id: nat | id in column :: cards[id].order;
      ghost var greatest := SomeGreatest(rank, column);
      var top :| top in column && forall id | id in column :: cards[id].order <= cards[top].order;
      assert cards[top].order == (cards[top].order + 1) - 1;
      n := cards[top].order + 1;
    }

    /**
     * `linked` says that the contact, conversation and member named exist in the organization,
     * `titled` that a title was given or could be taken from the conversation.
     */
    method CreateCard(p: PipelineId, org: OrgId, stage: Option<StageId>, conv: Option<ConvId>, linked: bool, titled: bool)
      returns (r: Outcome, id: CardId)
      requires Valid()
      modifies `cards
      ensures Valid()
      ensures r == NotFound <==> !(p in pipelines && pipelines[p] == org) || !linked
      ensures (r == BadRequest <==>
                && p in pipelines && pipelines[p] == org && linked
                && (|| (conv.Some? && exists c | c in old(cards) :: old(cards)[c].pipeline == p && old(cards)[c].conv == conv)
                    || (stage.Some? && !(stage.value in stages && stages[stage.value].pipeline == p))
                    || (stage.None? && forall t | t in stages :: stages[t].pipeline != p)
                    || !titled))
      ensures r != Done ==> cards == old(cards)
      ensures (r == Done ==>
                && id !in old(cards) && id in cards && cards == old(cards)[id := cards[id]]
                && cards[id].pipeline == p && cards[id].org == org && cards[id].conv == conv
                && cards[id].status == Open && cards[id].closedAt == None
                && (if stage.Some? then cards[id].stage == stage.value else FirstStage(stages, p, cards[id].stage))
                && NextOrder(old(cards), p, cards[id].stage, cards[id].order))
    {
      id := 0;
      if !Owns(p, org) || !linked {
        return NotFound, id;
      }
      if Entered(p, conv) {
        return BadRequest, id;
      }
      var chosen := stage;
      if stage.None? {
        chosen := FirstStageOf(p);
        if chosen.None? {
          return BadRequest, id;
        }
      } else if !(stage.value in stages && stages[stage.value].pipeline == p) {
        return BadRequest, id;
      }
      var order := NextOrderOf(p, chosen.value);
      if !titled {
        return BadRequest, id;
      }
      ghost var unused := SomeUnused(cards.Keys);
      assert unused !in cards.Keys;
      id :| id !in cards.Keys;
      CreateStaysSound(pipelines, stages, cards, id, Card(org, p, chosen.value, order, Open, None, conv));
      cards := cards[id := Card(org, p, chosen.value, order, Open, None, conv)];
      r := Done;
    }

    method RemoveCard(id: CardId, org: OrgId) returns (r: Outcome)
      requires Valid()
      modifies `cards
      ensures Valid()
      ensures r == if id in old(cards) && old(cards)[id].org == org then Done else NotFound
      ensures cards == if r == Done then old(cards) - {id} else old(cards)
    {
      if id !in cards || cards[id].org != org {
        return NotFound;
      }
      cards := cards - {id};
      r := Done;
    }

    method MoveCard(id: CardId, org: OrgId, to: StageId, toIndex: int, now: nat) returns (r: Outcome)
      requires Valid()
      modifies `cards
      ensures Valid()
      ensures r == NotFound <==> !(id in old(cards) && old(cards)[id].org == org)
      ensures r == BadRequest <==> r != NotFound && !(to in stages && stages[to].pipeline == old(cards)[id].pipeline)
      ensures r != Done ==> cards == old(cards)
      ensures r == Done && old(cards)[id].stage == to && old(cards)[id].order == toIndex ==> cards == old(cards)
      ensures r == Done ==> MoveOf(old(cards), cards, id, to, toIndex)
      ensures (r == Done && !(old(cards)[id].stage == to && old(cards)[id].order == toIndex) ==>
                && cards[id].status == (match stages[to].kind case Won => CardWon case Lost => CardLost case Normal => Open)
                && (cards[id].closedAt.None? <==> stages[to].kind.Normal?)
                && (cards[id].closedAt.Some? && old(cards)[id].closedAt.Some? ==> cards[id].closedAt == old(cards)[id].closedAt)
                && (cards[id].closedAt.Some? && old(cards)[id].closedAt.None? ==> cards[id].closedAt == Some(now)))
    {
      if id !in cards || cards[id].org != org {
        return NotFound;
      }
      var card := cards[id];
      if to !in stages || stages[to].pipeline != card.pipeline {
        return BadRequest;
      }
      ghost var before := cards;
      var kind := stages[to].kind;
      MovedStaysSound(pipelines, stages, cards, id, to, toIndex, kind, now);
      if card.stage == to && card.order == toIndex {
        return Done;
      }
      MakeRoom(card, to, toIndex);
      cards := Placed(cards, id, to, toIndex, kind, now);
      r := Done;
    }

    /** The bulk updates of a move, in the order they are issued. */
    method MakeRoom(card: Card, to: StageId, toIndex: int)
      modifies `cards
      ensures cards == MadeRoom(old(cards), card, to, toIndex)
    {
      if card.stage == to {
        if card.order < toIndex {
          cards := Shift(cards, card.pipeline, card.org, card.stage, card.order + 1, Some(toIndex), -1);
        } else {
          cards := Shift(cards, card.pipeline, card.org, card.stage, toIndex, Some(card.order - 1), 1);
        }
      } else {
        cards := Shift(cards, card.pipeline, card.org, card.stage, card.order + 1, None, -1);
        cards := Shift(cards, card.pipeline, card.org, to, toIndex, None, 1);
      }
    }

    /** `rows` are the stages the entries were written to. */
    method UpsertStages(p: PipelineId, org: OrgId, entries: seq<StageEntry>) returns (r: Outcome, rows: seq<StageId>)
      requires Valid()
      modifies `stages
      ensures Valid()
      ensures (r == NotFound <==>
                || !(p in pipelines && pipelines[p] == org)
                || exists i | 0 <= i < |entries| && entries[i].id.Some? ::
                     entries[i].id.value !in old(stages) || old(stages)[entries[i].id.value].pipeline != p)
      ensures (r == BadRequest <==>
                && r != NotFound
                && exists c | c in cards && cards[c].pipeline == p :: forall i | 0 <= i < |entries| :: entries[i].id != Some(cards[c].stage))
      ensures r != Done ==> stages == old(stages)
      ensures (r == Done ==>
                && RowsOf(old(stages), p, entries, |entries|, rows, stages)
                && stages.Keys == (set s | s in old(stages) && old(stages)[s].pipeline != p) + (set s | s in rows)
                && (forall s | s in old(stages) && old(stages)[s].pipeline != p :: stages[s] == old(stages)[s])
                && (forall i | 0 <= i < |rows| && LastForRow(rows, i) ::
                      && stages[rows[i]].pipeline == p
                      && stages[rows[i]].kind == (if entries[i].kind == None then Normal else entries[i].kind.value)
                      && stages[rows[i]].order == (if entries[i].order == None then i else entries[i].order.value)))
    {
      rows := [];
      if !Owns(p, org) {
        return NotFound, rows;
      }
      if !AllKnown(stages, p, entries) {
        return NotFound, rows;
      }
      var gone := Orphans(stages, p, entries);
      HeldExactly(pipelines, stages, cards, p, entries);
      if !Emptied(cards, gone) {
        return BadRequest, rows;
      }
      ghost var before := stages;
      var used := stages.Keys;
      stages := stages - gone;
      rows := WriteRows(p, entries, before, used);
      r := Done;
      UpsertStaysSound(pipelines, before, stages, cards, p, entries, rows);
    }

    /** The creates and updates of upsertStages, after the orphans were deleted; a new stage
        gets an id that was never in use. */
    method WriteRows(p: PipelineId, entries: seq<StageEntry>, ghost before: map<StageId, Stage>, used: set<StageId>) returns (rows: seq<StageId>)
      requires AllKnown(before, p, entries) && used == before.Keys
      requires stages == before - Orphans(before, p, entries)
      modifies `stages
      ensures RowsOf(before, p, entries, |entries|, rows, stages)
      ensures stages.Keys == (before.Keys - Orphans(before, p, entries)) + (set s | s in rows)
      ensures forall s | s in before && before[s].pipeline != p :: s in stages && stages[s] == before[s]
      ensures forall s | s in rows :: stages[s].pipeline == p
    {
      rows := [];
      for i := 0 to |entries|
        invariant RowsOf(before, p, entries, i, rows, stages)
        invariant stages.Keys == (before.Keys - Orphans(before, p, entries)) + (set s | s in rows)
        invariant forall s | s in before && before[s].pipeline != p :: s in stages && stages[s] == before[s]
        invariant forall s | s in rows :: stages[s].pipeline == p && (s in before ==> before[s].pipeline == p)
      {
        ghost var done := rows;
        var s: StageId;
        if entries[i].id.Some? {
          s := entries[i].id.value;
        } else {
          ghost var unused := SomeUnused(stages.Keys + used);
          assert unused !in stages.Keys + used;
          s :| s !in stages.Keys + used;
        }
        rows := rows + [s];
        NextRow(before, p, entries, i, done, stages, s);
        stages := stages[s := Written(p, entries[i], i)];
      }
    }
  }

  /** An orphan holds a card exactly when some card of the pipeline stands in a stage that no
      entry names. */
  lemma HeldExactly(pipelines: map<PipelineId, OrgId>, stages: map<StageId, Stage>, cards: Cards, p: PipelineId, entries: seq<StageEntry>)
    requires Sound(pipelines, stages, cards)
    ensures !Emptied(cards, Orphans(stages, p, entries)) <==>
              exists c | c in cards && cards[c].pipeline == p :: forall i | 0 <= i < |entries| :: entries[i].id != Some(cards[c].stage)
  {
  }

  lemma MoveKeepsPlaces(pipelines: map<PipelineId, OrgId>, stages: map<StageId, Stage>, cards: Cards, cards': Cards,
                        id: CardId, to: StageId, toIndex: int)
    requires Owned(pipelines, cards) && Staged(stages, cards) && id in cards
    requires to in stages && stages[to].pipeline == cards[id].pipeline && MoveOf(cards, cards', id, to, toIndex)
    ensures Owned(pipelines, cards') && Staged(stages, cards')
  {
  }

  lemma CreateStaysSound(pipelines: map<PipelineId, OrgId>, stages: map<StageId, Stage>, cards: Cards, id: CardId, c: Card)
    requires Sound(pipelines, stages, cards) && id !in cards
    requires c.pipeline in pipelines && pipelines[c.pipeline] == c.org
    requires c.stage in stages && stages[c.stage].pipeline == c.pipeline
    requires NextOrder(cards, c.pipeline, c.stage, c.order)
    ensures Sound(pipelines, stages, cards[id := c])
  {
  }

  /** The whole move, as one step on the board. */
  lemma MovedStaysSound(pipelines: map<PipelineId, OrgId>, stages: map<StageId, Stage>, cards: Cards,
                        id: CardId, to: StageId, toIndex: int, kind: StageType, now: nat)
    requires Sound(pipelines, stages, cards) && id in cards
    requires to in stages && stages[to].pipeline == cards[id].pipeline
    ensures MoveOf(cards, Moved(cards, id, to, toIndex, kind, now), id, to, toIndex)
    ensures Sound(pipelines, stages, Moved(cards, id, to, toIndex, kind, now))
  {
    var cards' := Moved(cards, id, to, toIndex, kind, now);
    MovedIsMove(pipelines, stages, cards, id, to, toIndex, kind, now);
    MoveKeepsDistinct(cards, cards', id, to, toIndex);
    MoveKeepsPlaces(pipelines, stages, cards, cards', id, to, toIndex);
  }

  /** No card loses its stage when the orphans go. */
  lemma UpsertStaysSound(pipelines: map<PipelineId, OrgId>, before: map<StageId, Stage>, stages: map<StageId, Stage>,
                         cards: Cards, p: PipelineId, entries: seq<StageEntry>, rows: seq<StageId>)
    requires Sound(pipelines, before, cards)
    requires AllKnown(before, p, entries) && Emptied(cards, Orphans(before, p, entries))
    requires RowsOf(before, p, entries, |entries|, rows, stages)
    requires stages.Keys == (before.Keys - Orphans(before, p, entries)) + (set s | s in rows)
    requires forall s | s in before && before[s].pipeline != p :: s in stages && stages[s] == before[s]
    requires forall s | s in rows :: stages[s].pipeline == p
    ensures Sound(pipelines, stages, cards)
    ensures stages.Keys == (set s | s in before && before[s].pipeline != p) + (set s | s in rows)
  {
  }

  lemma NextRow(before: map<StageId, Stage>, p: PipelineId, entries: seq<StageEntry>, i: nat, rows: seq<StageId>,
                stages: map<StageId, Stage>, s: StageId)
    requires i < |entries| && RowsOf(before, p, entries, i, rows, stages)
    requires if entries[i].id.Some? then s == entries[i].id.value else s !in before && s !in rows
    ensures RowsOf(before, p, entries, i + 1, rows + [s], stages[s := Written(p, entries[i], i)])
  {
    NextNamed(before, entries, rows, s);
    NextWritten(p, entries, rows, stages, s);
  }

  lemma NextNamed(before: map<StageId, Stage>, entries: seq<StageEntry>, rows: seq<StageId>, s: StageId)
    requires |rows| < |entries| && RowsNamed(before, entries, rows) && NewRowsDiffer(entries, rows)
    requires if entries[|rows|].id.Some? then s == entries[|rows|].id.value else s !in before && s !in rows
    ensures RowsNamed(before, entries, rows + [s]) && NewRowsDiffer(entries, rows + [s])
  {
  }

  lemma NextWritten(p: PipelineId, entries: seq<StageEntry>, rows: seq<StageId>, stages: map<StageId, Stage>, s: StageId)
    requires |rows| < |entries| && RowsWritten(p, entries, rows, stages)
    ensures RowsWritten(p, entries, rows + [s], stages[s := Written(p, entries[|rows|], |rows|)])
  {
    var more := rows + [s];
    var stages' := stages[s := Written(p, entries[|rows|], |rows|)];
    forall j | 0 <= j < |more| && LastForRow(more, j) ensures more[j] in stages' && stages'[more[j]] == Written(p, entries[j], j) {
      if j < |rows| {
        StillLast(rows, s, j);
      }
    }
  }

  lemma StillLast(rows: seq<StageId>, s: StageId, j: nat)
    requires j < |rows| && LastForRow(rows + [s], j)
    ensures LastForRow(rows, j) && rows[j] != s
  {
    var more := rows + [s];
    assert more[|rows|] == s;
    forall k | j < k < |rows| ensures rows[k] != rows[j] {
      assert more[k] == rows[k];
    }
  }
}
