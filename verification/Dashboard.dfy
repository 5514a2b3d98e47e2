/** Daily series of the dashboard: which days a range has, and what each day's bucket counts. */
module Dashboard {
  import opened Options

  const DAY_MS: nat := 86_400_000
  const MINUTE_MS: nat := 60_000

  /** Days are numbered from the epoch; times are milliseconds, in UTC. */
  function DayOf(time: int): int {
    time / DAY_MS
  }

  function Midnight(day: int): int {
    day * DAY_MS
  }

  lemma DayOfMidnight(day: int)
    ensures DayOf(Midnight(day)) == day
  {
  }

  lemma DaysInOrder(a: int, b: int)
    requires a <= b
    ensures DayOf(a) <= DayOf(b)
  {
  }

  /** Every day from the first to the last, in order. */
  function DaysBetween(first: int, last: int): seq<int> {
    if last < first then [] else seq(last - first + 1, i => first + i)
  }

  /** The loop over midnights. */
  method EachDay(from: int, to: int) returns (days: seq<int>)
    ensures days == DaysBetween(DayOf(from), DayOf(to))
  {
    days := [];
    var cur, end := Midnight(DayOf(from)), Midnight(DayOf(to));
    ghost var day := DayOf(from);
    while cur <= end
      invariant cur == Midnight(day) && DayOf(from) <= day
      invariant days == DaysBetween(DayOf(from), day - 1)
      invariant day <= DayOf(to) + 1 || days == []
      decreases end - cur
    {
      DayOfMidnight(day);
      days := days + [DayOf(cur)];
      cur := cur + DAY_MS;
      day := day + 1;
    }
  }

  /** Every time in the range falls on exactly one of the days. */
  lemma RangeIsCovered(from: int, to: int, time: int)
    requires from <= time <= to
    ensures var days := DaysBetween(DayOf(from), DayOf(to));
            && 0 <= DayOf(time) - DayOf(from) < |days|
            && forall i | 0 <= i < |days| :: days[i] == DayOf(time) <==> i == DayOf(time) - DayOf(from)
  {
  }

  /** A time lies on a day: the day's 86,400,000 milliseconds. */
  predicate OnDay(time: int, day: int) {
    86_400_000 * day <= time < 86_400_000 * (day + 1)
  }

  lemma DayOfExactly(time: int, day: int)
    ensures DayOf(time) == day <==> OnDay(time, day)
  {
  }

  /** The days of a range: consecutive, from the one the range starts on to the one it ends on. */
  ghost predicate DaysOf(from: int, to: int, days: seq<int>) {
    && (forall i | 0 <= i < |days| :: days[i] == days[0] + i)
    && (from <= to ==> days != [] && OnDay(from, days[0]) && OnDay(to, days[|days| - 1]))
  }

  lemma ListsTheDays(from: int, to: int)
    ensures DaysOf(from, to, DaysBetween(DayOf(from), DayOf(to)))
  {
    DayOfExactly(from, DayOf(from));
    DayOfExactly(to, DayOf(to));
    if from <= to {
      DaysInOrder(from, to);
    }
  }

  /** How many rows meet the condition. */
  ghost function CountOf<T>(rows: seq<T>, cond: T -> bool): nat {
    |set i | 0 <= i < |rows| && cond(rows[i])|
  }

  lemma CountGrows<T>(rows: seq<T>, cond: T -> bool)
    requires rows != []
    ensures var n := |rows| - 1; CountOf(rows, cond) == CountOf(rows[..n], cond) + if cond(rows[n]) then 1 else 0
  {
    var n := |rows| - 1;
    var all, fewer := set i | 0 <= i < |rows| && cond(rows[i]), set i | 0 <= i < |rows[..n]| && cond(rows[..n][i]);
    assert all == fewer + if cond(rows[n]) then {n} else {};
  }

  // ---------------------------------------------------------------- messages per day

  datatype Message = Message(createdAt: int, inbound: bool)

  datatype Flow = Flow(inbound: nat, outbound: nat)

  /** The count of one day, straight from the rows. */
  function FlowOn(messages: seq<Message>, day: int): Flow {
    if messages == [] then Flow(0, 0)
    else
      var rest, m := FlowOn(messages[..|messages| - 1], day), messages[|messages| - 1];
      if DayOf(m.createdAt) != day then rest
      else if m.inbound then rest.(inbound := rest.inbound + 1)
      else rest.(outbound := rest.outbound + 1)
  }

  function FlowsOver(messages: seq<Message>, days: seq<int>): (flows: seq<Flow>)
    ensures |flows| == |days|
  {
    seq(|days|, i requires 0 <= i < |days| => FlowOn(messages, days[i]))
  }

  lemma {:induction false} FlowCounts(messages: seq<Message>, day: int)
    ensures FlowOn(messages, day).inbound == CountOf(messages, (m: Message) => m.inbound && OnDay(m.createdAt, day))
    ensures FlowOn(messages, day).outbound == CountOf(messages, (m: Message) => !m.inbound && OnDay(m.createdAt, day))
  {
    if messages != [] {
      var n := |messages| - 1;
      FlowCounts(messages[..n], day);
      CountGrows(messages, (m: Message) => m.inbound && OnDay(m.createdAt, day));
      CountGrows(messages, (m: Message) => !m.inbound && OnDay(m.createdAt, day));
      DayOfExactly(messages[n].createdAt, day);
    }
  }

  method GetMessagesFlow(from: int, to: int, messages: seq<Message>) returns (days: seq<int>, flows: seq<Flow>)
    ensures days == DaysBetween(DayOf(from), DayOf(to)) && flows == FlowsOver(messages, days)
    ensures DaysOf(from, to, days)
    ensures (forall i | 0 <= i < |days| ::
              && flows[i].inbound == CountOf(messages, (m: Message) => m.inbound && OnDay(m.createdAt, days[i]))
              && flows[i].outbound == CountOf(messages, (m: Message) => !m.inbound && OnDay(m.createdAt, days[i])))
  {
    days := EachDay(from, to);
    var buckets := map d | d in days :: Flow(0, 0);
    for i := 0 to |messages|
      invariant buckets.Keys == set d | d in days
      invariant forall d | d in days :: buckets[d] == FlowOn(messages[..i], d)
    {
      var k := DayOf(messages[i].createdAt);
      assert messages[..i + 1][..i] == messages[..i];
      if k in buckets {
        var b := buckets[k];
        buckets := buckets[k := if messages[i].inbound then b.(inbound := b.inbound + 1) else b.(outbound := b.outbound + 1)];
      }
    }
    assert messages[..|messages|] == messages;
    flows := seq(|days|, i requires 0 <= i < |days| => buckets[days[i]]);
    ListsTheDays(from, to);
    forall i | 0 <= i < |days|
      ensures flows[i].inbound == CountOf(messages, (m: Message) => m.inbound && OnDay(m.createdAt, days[i]))
      ensures flows[i].outbound == CountOf(messages, (m: Message) => !m.inbound && OnDay(m.createdAt, days[i]))
    {
      FlowCounts(messages, days[i]);
    }
  }

  function Total(flows: seq<Flow>): nat {
    if flows == [] then 0 else Total(flows[..|flows| - 1]) + flows[|flows| - 1].inbound + flows[|flows| - 1].outbound
  }

  /** One more message of day `d` adds one to the total, wherever the day stands in the list. */
  lemma {:induction false} OneMoreCounts(messages: seq<Message>, m: Message, first: int, n: nat)
    ensures Total(FlowsOver(messages + [m], DaysBetween(first, first + n - 1)))
         == Total(FlowsOver(messages, DaysBetween(first, first + n - 1))) + if first <= DayOf(m.createdAt) < first + n then 1 else 0
  {
    var days := DaysBetween(first, first + n - 1);
    assert (messages + [m])[..|messages + [m]| - 1] == messages;
    if n > 0 {
      OneMoreCounts(messages, m, first, n - 1);
      var fewer := DaysBetween(first, first + n - 2);
      assert FlowsOver(messages, days)[..n - 1] == FlowsOver(messages, fewer);
      assert FlowsOver(messages + [m], days)[..n - 1] == FlowsOver(messages + [m], fewer);
    }
  }

  lemma {:induction false} NothingCounts(days: seq<int>)
    ensures Total(FlowsOver([], days)) == 0
  {
    if days != [] {
      NothingCounts(days[..|days| - 1]);
      assert FlowsOver([], days)[..|days| - 1] == FlowsOver([], days[..|days| - 1]);
    }
  }

  /** Bucketing drops nothing: the series adds up to the rows fetched for the range. */
  lemma {:induction false} SeriesAddsUp(from: int, to: int, messages: seq<Message>)
    requires forall m | m in messages :: from <= m.createdAt <= to
    ensures Total(FlowsOver(messages, DaysBetween(DayOf(from), DayOf(to)))) == |messages|
  {
    if messages == [] {
      NothingCounts(DaysBetween(DayOf(from), DayOf(to)));
    } else {
      var rest, m := messages[..|messages| - 1], messages[|messages| - 1];
      SeriesAddsUp(from, to, rest);
      DaysInOrder(from, m.createdAt);
      DaysInOrder(m.createdAt, to);
      assert messages == rest + [m];
      OneMoreCounts(rest, m, DayOf(from), DayOf(to) - DayOf(from) + 1);
    }
  }

  // ---------------------------------------------------------------- conversations per day

  datatype Conversation = Conversation(createdAt: int, firstResponseAt: Option<int>, closedAt: Option<int>, closed: bool)

  /** `waited` adds up the milliseconds until the first response. */
  datatype Bucket = Bucket(created: nat, closed: nat, waited: int, answered: nat, slaWithin: nat, slaCount: nat)

  const EmptyBucket := Bucket(0, 0, 0, 0, 0, 0)

  function Waited(c: Conversation): int
    requires c.firstResponseAt.Some?
  {
    c.firstResponseAt.value - c.createdAt
  }

  predicate ClosedWithin(c: Conversation, from: int, to: int) {
    c.closed && c.closedAt.Some? && from <= c.closedAt.value <= to
  }

  function Counted(b: Bucket, c: Conversation, sla: Option<int>, from: int, to: int): Bucket {
    var answered := c.firstResponseAt.Some?;
    Bucket(b.created + 1,
           if ClosedWithin(c, from, to) then b.closed + 1 else b.closed,
           if answered then b.waited + Waited(c) else b.waited,
           if answered then b.answered + 1 else b.answered,
           if answered && sla.Some? && Waited(c) <= sla.value * MINUTE_MS then b.slaWithin + 1 else b.slaWithin,
           if answered && sla.Some? then b.slaCount + 1 else b.slaCount)
  }

  /** The bucket of one day, straight from the rows. */
  function BucketOn(rows: seq<Conversation>, day: int, sla: Option<int>, from: int, to: int): Bucket {
    if rows == [] then EmptyBucket
    else
      var rest, c := BucketOn(rows[..|rows| - 1], day, sla, from, to), rows[|rows| - 1];
      if DayOf(c.createdAt) == day then Counted(rest, c, sla, from, to) else rest
  }

  /** Math.round: to the nearest integer, halves up. */
  function Round(numerator: int, denominator: nat): int
    requires denominator > 0
  {
    (2 * numerator + denominator) / (2 * denominator)
  }

  function Percent(part: nat, whole: nat): int {
    if whole > 0 then Round(100 * part, whole) else 0
  }

  /** The four values of one day. */
  datatype Point = Point(active: nat, firstResponse: int, sla: int, resolution: int)

  function PointOf(b: Bucket): Point {
    Point(b.created, if b.answered > 0 then Round(b.waited, b.answered * MINUTE_MS) else 0,
          Percent(b.slaWithin, b.slaCount), Percent(b.closed, b.created))
  }

  /** `r` is the nearest integer to numerator / denominator, halves up, and 0 for no denominator. */
  predicate IsNearest(r: int, numerator: int, denominator: int) {
    if denominator > 0 then 2 * r * denominator <= 2 * numerator + denominator < 2 * (r + 1) * denominator else r == 0
  }

  /** The milliseconds the day's conversations waited for their first response, together. */
  function WaitedOn(rows: seq<Conversation>, day: int): int {
    if rows == [] then 0
    else
      var c := rows[|rows| - 1];
      WaitedOn(rows[..|rows| - 1], day) + if OnDay(c.createdAt, day) && c.firstResponseAt.Some? then c.firstResponseAt.value - c.createdAt else 0
  }

  predicate AnsweredIn(c: Conversation, minutes: int) {
    c.firstResponseAt.Some? && c.firstResponseAt.value - c.createdAt <= minutes * 60_000
  }

  predicate ClosedBy(c: Conversation, from: int, to: int) {
    c.closed && c.closedAt.Some? && from <= c.closedAt.value && c.closedAt.value <= to
  }

  ghost function Made(rows: seq<Conversation>, day: int): nat {
    CountOf(rows, (c: Conversation) => OnDay(c.createdAt, day))
  }

  ghost function Closed(rows: seq<Conversation>, day: int, from: int, to: int): nat {
    CountOf(rows, (c: Conversation) => OnDay(c.createdAt, day) && ClosedBy(c, from, to))
  }

  ghost function Answered(rows: seq<Conversation>, day: int): nat {
    CountOf(rows, (c: Conversation) => OnDay(c.createdAt, day) && c.firstResponseAt.Some?)
  }

  ghost function OnTime(rows: seq<Conversation>, day: int, minutes: int): nat {
    CountOf(rows, (c: Conversation) => OnDay(c.createdAt, day) && AnsweredIn(c, minutes))
  }

  lemma {:induction false} BucketCounts(rows: seq<Conversation>, day: int, sla: Option<int>, from: int, to: int)
    ensures var b := BucketOn(rows, day, sla, from, to);
            && b.created == Made(rows, day) && b.closed == Closed(rows, day, from, to)
            && b.answered == Answered(rows, day) && b.waited == WaitedOn(rows, day)
            && b.slaCount == (if sla.Some? then Answered(rows, day) else 0)
            && b.slaWithin == (if sla.Some? then OnTime(rows, day, sla.value) else 0)
  {
    if rows != [] {
      var n := |rows| - 1;
      BucketCounts(rows[..n], day, sla, from, to);
      DayOfExactly(rows[n].createdAt, day);
      CountGrows(rows, (c: Conversation) => OnDay(c.createdAt, day));
      CountGrows(rows, (c: Conversation) => OnDay(c.createdAt, day) && ClosedBy(c, from, to));
      CountGrows(rows, (c: Conversation) => OnDay(c.createdAt, day) && c.firstResponseAt.Some?);
      if sla.Some? {
        CountGrows(rows, (c: Conversation) => OnDay(c.createdAt, day) && AnsweredIn(c, sla.value));
      }
    }
  }

  /** One day's point, from the rows: its conversations, the average wait in minutes, the
      percentage answered in time and the percentage closed in the range. */
  ghost predicate IsPointOf(pt: Point, rows: seq<Conversation>, day: int, sla: Option<int>, from: int, to: int) {
    && pt.active == Made(rows, day)
    && IsNearest(pt.firstResponse, WaitedOn(rows, day), 60_000 * Answered(rows, day))
    && (if sla.Some? then IsNearest(pt.sla, 100 * OnTime(rows, day, sla.value), Answered(rows, day)) else pt.sla == 0)
    && IsNearest(pt.resolution, 100 * Closed(rows, day, from, to), Made(rows, day))
  }

  lemma PointIs(rows: seq<Conversation>, day: int, sla: Option<int>, from: int, to: int)
    ensures IsPointOf(PointOf(BucketOn(rows, day, sla, from, to)), rows, day, sla, from, to)
  {
    var b := BucketOn(rows, day, sla, from, to);
    BucketCounts(rows, day, sla, from, to);
    RoundsIfAny(b.waited, b.answered * MINUTE_MS);
    RoundsIfAny(100 * b.slaWithin, b.slaCount);
    RoundsIfAny(100 * b.closed, b.created);
  }

  lemma RoundsIfAny(numerator: int, denominator: nat)
    ensures IsNearest(if denominator > 0 then Round(numerator, denominator) else 0, numerator, denominator)
  {
    if denominator > 0 {
      RoundIsNearest(numerator, denominator);
    }
  }

  /** The counters of one row, one after the other. */
  method CountRow(bucket: Bucket, c: Conversation, sla: Option<int>, from: int, to: int) returns (b: Bucket)
    ensures b == Counted(bucket, c, sla, from, to)
  {
    b := bucket.(created := bucket.created + 1);
    if c.firstResponseAt.Some? {
      b := b.(waited := b.waited + Waited(c), answered := b.answered + 1);
      if sla.Some? {
        b := b.(slaCount := b.slaCount + 1);
        if Waited(c) <= sla.value * MINUTE_MS {
          b := b.(slaWithin := b.slaWithin + 1);
        }
      }
    }
    if ClosedWithin(c, from, to) {
      b := b.(closed := b.closed + 1);
    }
  }

  method GetKpiSparklines(from: int, to: int, sla: Option<int>, rows: seq<Conversation>) returns (days: seq<int>, points: seq<Point>)
    ensures days == DaysBetween(DayOf(from), DayOf(to)) && |points| == |days|
    ensures forall i | 0 <= i < |days| :: points[i] == PointOf(BucketOn(rows, days[i], sla, from, to))
    ensures forall i | 0 <= i < |days| :: 0 <= points[i].sla <= 100 && 0 <= points[i].resolution <= 100
    ensures DaysOf(from, to, days)
    ensures forall i | 0 <= i < |days| :: IsPointOf(points[i], rows, days[i], sla, from, to)
  {
    days := EachDay(from, to);
    ListsTheDays(from, to);
    var buckets := map d | d in days :: EmptyBucket;
    for i := 0 to |rows|
      invariant buckets.Keys == set d | d in days
      invariant forall d | d in days :: buckets[d] == BucketOn(rows[..i], d, sla, from, to)
    {
      var c := rows[i];
      assert rows[..i + 1][..i] == rows[..i];
      var k := DayOf(c.createdAt);
      if k in buckets {
        var b := CountRow(buckets[k], c, sla, from, to);
        buckets := buckets[k := b];
      }
    }
    assert rows[..|rows|] == rows;
    points := seq(|days|, i requires 0 <= i < |days| => PointOf(buckets[days[i]]));
    PointsAre(rows, days, points, sla, from, to);
  }

  lemma PointsAre(rows: seq<Conversation>, days: seq<int>, points: seq<Point>, sla: Option<int>, from: int, to: int)
    requires |points| == |days| && forall i | 0 <= i < |days| :: points[i] == PointOf(BucketOn(rows, days[i], sla, from, to))
    ensures forall i | 0 <= i < |days| :: 0 <= points[i].sla <= 100 && 0 <= points[i].resolution <= 100
    ensures forall i | 0 <= i < |days| :: IsPointOf(points[i], rows, days[i], sla, from, to)
  {
    forall i | 0 <= i < |days| ensures 0 <= points[i].sla <= 100 && 0 <= points[i].resolution <= 100 {
      RatesArePercentages(rows, days[i], sla, from, to);
    }
    forall i | 0 <= i < |days| ensures IsPointOf(points[i], rows, days[i], sla, from, to) {
      PointIs(rows, days[i], sla, from, to);
    }
  }

  lemma {:induction false} PartsFit(rows: seq<Conversation>, day: int, sla: Option<int>, from: int, to: int)
    ensures var b := BucketOn(rows, day, sla, from, to);
            b.slaWithin <= b.slaCount <= b.answered <= b.created && b.closed <= b.created
  {
    if rows != [] {
      PartsFit(rows[..|rows| - 1], day, sla, from, to);
    }
  }

  lemma PercentIsOne(part: nat, whole: nat)
    requires part <= whole
    ensures 0 <= Percent(part, whole) <= 100
    ensures whole > 0 && part == whole ==> Percent(part, whole) == 100
  {
    if whole > 0 {
      var x, d := 200 * part + whole, 2 * whole;
      assert x < 101 * d;
      QuotientBelow(x, d, 101);
      if part == whole {
        assert 100 * d <= x;
        QuotientAbove(x, d, 100);
      }
    }
  }

  lemma TimesGrows(a: int, b: int, d: nat)
    requires a <= b
    ensures a * d <= b * d
  {
  }

  lemma QuotientBelow(x: nat, d: nat, k: int)
    requires d > 0 && x < k * d
    ensures x / d < k
  {
  }

  lemma QuotientAbove(x: nat, d: nat, k: int)
    requires d > 0 && k * d <= x
    ensures k <= x / d
  {
    assert x == (x / d) * d + x % d;
    if x / d + 1 <= k {
      TimesGrows(x / d + 1, k, d);
    }
  }

  /** Every rate of every day is between 0 and 100, whatever the rows. */
  lemma RatesArePercentages(rows: seq<Conversation>, day: int, sla: Option<int>, from: int, to: int)
    ensures var p := PointOf(BucketOn(rows, day, sla, from, to));
            0 <= p.sla <= 100 && 0 <= p.resolution <= 100
  {
    var b := BucketOn(rows, day, sla, from, to);
    PartsFit(rows, day, sla, from, to);
    PercentIsOne(b.slaWithin, b.slaCount);
    PercentIsOne(b.closed, b.created);
  }

  /** Math.round stays within half of the exact quotient. */
  lemma RoundIsNearest(numerator: int, denominator: nat)
    requires denominator > 0
    ensures var r := Round(numerator, denominator);
            2 * r * denominator <= 2 * numerator + denominator < 2 * (r + 1) * denominator
  {
  }

  function AsMessages(rows: seq<Conversation>): (messages: seq<Message>)
    ensures |messages| == |rows|
  {
    seq(|rows|, i requires 0 <= i < |rows| => Message(rows[i].createdAt, true))
  }

  lemma {:induction false} CreatedIsFlow(rows: seq<Conversation>, day: int, sla: Option<int>, from: int, to: int)
    ensures FlowOn(AsMessages(rows), day) == Flow(BucketOn(rows, day, sla, from, to).created, 0)
  {
    if rows != [] {
      var n := |rows| - 1;
      CreatedIsFlow(rows[..n], day, sla, from, to);
      assert AsMessages(rows)[..n] == AsMessages(rows[..n]);
    }
  }

  /** The conversations created per day add up to the rows fetched for the range. */
  lemma CreatedAddsUp(from: int, to: int, sla: Option<int>, rows: seq<Conversation>)
    requires forall c | c in rows :: from <= c.createdAt <= to
    ensures var days := DaysBetween(DayOf(from), DayOf(to));
            Total(seq(|days|, i requires 0 <= i < |days| => Flow(BucketOn(rows, days[i], sla, from, to).created, 0))) == |rows|
  {
    var days := DaysBetween(DayOf(from), DayOf(to));
    forall i | 0 <= i < |days| ensures FlowOn(AsMessages(rows), days[i]) == Flow(BucketOn(rows, days[i], sla, from, to).created, 0) {
      CreatedIsFlow(rows, days[i], sla, from, to);
    }
    assert FlowsOver(AsMessages(rows), days) == seq(|days|, i requires 0 <= i < |days| => Flow(BucketOn(rows, days[i], sla, from, to).created, 0));
    forall m | m in AsMessages(rows) ensures from <= m.createdAt <= to {
      var i :| 0 <= i < |rows| && AsMessages(rows)[i] == m;
      assert rows[i] in rows;
    }
    SeriesAddsUp(from, to, AsMessages(rows));
  }
}
