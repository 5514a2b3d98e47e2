/** The rotation of conversations among the agents of a department. */
module RoundRobin {
  import opened Options

  /** Organization and department. */
  datatype Key = Key(org: nat, department: nat)

  type UserId = nat

  // ---------------------------------------------------------------- shares

  /** How many of the `m` cursor values from `i` on fall on position `a` of a list of `n`. */
  function Share(i: nat, m: nat, n: nat, a: nat): nat
    requires n > 0
  {
    if m == 0 then 0 else Share(i, m - 1, n, a) + if (i + m - 1) % n == a then 1 else 0
  }

  lemma {:induction false} ShareSplit(i: nat, m: nat, k: nat, n: nat, a: nat)
    requires n > 0
    ensures Share(i, m + k, n, a) == Share(i, m, n, a) + Share(i + m, k, n, a)
  {
    if k > 0 {
      ShareSplit(i, m, k - 1, n, a);
    }
  }

  lemma ModUnique(q: nat, n: nat, r: nat)
    requires r < n
    ensures (q * n + r) % n == r
  {
    var x := q * n + r;
    var d := x / n - q;
    assert d * n == r - x % n;
    assert 0 - n < d * n < n;
    DivisorOfSmall(d, n);
  }

  lemma DivisorOfSmall(d: int, n: nat)
    requires 0 - n < d * n < n
    ensures d == 0
  {
  }

  /** Fewer than a full round visits a position at most once: from `i`, exactly the positions
      that lie within `m` steps. */
  lemma {:induction false} ShareOfPart(i: nat, m: nat, n: nat, a: nat)
    requires a < n && m <= n
    ensures Share(i, m, n, a) == if (if a >= i % n then a - i % n else a + n - i % n) < m then 1 else 0
  {
    if m > 0 {
      ShareOfPart(i, m - 1, n, a);
      ModAhead(i, m - 1, n);
    }
  }

  lemma ModAhead(i: nat, k: nat, n: nat)
    requires k < n
    ensures (i + k) % n == if i % n + k < n then i % n + k else i % n + k - n
  {
    var q, r := i / n, i % n;
    assert i == q * n + r;
    if r + k < n {
      ModUnique(q, n, r + k);
      assert i + k == q * n + (r + k);
    } else {
      ModUnique(q + 1, n, r + k - n);
      assert i + k == (q + 1) * n + (r + k - n);
    }
  }

  /** Any `m` consecutive picks give a position floor(m / n) or ceil(m / n) of them. */
  lemma {:induction false} ShareIsFair(i: nat, m: nat, n: nat, a: nat)
    requires a < n
    ensures m / n <= Share(i, m, n, a) <= (m + n - 1) / n
    decreases m
  {
    if m < n {
      ShareOfPart(i, m, n, a);
      SmallDivision(m, n);
    } else {
      ShareIsFair(i + n, m - n, n, a);
      ShareSplit(i, n, m - n, n, a);
      ShareOfPart(i, n, n, a);
      OneRoundLess(m, n);
    }
  }

  lemma SmallDivision(m: nat, n: nat)
    requires m < n
    ensures m / n == 0 && (m + n - 1) / n == if m == 0 then 0 else 1
  {
  }

  lemma OneRoundLess(m: nat, n: nat)
    requires 0 < n <= m
    ensures m / n == (m - n) / n + 1 && (m + n - 1) / n == (m - n + n - 1) / n + 1
  {
    DivisionLess(m, n);
    DivisionLess(m + n - 1, n);
  }

  lemma DivisionLess(x: nat, n: nat)
    requires 0 < n <= x
    ensures x / n == (x - n) / n + 1
  {
    var q, r := (x - n) / n, (x - n) % n;
    assert x == (q + 1) * n + r;
    ModUnique(q + 1, n, r);
    assert (x / n - (q + 1)) * n == 0;
    DivisorOfSmall(x / n - (q + 1), n);
  }

  // ---------------------------------------------------------------- the router

  class Router {
    var rrIndex: map<Key, nat>

    constructor ()
      ensures rrIndex == map[]
    {
      rrIndex := map[];
    }

    function Cursor(key: Key): nat
      reads this
    {
      if key in rrIndex then rrIndex[key] else 0
    }

    /** A key that was never asked for starts at the first agent of its list. */
    lemma StartsAtTheFirst(key: Key, agents: seq<UserId>)
      requires agents != [] && key !in rrIndex
      ensures agents[Cursor(key) % |agents|] == agents[0]
    {
    }

    /** The pick of assignConversation among the agents found; with no agents it refuses. */
    method Pick(key: Key, agents: seq<UserId>) returns (pick: Option<UserId>)
      modifies this
      ensures pick.None? <==> agents == []
      ensures agents == [] ==> rrIndex == old(rrIndex)
      ensures agents != [] ==> pick == Some(agents[old(Cursor(key)) % |agents|])
      ensures agents != [] ==> rrIndex == old(rrIndex)[key := old(Cursor(key)) + 1]
    {
      if agents == [] {
        return None;
      }
      var idx := Cursor(key);
      pick := Some(agents[idx % |agents|]);
      rrIndex := rrIndex[key := idx + 1];
    }

    /** Any number of assignments for any keys, each department with its fixed list of agents.
        However they interleave, every agent's share is within one of every other's. */
    method AssignAll(requests: seq<Key>, agents: map<Key, seq<UserId>>) returns (picks: seq<UserId>)
      requires forall k | k in requests :: k in agents && agents[k] != []
      modifies this
      ensures |picks| == |requests|
      ensures forall k :: Cursor(k) == old(Cursor(k)) + Asked(requests, k)
      ensures forall k | k in agents && agents[k] != [] :: Goes(requests, picks, k, agents[k], old(Cursor(k)))
      ensures forall k, u | k in agents && u in agents[k] && Distinct(agents[k]) ::
                Asked(requests, k) / |agents[k]| <= Given(requests, picks, k, u) <= (Asked(requests, k) + |agents[k]| - 1) / |agents[k]|
    {
      picks := [];
      for i := 0 to |requests|
        invariant |picks| == i
        invariant forall k :: Cursor(k) == old(Cursor(k)) + Asked(requests[..i], k)
        invariant forall k | k in agents && agents[k] != [] :: Goes(requests[..i], picks, k, agents[k], old(Cursor(k)))
      {
        var asked := requests[i];
        var pick := Pick(asked, agents[asked]);
        assert requests[..i + 1] == requests[..i] + [asked];
        forall k | k in agents && agents[k] != []
          ensures Goes(requests[..i + 1], picks + [pick.value], k, agents[k], old(Cursor(k)))
        {
          GoesOn(requests[..i], picks, k, agents[k], old(Cursor(k)), asked, pick.value);
        }
        assert requests[..i + 1][..i] == requests[..i];
        picks := picks + [pick.value];
      }
      assert requests[..|requests|] == requests;
      forall k, u | k in agents && u in agents[k] && Distinct(agents[k])
        ensures Asked(requests, k) / |agents[k]| <= Given(requests, picks, k, u) <= (Asked(requests, k) + |agents[k]| - 1) / |agents[k]|
      {
        EveryShareIsFair(requests, picks, k, agents[k], old(Cursor(k)), u);
      }
    }
  }

  // ---------------------------------------------------------------- runs of one key

  /** How many of the requests are for the key. */
  function Asked(requests: seq<Key>, k: Key): nat {
    if requests == [] then 0
    else Asked(requests[..|requests| - 1], k) + if requests[|requests| - 1] == k then 1 else 0
  }

  /** How many of them went to the user. */
  function Given(requests: seq<Key>, picks: seq<UserId>, k: Key, u: UserId): nat
    requires |picks| == |requests|
  {
    if requests == [] then 0
    else
      var n := |requests| - 1;
      Given(requests[..n], picks[..n], k, u) + if requests[n] == k && picks[n] == u then 1 else 0
  }

  predicate Distinct(agents: seq<UserId>) {
    forall i, j | 0 <= i < j < |agents| :: agents[i] != agents[j]
  }

  /** The picks for the key go around the list, starting at the cursor. */
  ghost predicate Goes(requests: seq<Key>, picks: seq<UserId>, k: Key, agents: seq<UserId>, cursor: nat)
    requires |picks| == |requests|
  {
    agents != [] && forall j | 0 <= j < |requests| && requests[j] == k :: picks[j] == agents[(cursor + Asked(requests[..j], k)) % |agents|]
  }

  lemma GoesOn(requests: seq<Key>, picks: seq<UserId>, k: Key, agents: seq<UserId>, cursor: nat, asked: Key, pick: UserId)
    requires |picks| == |requests| && Goes(requests, picks, k, agents, cursor)
    requires asked == k ==> pick == agents[(cursor + Asked(requests, k)) % |agents|]
    ensures Goes(requests + [asked], picks + [pick], k, agents, cursor)
  {
    var requests', picks' := requests + [asked], picks + [pick];
    forall j | 0 <= j < |requests'| && requests'[j] == k ensures picks'[j] == agents[(cursor + Asked(requests'[..j], k)) % |agents|] {
      if j < |requests| {
        assert requests'[..j] == requests[..j] && requests'[j] == requests[j];
      } else {
        assert requests'[..j] == requests;
      }
    }
  }

  lemma GoesBefore(requests: seq<Key>, picks: seq<UserId>, k: Key, agents: seq<UserId>, cursor: nat)
    requires |picks| == |requests| > 0 && Goes(requests, picks, k, agents, cursor)
    ensures Goes(requests[..|requests| - 1], picks[..|picks| - 1], k, agents, cursor)
  {
    var n := |requests| - 1;
    forall j | 0 <= j < n && requests[..n][j] == k ensures picks[..n][j] == agents[(cursor + Asked(requests[..n][..j], k)) % |agents|] {
      assert requests[..n][..j] == requests[..j];
    }
  }

  /** What a user was given is the share of the position the user has in the list. */
  lemma {:induction false} GivenIsShare(requests: seq<Key>, picks: seq<UserId>, k: Key, agents: seq<UserId>, cursor: nat, a: nat)
    requires |picks| == |requests| && Goes(requests, picks, k, agents, cursor) && Distinct(agents) && a < |agents|
    ensures Given(requests, picks, k, agents[a]) == Share(cursor, Asked(requests, k), |agents|, a)
  {
    if requests != [] {
      var n := |requests| - 1;
      GoesBefore(requests, picks, k, agents, cursor);
      GivenIsShare(requests[..n], picks[..n], k, agents, cursor, a);
      if requests[n] == k {
        OnePick(requests, picks, k, agents, cursor, a, n);
      }
    }
  }

  lemma OnePick(requests: seq<Key>, picks: seq<UserId>, k: Key, agents: seq<UserId>, cursor: nat, a: nat, n: nat)
    requires |picks| == |requests| && Goes(requests, picks, k, agents, cursor) && Distinct(agents) && a < |agents|
    requires n < |requests| && requests[n] == k
    ensures picks[n] == agents[a] <==> (cursor + Asked(requests[..n], k)) % |agents| == a
  {
  }

  lemma EveryShareIsFair(requests: seq<Key>, picks: seq<UserId>, k: Key, agents: seq<UserId>, cursor: nat, u: UserId)
    requires |picks| == |requests| && Goes(requests, picks, k, agents, cursor) && Distinct(agents) && u in agents
    ensures Asked(requests, k) / |agents| <= Given(requests, picks, k, u) <= (Asked(requests, k) + |agents| - 1) / |agents|
  {
    var a :| 0 <= a < |agents| && agents[a] == u;
    GivenIsShare(requests, picks, k, agents, cursor, a);
    ShareIsFair(cursor, Asked(requests, k), |agents|, a);
  }
}
