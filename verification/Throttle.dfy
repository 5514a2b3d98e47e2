/**
 * The sliding-window limiters. They prune old attempts and collect idle keys as they go;
 * under a clock that never goes back they decide as if they remembered every attempt.
 */
module Throttle {
  type Key = string

  datatype Attempt = Attempt(key: Key, time: int)

  // ---------------------------------------------------------------- the full history

  /** The times at or after `start`, in order. */
  function Since(times: seq<int>, start: int): seq<int> {
    if times == [] then []
    else Since(times[..|times| - 1], start) + (if times[|times| - 1] >= start then [times[|times| - 1]] else [])
  }

  /** The times of one key. */
  function TimesOf(history: seq<Attempt>, key: Key): seq<int> {
    if history == [] then []
    else
      var n := |history| - 1;
      TimesOf(history[..n], key) + (if history[n].key == key then [history[n].time] else [])
  }

  /** A limiter that forgets nothing: how many attempts the key has made in the window that
      ends at `now`, refused ones included. */
  function Recent(history: seq<Attempt>, key: Key, window: nat, now: int): nat {
    |Since(TimesOf(history, key), now - window)|
  }

  /** Its decision on the last attempt. */
  predicate Admits(history: seq<Attempt>, window: nat, max: nat)
    requires history != []
  {
    var a := history[|history| - 1];
    Recent(history, a.key, window, a.time) <= max
  }

  /** The attempts of the key since `start`, as places in the history. */
  ghost function MadeSince(history: seq<Attempt>, key: Key, start: int): set<nat> {
    set i: nat | i < |history| && history[i].key == key && history[i].time >= start
  }

  /** The limiter counts exactly those. */
  lemma {:induction false} RecentCounts(history: seq<Attempt>, key: Key, window: nat, now: int)
    ensures Recent(history, key, window, now) == |MadeSince(history, key, now - window)|
  {
    if history != [] {
      var n := |history| - 1;
      RecentCounts(history[..n], key, window, now);
      var more := if history[n].key == key && history[n].time >= now - window then {n} else {};
      assert MadeSince(history, key, now - window) == MadeSince(history[..n], key, now - window) + more;
      if history[n].key == key {
        SincePush(TimesOf(history[..n], key), history[n].time, now - window);
      } else {
        assert TimesOf(history, key) == TimesOf(history[..n], key);
      }
    }
  }

  /** So the last attempt is admitted exactly when it and the earlier ones of its key, refused
      ones included, are `max` at most since the start of its window. */
  lemma AdmitsExactly(history: seq<Attempt>, window: nat, max: nat)
    requires history != []
    ensures Admits(history, window, max) <==>
              |set i: nat | i < |history| && history[i].key == history[|history| - 1].key
                            && history[i].time >= history[|history| - 1].time - window| <= max
  {
    var a := history[|history| - 1];
    RecentCounts(history, a.key, window, a.time);
    assert MadeSince(history, a.key, a.time - window) == set i: nat | i < |history| && history[i].key == a.key && history[i].time >= a.time - window;
  }

  // ---------------------------------------------------------------- the bound

  /** How many attempts of the key within [lo, hi] were admitted. */
  function AdmittedIn(history: seq<Attempt>, key: Key, lo: int, hi: int, window: nat, max: nat): nat {
    if history == [] then 0
    else
      var n := |history| - 1;
      AdmittedIn(history[..n], key, lo, hi, window, max)
      + if history[n].key == key && lo <= history[n].time <= hi && Admits(history, window, max) then 1 else 0
  }

  lemma SincePush(times: seq<int>, t: int, start: int)
    ensures Since(times + [t], start) == Since(times, start) + if t >= start then [t] else []
  {
  }

  lemma {:induction false} AdmittedAreRecent(history: seq<Attempt>, key: Key, lo: int, hi: int, window: nat, max: nat, now: int)
    requires now - window <= lo
    ensures AdmittedIn(history, key, lo, hi, window, max) <= Recent(history, key, window, now)
  {
    if history != [] {
      var n := |history| - 1;
      AdmittedAreRecent(history[..n], key, lo, hi, window, max, now);
      if history[n].key == key {
        SincePush(TimesOf(history[..n], key), history[n].time, now - window);
      } else {
        assert TimesOf(history, key) == TimesOf(history[..n], key);
      }
    }
  }

  /** At most `max` attempts of a key are admitted in any closed interval of the window's length. */
  lemma {:induction false} AtMostMaxPerWindow(history: seq<Attempt>, key: Key, lo: int, window: nat, max: nat)
    ensures AdmittedIn(history, key, lo, lo + window, window, max) <= max
  {
    if history != [] {
      var n := |history| - 1;
      AtMostMaxPerWindow(history[..n], key, lo, window, max);
      if history[n].key == key && lo <= history[n].time <= lo + window && Admits(history, window, max) {
        AdmittedAreRecent(history, key, lo, lo + window, window, max, history[n].time);
      }
    }
  }

  /** And the bound is met: while fewer than `max` attempts lie in its window, one is admitted. */
  lemma {:induction false} FewAreAdmitted(history: seq<Attempt>, a: Attempt, window: nat, max: nat)
    ensures Admits(history + [a], window, max) <==> Recent(history, a.key, window, a.time) < max
  {
  }

  // ---------------------------------------------------------------- pruning is invisible

  function HitsOf(hits: map<Key, seq<int>>, key: Key): seq<int> {
    if key in hits then hits[key] else []
  }

  /** From `start` on, the remembered hits of every key are those of the full history. */
  ghost predicate Remembers(hits: map<Key, seq<int>>, history: seq<Attempt>, start: int) {
    forall k: Key, s: int | s >= start :: Since(HitsOf(hits, k), s) == Since(TimesOf(history, k), s)
  }

  lemma {:induction false} SinceAgain(times: seq<int>, early: int, late: int)
    requires early <= late
    ensures Since(Since(times, early), late) == Since(times, late)
  {
    if times != [] {
      var t, rest := times[|times| - 1], times[..|times| - 1];
      SinceAgain(rest, early, late);
      if t >= early {
        SincePush(Since(rest, early), t, late);
      } else {
        assert Since(times, early) == Since(rest, early) + [] == Since(rest, early);
      }
    }
  }

  lemma {:induction false} AllOldIsNone(times: seq<int>, start: int)
    ensures Since(times, start) == [] <==> forall t | t in times :: t < start
  {
    if times != [] {
      var rest, t := times[..|times| - 1], times[|times| - 1];
      AllOldIsNone(rest, start);
      assert times == rest + [t];
      assert |Since(times, start)| == |Since(rest, start)| + if t >= start then 1 else 0;
      if forall x | x in times :: x < start {
        assert t in times && forall x | x in rest :: x in times;
        assert Since(times, start) == [];
      } else {
        var x :| x in times && x >= start;
        assert x in rest || x == t;
        assert Since(times, start) != [];
      }
    }
  }

  lemma RemembersLater(hits: map<Key, seq<int>>, history: seq<Attempt>, early: int, late: int)
    requires Remembers(hits, history, early) && early <= late
    ensures Remembers(hits, history, late)
  {
  }

  /** Trimming a key to the window, or dropping it once nothing is left, loses nothing. */
  lemma TrimRemembers(hits: map<Key, seq<int>>, history: seq<Attempt>, start: int, key: Key, hits': map<Key, seq<int>>)
    requires Remembers(hits, history, start)
    requires forall k | k != key :: HitsOf(hits', k) == HitsOf(hits, k)
    requires HitsOf(hits', key) == Since(HitsOf(hits, key), start)
    ensures Remembers(hits', history, start)
  {
    forall k: Key, s: int | s >= start ensures Since(HitsOf(hits', k), s) == Since(TimesOf(history, k), s) {
      if k == key {
        SinceAgain(HitsOf(hits, key), start, s);
      }
    }
  }

  /** Recording an attempt in both. */
  lemma PushRemembers(hits: map<Key, seq<int>>, history: seq<Attempt>, start: int, a: Attempt)
    requires Remembers(hits, history, start)
    ensures Remembers(hits[a.key := HitsOf(hits, a.key) + [a.time]], history + [a], start)
  {
    var hits', history' := hits[a.key := HitsOf(hits, a.key) + [a.time]], history + [a];
    assert history'[..|history'| - 1] == history;
    forall k: Key, s: int | s >= start ensures Since(HitsOf(hits', k), s) == Since(TimesOf(history', k), s) {
      assert Since(HitsOf(hits, k), s) == Since(TimesOf(history, k), s);
      if k == a.key {
        SincePush(HitsOf(hits, k), a.time, s);
        SincePush(TimesOf(history, k), a.time, s);
      } else {
        assert TimesOf(history', k) == TimesOf(history, k);
      }
    }
  }

  // ---------------------------------------------------------------- the guards

  const AUTH_WINDOW_MS: nat := 60_000
  const AUTH_MAX_HITS: nat := 10
  const AUTH_GC_KEYS: nat := 5000
  const WEBHOOK_WINDOW_MS: nat := 10_000
  const WEBHOOK_MAX_HITS: nat := 600
  const WEBHOOK_GC_MS: nat := 30_000

  /** What both guards do first: prune the key, record the attempt. */
  method Record(hits: map<Key, seq<int>>, key: Key, now: int, window: nat, ghost history: seq<Attempt>, ghost last: int)
    returns (hits': map<Key, seq<int>>, recent: nat)
    requires Remembers(hits, history, last - window) && last <= now
    ensures Remembers(hits', history + [Attempt(key, now)], now - window)
    ensures hits' == hits[key := Since(HitsOf(hits, key), now - window) + [now]]
    ensures recent == Recent(history + [Attempt(key, now)], key, window, now)
  {
    var pruned := Filtered(HitsOf(hits, key), now - window);
    RemembersLater(hits, history, last - window, now - window);
    ghost var trimmed := hits[key := pruned];
    TrimRemembers(hits, history, now - window, key, trimmed);
    PushRemembers(trimmed, history, now - window, Attempt(key, now));
    hits' := hits[key := pruned + [now]];
    assert hits' == trimmed[key := HitsOf(trimmed, key) + [now]];
    recent := |pruned| + 1;
    RecentIsKept(hits', history + [Attempt(key, now)], key, now - window, HitsOf(hits, key), now);
  }

  /** The pruned list is exactly what the window holds. */
  lemma RecentIsKept(hits: map<Key, seq<int>>, history: seq<Attempt>, key: Key, start: int, times: seq<int>, now: int)
    requires Remembers(hits, history, start) && key in hits && hits[key] == Since(times, start) + [now] && start <= now
    ensures |Since(TimesOf(history, key), start)| == |Since(times, start)| + 1
  {
    SincePush(Since(times, start), now, start);
    SinceAgain(times, start, start);
    assert Since(HitsOf(hits, key), start) == Since(TimesOf(history, key), start);
  }

  method Filtered(times: seq<int>, start: int) returns (kept: seq<int>)
    ensures kept == Since(times, start)
  {
    kept := [];
    for i := 0 to |times|
      invariant kept == Since(times[..i], start)
    {
      assert times[..i + 1][..i] == times[..i];
      if times[i] >= start {
        kept := kept + [times[i]];
      }
    }
    assert times[..|times|] == times;
  }

  /** The limiter of logins, and of credential tests: idle keys go once there are too many. */
  class AuthThrottleGuard {
    var hits: map<Key, seq<int>>
    ghost var history: seq<Attempt>
    ghost var last: int

    ghost predicate Valid()
      reads this
    {
      Remembers(hits, history, last - AUTH_WINDOW_MS)
    }

    constructor ()
      ensures Valid() && history == []
    {
      hits, history, last := map[], [], 0;
    }

    method CanActivate(key: Key, now: int) returns (allowed: bool)
      requires Valid() && last <= now
      modifies this
      ensures Valid() && last == now && history == old(history) + [Attempt(key, now)]
      ensures allowed <==> Admits(history, 60_000, 10)
      ensures |hits| > 5000 ==> forall k | k in hits :: exists t | t in hits[k] :: t >= now - 60_000
    {
      var recent;
      hits, recent := Record(hits, key, now, AUTH_WINDOW_MS, history, last);
      history, last := history + [Attempt(key, now)], now;
      if |hits| > AUTH_GC_KEYS {
        hits := Collected(hits, now - AUTH_WINDOW_MS, history);
      }
      allowed := recent <= AUTH_MAX_HITS;
    }

    static method Collected(all: map<Key, seq<int>>, start: int, ghost history: seq<Attempt>) returns (kept: map<Key, seq<int>>)
      requires Remembers(all, history, start)
      ensures Remembers(kept, history, start)
      ensures forall k :: k in kept <==> k in all && exists t | t in all[k] :: t >= start
      ensures forall k | k in kept :: kept[k] == all[k]
    {
      kept := all;
      var left := all.Keys;
      while left != {}
        invariant Remembers(kept, history, start)
        invariant left <= all.Keys
        invariant forall k :: k in kept <==> k in all && (k in left || exists t | t in all[k] :: t >= start)
        invariant forall k | k in kept :: kept[k] == all[k]
        decreases left
      {
        var k :| k in left;
        left := left - {k};
        if forall t | t in kept[k] :: t < start {
          AllOldIsNone(kept[k], start);
          TrimRemembers(kept, history, start, k, kept - {k});
          kept := kept - {k};
        }
      }
    }
  }

  /** The limiter of webhooks: every 30 seconds all keys are trimmed. */
  class WebhookThrottleGuard {
    var hits: map<Key, seq<int>>
    var lastGc: int
    ghost var history: seq<Attempt>
    ghost var last: int

    ghost predicate Valid()
      reads this
    {
      Remembers(hits, history, last - WEBHOOK_WINDOW_MS)
    }

    constructor ()
      ensures Valid() && history == []
    {
      hits, lastGc, history, last := map[], 0, [], 0;
    }

    method CanActivate(key: Key, now: int) returns (allowed: bool)
      requires Valid() && last <= now
      modifies this
      ensures Valid() && last == now && history == old(history) + [Attempt(key, now)]
      ensures allowed <==> Admits(history, 10_000, 600)
      ensures lastGc == if now - old(lastGc) > 30_000 then now else old(lastGc)
      ensures now - old(lastGc) > 30_000 ==> forall k | k in hits :: hits[k] != [] && Since(hits[k], now - 10_000) == hits[k]
    {
      var recent;
      hits, recent := Record(hits, key, now, WEBHOOK_WINDOW_MS, history, last);
      history, last := history + [Attempt(key, now)], now;
      if now - lastGc > WEBHOOK_GC_MS {
        lastGc := now;
        hits := Trimmed(hits, now - WEBHOOK_WINDOW_MS, history);
      }
      allowed := recent <= WEBHOOK_MAX_HITS;
    }

    static method Trimmed(all: map<Key, seq<int>>, start: int, ghost history: seq<Attempt>) returns (kept: map<Key, seq<int>>)
      requires Remembers(all, history, start)
      ensures Remembers(kept, history, start)
      ensures forall k :: k in kept <==> k in all && Since(all[k], start) != []
      ensures forall k | k in kept :: kept[k] == Since(all[k], start) == Since(kept[k], start)
    {
      kept := all;
      var left := all.Keys;
      while left != {}
        invariant Remembers(kept, history, start)
        invariant left <= all.Keys
        invariant forall k :: k in kept <==> k in all && (k in left || Since(all[k], start) != [])
        invariant forall k | k in kept :: kept[k] == if k in left then all[k] else Since(all[k], start)
        decreases left
      {
        var k :| k in left;
        left := left - {k};
        var trimmed := Filtered(kept[k], start);
        ghost var next := if trimmed == [] then kept - {k} else kept[k := trimmed];
        TrimRemembers(kept, history, start, k, next);
        if trimmed == [] {
          kept := kept - {k};
        } else {
          kept := kept[k := trimmed];
        }
      }
      forall k | k in kept ensures Since(kept[k], start) == kept[k] {
        SinceAgain(all[k], start, start);
      }
    }
  }
}
