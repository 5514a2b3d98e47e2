/** The two lock stores behind the card protocol: a queue of waiters in one process, and a
    lease in Redis. */
module LockStore {
  type Token = string
  type Ticket = nat

  // ---------------------------------------------------------------- in memory

  /**
   * MemoryW2Store on one key. A call of acquireLock puts its `held` promise at the end of a
   * chain and awaits every promise before it; ticket `i` is the promise at place `i`, and
   * `resolved` are the promises resolved so far. `grants` records who got the lock, in order.
   */
  class MemoryLock {
    var joined: nat                       // length of the chain
    var resolved: set<Ticket>
    var current: set<Token>               // the token of the key in `locks`, if any
    var releasers: map<Token, Ticket>

    ghost var grants: seq<Ticket>
    ghost var spent: set<Token>

    /** What ticket `i` awaits: every promise before it. */
    predicate Turn(i: Ticket)
      reads this
    {
      forall j | 0 <= j < i :: j in resolved
    }

    /** Released tickets are a prefix of the granted ones, which are a prefix of the chain;
        at most one ticket is granted and not released, and the key's token is its. */
    ghost predicate Valid()
      reads this
    {
      && |grants| <= joined
      && (forall i | 0 <= i < |grants| :: grants[i] == i)
      && |resolved| <= |grants| <= |resolved| + 1
      && (forall i :: i in resolved <==> 0 <= i < |resolved|)
      && (current == {} <==> |grants| == |resolved|)
      && (forall t | t in current :: current == {t} && t in spent && t in releasers && releasers[t] == |resolved|)
    }

    constructor ()
      ensures Valid() && joined == 0 && current == {} && grants == []
    {
      joined, resolved, current, releasers, grants, spent := 0, {}, {}, map[], [], {};
    }

    /** acquireLock up to its await: join the end of the chain. */
    method Join() returns (t: Ticket)
      requires Valid()
      modifies this
      ensures Valid() && t == old(joined) && joined == old(joined) + 1
      ensures grants == old(grants) && resolved == old(resolved) && current == old(current)
      ensures releasers == old(releasers) && spent == old(spent)
    {
      t := joined;
      joined := joined + 1;
    }

    /** acquireLock after its await: a ticket not granted before takes the lock, with a token
        never used. The lock is free then, and no earlier ticket is still waiting. */
    method Take(t: Ticket, token: Token)
      requires Valid() && t < joined && t !in grants && Turn(t) && token !in spent
      modifies this
      ensures Valid() && old(current) == {} && t == |old(grants)|
      ensures current == {token} && grants == old(grants) + [t]
      ensures releasers == old(releasers)[token := t] && spent == old(spent) + {token}
      ensures joined == old(joined) && resolved == old(resolved)
    {
      assert |resolved| !in resolved;
      AllGranted();
      current := {token};
      releasers := releasers[token := t];
      grants := grants + [t];
      spent := spent + {token};
    }

    /** releaseLock: only the current token does anything, and it lets the next one in. */
    method Release(token: Token)
      requires Valid()
      modifies this
      ensures Valid() && joined == old(joined) && grants == old(grants) && spent == old(spent)
      ensures token in old(current) ==> current == {} && resolved == old(resolved) + {|old(resolved)|}
      ensures token !in old(current) ==> current == old(current) && resolved == old(resolved) && releasers == old(releasers)
    {
      if token !in current { return; }
      var t := releasers[token];
      current := {};
      releasers := releasers - {token};
      resolved := resolved + {t};
    }

    lemma AllGranted()
      requires Valid()
      ensures forall i | 0 <= i < |grants| :: i in grants
    {
      forall i | 0 <= i < |grants| ensures i in grants {
        assert grants[i] == i;
      }
    }

    /** Whoever waits longest is next: with the lock free, just that ticket may take it. */
    lemma NextIsFirst(t: Ticket)
      requires Valid() && current == {} && t < joined && t !in grants
      ensures Turn(t) <==> t == |grants|
    {
      assert |resolved| !in resolved;
      AllGranted();
    }
  }

  // ---------------------------------------------------------------- in Redis

  const WAIT_MS := 10_000

  datatype Lease = Lease(token: Token, until: nat)

  /** What happened to one key: a lease was granted, or its holder gave it back. */
  datatype Entry =
    | Granted(token: Token, at: nat, until: nat)
    | Freed(token: Token, at: nat)

  /** A lease is over at time `now`: it ran out, or its holder freed it, at entry `i` or later. */
  ghost predicate Over(log: seq<Entry>, i: nat, now: nat)
    requires i < |log| && log[i].Granted?
  {
    log[i].until <= now || exists k | i < k < |log| :: log[k].Freed? && log[k].token == log[i].token
  }

  /** No two leases of the key overlap: each begins when all before it are over. */
  ghost predicate Exclusive(log: seq<Entry>) {
    forall i, j | 0 <= i < j < |log| && log[i].Granted? && log[j].Granted? :: Over(log[..j], i, log[j].at)
  }

  /** RedisW2Store on one key: SET NX PX, and delete-if-equal. */
  class RedisLock {
    var now: nat
    var lease: Lease
    var set?: bool                // the key exists, perhaps past its expiry
    var log: seq<Entry>           // history

    predicate Held()
      reads this
    {
      set? && now < lease.until
    }

    ghost predicate TokensUnique()
      reads this
    {
      forall i, j | 0 <= i < j < |log| && log[i].Granted? && log[j].Granted? :: log[i].token != log[j].token
    }

    ghost predicate Valid()
      reads this
    {
      && TokensUnique() && Exclusive(log)
      && (forall i | 0 <= i < |log| && log[i].Granted? :: Over(log, i, now) || (Held() && lease == Lease(log[i].token, log[i].until)))
      && (Held() ==> exists i | 0 <= i < |log| :: log[i].Granted? && lease == Lease(log[i].token, log[i].until) && !Over(log, i, now))
    }

    predicate Fresh(token: Token)
      reads this
    {
      forall i | 0 <= i < |log| :: log[i].token != token
    }

    /** The token of a lease that is over is not the key's, so releasing with it frees nobody. */
    lemma OldTokenIsNotCurrent(i: nat)
      requires Valid() && Held()
      requires i < |log| && log[i].Granted? && Over(log, i, now)
      ensures lease.token != log[i].token
    {
    }

    constructor ()
      ensures Valid() && log == [] && !Held()
    {
      now, lease, set?, log := 0, Lease("", 0), false, [];
    }

    /** Time passes; a lease may run out. */
    method Tick(ms: nat)
      requires Valid()
      modifies this
      ensures Valid() && log == old(log) && now == old(now) + ms && lease == old(lease) && set? == old(set?)
    {
      now := now + ms;
    }

    /** SET key token PX ttl NX. */
    method SetNx(token: Token, ttl: nat) returns (ok: bool)
      requires Valid() && Fresh(token) && ttl > 0
      modifies this
      ensures Valid() && now == old(now)
      ensures ok <==> !old(Held())
      ensures ok ==> Held() && lease == Lease(token, now + ttl) && log == old(log) + [Granted(token, now, now + ttl)]
      ensures !ok ==> log == old(log) && lease == old(lease) && set? == old(set?)
    {
      ok := !Held();
      if !ok { return; }
      set?, lease := true, Lease(token, now + ttl);
      log := log + [Granted(token, now, now + ttl)];
      GrantKeepsExclusive(old(log), log, now);
      var n := |log| - 1;
      assert log[n].Granted? && !Over(log, n, now);
    }

    /** Delete the key if it still holds this token: a late release of an expired holder
        does not free whoever came after. */
    method DelIfEqual(token: Token)
      requires Valid()
      modifies this
      ensures Valid() && now == old(now)
      ensures old(Held()) && old(lease.token) == token ==> !Held() && log == old(log) + [Freed(token, now)]
      ensures !(old(Held()) && old(lease.token) == token) ==>
                log == old(log) && Held() == old(Held()) && lease == old(lease)
    {
      if Held() && lease.token == token {
        set? := false;
        log := log + [Freed(token, now)];
        FreeKeepsExclusive(old(log), log, now);
      }
    }

    lemma GrantKeepsExclusive(before: seq<Entry>, after: seq<Entry>, at: nat)
      requires Exclusive(before) && |after| == |before| + 1 && after[..|before|] == before
      requires after[|before|].Granted? && after[|before|].at == at
      requires forall i | 0 <= i < |before| && before[i].Granted? :: Over(before, i, at)
      ensures Exclusive(after)
      ensures forall i, t | 0 <= i < |before| && before[i].Granted? && Over(before, i, t) :: Over(after, i, t)
    {
      forall i, j | 0 <= i < j < |after| && after[i].Granted? && after[j].Granted?
        ensures Over(after[..j], i, after[j].at)
      {
        if j < |before| {
          assert after[..j] == before[..j];
        }
      }
    }

    lemma FreeKeepsExclusive(before: seq<Entry>, after: seq<Entry>, at: nat)
      requires Exclusive(before) && |after| == |before| + 1 && after[..|before|] == before
      requires after[|before|].Freed?
      ensures Exclusive(after)
      ensures forall i, t | 0 <= i < |before| && before[i].Granted? && Over(before, i, t) :: Over(after, i, t)
    {
      forall i, j | 0 <= i < j < |after| && after[i].Granted? && after[j].Granted?
        ensures Over(after[..j], i, after[j].at)
      {
        assert after[..j] == before[..j];
      }
    }

    /** A pause: time passes, and other clients, with tokens of their own, take and release the
        key as often as they like. */
    method Pause(ms: nat, mine: seq<Token>)
      requires Valid() && forall i | 0 <= i < |mine| :: Fresh(mine[i])
      modifies this
      ensures Valid() && now >= old(now) + ms && old(log) <= log
      ensures forall i | 0 <= i < |mine| :: Fresh(mine[i])
    {
      Tick(ms);
      var steps: nat := *;
      while steps > 0
        invariant Valid() && now >= old(now) + ms && old(log) <= log
        invariant forall i | 0 <= i < |mine| :: Fresh(mine[i])
        decreases steps
      {
        var token: Token, ttl: nat, wait: nat := *, *, *;
        var frees: bool := *;
        Tick(wait);
        if token !in mine {
          if frees {
            DelIfEqual(token);
          } else if Fresh(token) && ttl > 0 {
            var ok := SetNx(token, ttl);
          }
        }
        steps := steps - 1;
      }
    }

    /** acquireLock: keep trying for ten seconds, with a new token each time, while others use
        the lock in every pause. It ends with a lease of its own, or having been granted none. */
    method Acquire(tokens: seq<Token>, ttl: nat, pauses: seq<nat>) returns (token: Token, ok: bool)
      requires Valid() && ttl > 0
      requires |tokens| == |pauses| == 10_000 && (forall i | 0 <= i < |pauses| :: pauses[i] > 0)
      requires forall i | 0 <= i < |tokens| :: Fresh(tokens[i])
      modifies this
      ensures Valid() && old(log) <= log
      ensures ok ==> Held() && lease == Lease(token, now + ttl) && now < old(now) + 10_000
      ensures ok ==> token in tokens && log != [] && log[|log| - 1] == Granted(token, now, now + ttl)
      ensures !ok ==> now >= old(now) + 10_000 && forall i | 0 <= i < |tokens| :: Fresh(tokens[i])
    {
      var start, i := now, 0;
      token := "";
      while now - start < WAIT_MS
        invariant Valid() && old(log) <= log && start == old(now)
        invariant 0 <= i <= |tokens| && start + i <= now
        invariant forall j | 0 <= j < |tokens| :: Fresh(tokens[j])
        decreases WAIT_MS - i
      {
        token := tokens[i];
        ok := SetNx(token, ttl);
        if ok { return; }
        Pause(pauses[i], tokens);
        i := i + 1;
      }
      ok := false;
    }
  }
}
