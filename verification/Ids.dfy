/** Choices a database makes: an id not in use, the first row in some order. */
module Ids {
  lemma {:induction false} SomeUnused(used: set<nat>) returns (n: nat)
    ensures n !in used && forall u | u in used :: u < n
  {
    if used == {} {
      n := 0;
    } else {
      var x :| x in used;
      var rest := used - {x};
      var m := SomeUnused(rest);
      n := if x < m then m else x + 1;
      forall u | u in used ensures u < n {
        assert u == x || u in rest;
      }
    }
  }

  lemma {:induction false} SomeLeast(rank: map<nat, int>, among: set<nat>) returns (best: nat)
    requires among != {} && among <= rank.Keys
    ensures best in among && forall y | y in among :: rank[best] <= rank[y]
    decreases among
  {
    best :| best in among;
    if among != {best} {
      var z := SomeLeast(rank, among - {best});
      best := if rank[best] <= rank[z] then best else z;
    }
  }

  lemma SomeGreatest(rank: map<nat, int>, among: set<nat>) returns (best: nat)
    requires among != {} && among <= rank.Keys
    ensures best in among && forall y | y in among :: rank[y] <= rank[best]
  {
    var flipped := map x | x in rank :: -rank[x];
    best := SomeLeast(flipped, among);
    forall y | y in among ensures rank[y] <= rank[best] {
      assert flipped[best] <= flipped[y];
    }
  }
}
