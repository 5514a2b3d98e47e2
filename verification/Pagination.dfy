/** Reading a whole list of the board, page by page: all of it, or an error. */
module Pagination {

  type TaskId = string

  datatype Task = Task(id: TaskId, content: string)

  /** One answer of the board; `Broken` stands for a request that raises. */
  datatype Page = Page(tasks: seq<Task>, last: bool) | Broken

  datatype Result = Complete(tasks: seq<Task>) | InvalidList | RequestFailed | Repeated(page: nat) | TooManyPages

  const MAX_PAGES: nat := 10_000

  /** The ids of a page joined by bars. */
  function Signature(tasks: seq<Task>): string {
    if tasks == [] then ""
    else if |tasks| == 1 then tasks[0].id
    else Signature(tasks[..|tasks| - 1]) + "|" + tasks[|tasks| - 1].id
  }

  function Concat(pages: nat -> Page, n: nat): seq<Task> {
    if n == 0 then []
    else Concat(pages, n - 1) + if pages(n - 1).Page? then pages(n - 1).tasks else []
  }

  /** How many tasks the pages before `n` have together. */
  function Offset(pages: nat -> Page, n: nat): nat {
    if n == 0 then 0 else Offset(pages, n - 1) + if pages(n - 1).Page? then |pages(n - 1).tasks| else 0
  }

  /** The list is made of the first `n` pages: as long as they are together, each of their tasks
      at its place, and so nothing else, nothing twice, nothing out of order. */
  ghost predicate MadeOf(pages: nat -> Page, n: nat, list: seq<Task>) {
    && |list| == Offset(pages, n)
    && forall k: nat, i: nat | k < n && pages(k).Page? && i < |pages(k).tasks| ::
         Offset(pages, k) + i < |list| && list[Offset(pages, k) + i] == pages(k).tasks[i]
  }

  // ---------------------------------------------------------------- where reading ends

  predicate Filled(p: Page) {
    p.Page? && p.tasks != []
  }

  /** Page `k` has the signature of an earlier page. */
  predicate Repeats(pages: nat -> Page, k: nat) {
    Filled(pages(k)) && exists j | 0 <= j < k :: Filled(pages(j)) && Signature(pages(j).tasks) == Signature(pages(k).tasks)
  }

  /** After page `k` the next one is asked for. */
  predicate GoesOn(pages: nat -> Page, k: nat) {
    Filled(pages(k)) && !pages(k).last && !Repeats(pages, k)
  }

  /** The pages before `k` were all taken in, each followed by another request. */
  predicate Taken(pages: nat -> Page, k: nat) {
    forall j | 0 <= j < k :: GoesOn(pages, j)
  }

  /** The list ends with page `k`, or just before it if it is empty. */
  predicate EndsAt(pages: nat -> Page, k: nat) {
    pages(k).Page? && (pages(k).tasks == [] || (pages(k).last && !Repeats(pages, k)))
  }

  // ---------------------------------------------------------------- the loop

  /** What reading that stopped with page `k` comes to. */
  function Outcome(pages: nat -> Page, k: nat): Result {
    if pages(k).Broken? then RequestFailed
    else if pages(k).tasks == [] then Complete(Concat(pages, k))
    else if Repeats(pages, k) then Repeated(k)
    else if pages(k).last then Complete(Concat(pages, k + 1))
    else TooManyPages
  }

  ghost predicate Signatures(pages: nat -> Page, n: nat, seen: set<string>) {
    forall s :: s in seen <==> exists j | 0 <= j < n :: Filled(pages(j)) && Signature(pages(j).tasks) == s
  }

  lemma OneMoreSignature(pages: nat -> Page, n: nat, seen: set<string>)
    requires Signatures(pages, n, seen) && Filled(pages(n))
    ensures Repeats(pages, n) <==> Signature(pages(n).tasks) in seen
    ensures Signatures(pages, n + 1, seen + {Signature(pages(n).tasks)})
  {
  }

  /** `safe`: the list id has the form the client accepts. */
  method TasksOfList(safe: bool, pages: nat -> Page) returns (r: Result, requests: nat)
    ensures requests <= 10_001
    ensures !safe ==> r == InvalidList && requests == 0
    ensures r.Complete? ==> MadeOf(pages, requests, r.tasks)
    ensures safe ==> requests > 0 && Taken(pages, requests - 1) && r == Outcome(pages, requests - 1)
    ensures safe && GoesOn(pages, requests - 1) ==> requests == 10_001
  {
    requests := 0;
    if !safe {
      return InvalidList, 0;
    }
    var output: seq<Task> := [];
    var seen: set<string> := {};
    var page: nat := 0;
    while true
      invariant page == requests <= MAX_PAGES
      invariant Taken(pages, page) && output == Concat(pages, page) && Signatures(pages, page, seen)
      decreases MAX_PAGES - page
    {
      var answer := pages(page);
      requests := requests + 1;
      if answer.Broken? {
        return RequestFailed, requests;
      }
      if |answer.tasks| == 0 {
        MadeOfAll(pages, page + 1);
        return Complete(output), requests;
      }
      OneMoreSignature(pages, page, seen);
      var signature := Signature(answer.tasks);
      if signature in seen {
        return Repeated(page), requests;
      }
      seen := seen + {signature};
      output := output + answer.tasks;
      if answer.last {
        MadeOfAll(pages, page + 1);
        return Complete(output), requests;
      }
      page := page + 1;
      if page > MAX_PAGES {
        return TooManyPages, requests;
      }
    }
  }

  /** Reading never truncates: it is complete exactly when the list has an end among the first
      10,001 pages that is reached page by page, and then it has every page up to that end. */
  lemma CompleteExactlyAtTheEnd(pages: nat -> Page, n: nat)
    requires n <= 10_000 && Taken(pages, n) && (GoesOn(pages, n) ==> n == 10_000)
    ensures Outcome(pages, n).Complete? <==> exists k | 0 <= k <= 10_000 :: Taken(pages, k) && EndsAt(pages, k)
    ensures Outcome(pages, n).Complete? ==> EndsAt(pages, n) && MadeOf(pages, n + 1, Outcome(pages, n).tasks)
    ensures Outcome(pages, n).TooManyPages? <==> Taken(pages, 10_001)
  {
    if k: nat :| k <= MAX_PAGES && Taken(pages, k) && EndsAt(pages, k) {
      assert k < n ==> GoesOn(pages, k);
      assert n < k ==> GoesOn(pages, n);
    }
    assert Concat(pages, n) + [] == Concat(pages, n);
    MadeOfAll(pages, n + 1);
    if Taken(pages, MAX_PAGES + 1) {
      assert GoesOn(pages, n);
    }
  }

  lemma {:induction false} ConcatHas(pages: nat -> Page, n: nat, k: nat, i: nat)
    requires k < n && pages(k).Page? && i < |pages(k).tasks|
    ensures |Concat(pages, k)| == Offset(pages, k) && |Concat(pages, n)| == Offset(pages, n)
    ensures Offset(pages, k) + i < |Concat(pages, n)| && Concat(pages, n)[Offset(pages, k) + i] == pages(k).tasks[i]
  {
    ConcatIsLong(pages, k);
    ConcatIsLong(pages, n);
    if k < n - 1 {
      ConcatHas(pages, n - 1, k, i);
    }
  }

  lemma {:induction false} ConcatIsLong(pages: nat -> Page, n: nat)
    ensures |Concat(pages, n)| == Offset(pages, n)
  {
    if n > 0 {
      ConcatIsLong(pages, n - 1);
    }
  }

  lemma MadeOfAll(pages: nat -> Page, n: nat)
    ensures MadeOf(pages, n, Concat(pages, n))
  {
    ConcatIsLong(pages, n);
    forall k: nat, i: nat | k < n && pages(k).Page? && i < |pages(k).tasks|
      ensures Offset(pages, k) + i < |Concat(pages, n)| && Concat(pages, n)[Offset(pages, k) + i] == pages(k).tasks[i]
    {
      ConcatHas(pages, n, k, i);
    }
  }

  /** A list that does not come out complete says why: the request that raised, the page that
      looked like an earlier one, or 10,001 pages that all go on. */
  lemma FailsExactly(pages: nat -> Page, n: nat)
    ensures Outcome(pages, n).RequestFailed? <==> pages(n).Broken?
    ensures Outcome(pages, n) == Repeated(n) <==>
              pages(n).Page? && pages(n).tasks != [] && exists j | 0 <= j < n ::
                pages(j).Page? && pages(j).tasks != [] && Signature(pages(j).tasks) == Signature(pages(n).tasks)
    ensures Outcome(pages, n).TooManyPages? ==> pages(n).Page? && pages(n).tasks != [] && !pages(n).last
  {
  }

  // ---------------------------------------------------------------- when pages look repeated

  function Ids(tasks: seq<Task>): seq<TaskId> {
    seq(|tasks|, i requires 0 <= i < |tasks| => tasks[i].id)
  }

  ghost predicate BarFree(tasks: seq<Task>) {
    forall i | 0 <= i < |tasks| :: '|' !in tasks[i].id
  }

  lemma LastBar(a: string, x: string)
    requires '|' !in x
    ensures var s := a + "|" + x; s[|a|] == '|' && forall k | |a| < k < |s| :: s[k] != '|'
  {
    var s := a + "|" + x;
    forall k | |a| < k < |s| ensures s[k] != '|' {
      assert s[k] == x[k - |a| - 1];
    }
  }

  lemma SameLastPart(a: string, x: string, b: string, y: string)
    requires '|' !in x && '|' !in y && a + "|" + x == b + "|" + y
    ensures a == b && x == y
  {
    var s := a + "|" + x;
    assert s[|a|] == '|' && s[|b|] == '|';
    LastBar(a, x);
    LastBar(b, y);
    assert a == s[..|a|] && b == s[..|b|];
    assert x == s[|a| + 1..] && y == s[|b| + 1..];
  }

  lemma LongSignatureHasBar(tasks: seq<Task>)
    requires |tasks| > 1
    ensures '|' in Signature(tasks)
  {
    var s := Signature(tasks[..|tasks| - 1]);
    assert Signature(tasks)[|s|] == '|';
  }

  /** Where ids have no bars, a signature tells a page's ids apart from every other page's. */
  lemma {:induction false} SameSignatureExactly(a: seq<Task>, b: seq<Task>)
    requires a != [] && b != [] && BarFree(a) && BarFree(b)
    ensures Signature(a) == Signature(b) <==> Ids(a) == Ids(b)
    decreases |a|
  {
    var m, n := |a| - 1, |b| - 1;
    if m == 0 && n == 0 {
      assert Ids(a)[0] == a[0].id && Ids(b)[0] == b[0].id;
    } else if m == 0 {
      LongSignatureHasBar(b);
    } else if n == 0 {
      LongSignatureHasBar(a);
    } else {
      SameSignatureExactly(a[..m], b[..n]);
      assert Ids(a) == Ids(a[..m]) + [a[m].id] && Ids(b) == Ids(b[..n]) + [b[n].id];
      if Signature(a) == Signature(b) {
        SameLastPart(Signature(a[..m]), a[m].id, Signature(b[..n]), b[n].id);
      }
      if Ids(a) == Ids(b) {
        assert Ids(a)[..m] == Ids(b)[..n] && Ids(a)[m] == Ids(b)[n];
      }
    }
  }

  /** So on a board without bars in its ids a page is taken for a repetition exactly when an
      earlier page had the same ids in the same order. */
  lemma RepeatsExactly(pages: nat -> Page, k: nat)
    requires forall j | 0 <= j <= k && Filled(pages(j)) :: BarFree(pages(j).tasks)
    ensures Repeats(pages, k) <==>
              Filled(pages(k)) && exists j | 0 <= j < k :: Filled(pages(j)) && Ids(pages(j).tasks) == Ids(pages(k).tasks)
  {
    if Filled(pages(k)) {
      forall j | 0 <= j < k && Filled(pages(j))
        ensures Signature(pages(j).tasks) == Signature(pages(k).tasks) <==> Ids(pages(j).tasks) == Ids(pages(k).tasks)
      {
        SameSignatureExactly(pages(j).tasks, pages(k).tasks);
      }
    }
  }

  lemma {:induction false} SignatureJoins(a: seq<Task>, b: seq<Task>)
    requires a != [] && b != []
    ensures Signature(a + b) == Signature(a) + "|" + Signature(b)
    decreases |b|
  {
    var n := |b| - 1;
    assert (a + b)[..|a + b| - 1] == a + b[..n];
    if n == 0 {
      assert a + b[..n] == a;
    } else {
      SignatureJoins(a, b[..n]);
      assert Signature(a) + "|" + Signature(b[..n]) + "|" + b[n].id == Signature(a) + "|" + (Signature(b[..n]) + "|" + b[n].id);
    }
  }

  /** Every id with a bar, on whatever page, has a page that is taken for the same one: the page
      with two tasks in its place, split at the bar. */
  lemma BarredIdClashes(before: seq<Task>, t: Task, after: seq<Task>, i: nat, left: Task, right: Task)
    requires i < |t.id| && t.id[i] == '|' && left.id == t.id[..i] && right.id == t.id[i + 1..]
    ensures Signature(before + [t] + after) == Signature(before + [left, right] + after)
    ensures Ids(before + [t] + after) != Ids(before + [left, right] + after)
  {
    assert [left, right][..1] == [left];
    assert Signature([left, right]) == left.id + "|" + right.id == t.id == Signature([t]);
    if before != [] {
      SignatureJoins(before, [t]);
      SignatureJoins(before, [left, right]);
    } else {
      assert before + [t] == [t] && before + [left, right] == [left, right];
    }
    if after != [] {
      SignatureJoins(before + [t], after);
      SignatureJoins(before + [left, right], after);
    } else {
      assert before + [t] + after == before + [t] && before + [left, right] + after == before + [left, right];
    }
    assert |Ids(before + [t] + after)| != |Ids(before + [left, right] + after)|;
  }
}
