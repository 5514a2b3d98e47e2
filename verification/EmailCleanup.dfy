/**
 * The last pass over the sanitized e-mail: leftover style sheets and doctypes among the
 * texts go, wrappers left empty become a space, and the ends are trimmed.
 */
module EmailCleanup {
  import opened Options
  import opened EmailHtml

  // ---------------------------------------------------------------- the passes

  /** Joining the output into one string makes neighbouring texts one. */
  function Merged(nodes: seq<Node>): seq<Node>
    decreases |nodes|
  {
    if |nodes| < 2 then nodes
    else if nodes[0].Text? && nodes[1].Text? then Merged([Text(nodes[0].text + nodes[1].text)] + nodes[2..])
    else [nodes[0]] + Merged(nodes[1..])
  }

  /** A text before the first tag is dropped as noise, one between tags also as a short slice
      of a style sheet; one after the last tag is not looked at. */
  predicate Dropped(p: Policy, text: string, first: bool, last: bool) {
    || text == ""
    || (first && p.noise(text))
    || (!first && !last && (p.noise(text) || p.slice(text)))
  }

  function Denoised(p: Policy, nodes: seq<Node>, first: bool): seq<Node> {
    if nodes == [] then []
    else if nodes[0].Text? then
      var text := p.undoctyped(nodes[0].text);
      (if Dropped(p, text, first, |nodes| == 1) then [] else [Text(text)]) + Denoised(p, nodes[1..], false)
    else [nodes[0]] + Denoised(p, nodes[1..], false)
  }

  predicate IsWrapper(tag: string) {
    tag == "div" || tag == "span" || tag == "p" || tag == "font" || tag == "center"
  }

  /** How many blank texts the stream starts with; in the joined string they are one. */
  function Blanks(p: Policy, nodes: seq<Node>): (n: nat)
    ensures n <= |nodes|
  {
    if nodes != [] && nodes[0].Text? && p.blank(nodes[0].text) then 1 + Blanks(p, nodes[1..]) else 0
  }

  /** The length of the empty wrapper at the head of the stream, 0 if there is none. */
  function WrapperAt(p: Policy, nodes: seq<Node>): (n: nat)
    ensures n <= |nodes| && n != 1
  {
    if nodes != [] && nodes[0].Open? && IsWrapper(nodes[0].tag) then
      var blanks := Blanks(p, nodes[1..]);
      if blanks + 1 < |nodes| && nodes[blanks + 1] == Close(nodes[0].tag) then blanks + 2 else 0
    else 0
  }

  /** One sweep from left to right, never looking again at what it wrote. */
  function Unwrapped(p: Policy, nodes: seq<Node>): seq<Node>
    decreases |nodes|
  {
    if nodes == [] then []
    else if WrapperAt(p, nodes) > 0 then [Text(" ")] + Unwrapped(p, nodes[WrapperAt(p, nodes)..])
    else [nodes[0]] + Unwrapped(p, nodes[1..])
  }

  function SomeText(text: string): seq<Node> {
    if text == "" then [] else [Text(text)]
  }

  function TrimmedLeft(p: Policy, nodes: seq<Node>): seq<Node> {
    if nodes != [] && nodes[0].Text? then SomeText(p.trimLeft(nodes[0].text)) + nodes[1..] else nodes
  }

  function TrimmedRight(p: Policy, nodes: seq<Node>): seq<Node> {
    var n := |nodes| - 1;
    if nodes != [] && nodes[n].Text? then nodes[..n] + SomeText(p.trimRight(nodes[n].text)) else nodes
  }

  function Cleaned(p: Policy, nodes: seq<Node>): seq<Node> {
    Unwrapped(p, Denoised(p, Merged(nodes), true))
  }

  function Sanitized(p: Policy, mode: Mode, tokens: seq<Token>): seq<Node> {
    TrimmedRight(p, TrimmedLeft(p, Merged(Cleaned(p, Walked(p, mode, tokens, [])))))
  }

  // ---------------------------------------------------------------- nesting survives

  /** A stream without its texts. */
  function Tags(nodes: seq<Node>): seq<Node> {
    if nodes == [] then [] else (if nodes[0].Text? then [] else [nodes[0]]) + Tags(nodes[1..])
  }

  /** Texts play no part in nesting. */
  lemma {:induction false} OnlyTagsNest(nodes: seq<Node>, stack: seq<string>)
    ensures OpenAfter(nodes, stack) == OpenAfter(Tags(nodes), stack)
  {
    if nodes != [] {
      if nodes[0].Text? {
        assert [] + Tags(nodes[1..]) == Tags(nodes[1..]);
        OnlyTagsNest(nodes[1..], stack);
      } else {
        assert Tags(nodes)[0] == nodes[0] && Tags(nodes)[1..] == Tags(nodes[1..]);
        match nodes[0] {
          case Void(_, _) => OnlyTagsNest(nodes[1..], stack);
          case Open(t, _) => OnlyTagsNest(nodes[1..], stack + [t]);
          case Close(t) => if stack != [] { OnlyTagsNest(nodes[1..], stack[..|stack| - 1]); }
          case Text(_) =>
        }
      }
    }
  }

  lemma TagsCons(n: Node, rest: seq<Node>)
    ensures Tags([n] + rest) == (if n.Text? then [] else [n]) + Tags(rest)
  {
  }

  lemma {:induction false} TagsJoin(a: seq<Node>, b: seq<Node>)
    ensures Tags(a + b) == Tags(a) + Tags(b)
  {
    if a == [] {
      assert a + b == b;
    } else {
      assert (a + b)[0] == a[0] && (a + b)[1..] == a[1..] + b;
      TagsJoin(a[1..], b);
    }
  }

  lemma {:induction false} MergedKeepsTags(nodes: seq<Node>)
    ensures Tags(Merged(nodes)) == Tags(nodes)
    decreases |nodes|
  {
    if |nodes| >= 2 {
      var rest := nodes[2..];
      assert nodes == [nodes[0]] + nodes[1..] && nodes[1..] == [nodes[1]] + rest;
      if nodes[0].Text? && nodes[1].Text? {
        var joined := Text(nodes[0].text + nodes[1].text);
        MergedKeepsTags([joined] + rest);
        TagsCons(joined, rest);
        TagsCons(nodes[0], nodes[1..]);
        TagsCons(nodes[1], rest);
      } else {
        MergedKeepsTags(nodes[1..]);
        TagsCons(nodes[0], Merged(nodes[1..]));
      }
    }
  }

  lemma {:induction false} DenoisedKeepsTags(p: Policy, nodes: seq<Node>, first: bool)
    ensures Tags(Denoised(p, nodes, first)) == Tags(nodes)
  {
    if nodes != [] {
      DenoisedKeepsTags(p, nodes[1..], false);
      var rest := Denoised(p, nodes[1..], false);
      if nodes[0].Text? {
        var text := p.undoctyped(nodes[0].text);
        if !Dropped(p, text, first, |nodes| == 1) {
          TagsCons(Text(text), rest);
        } else {
          assert [] + rest == rest;
        }
      } else {
        TagsCons(nodes[0], rest);
      }
    }
  }

  lemma TrimmedKeepsTags(p: Policy, nodes: seq<Node>)
    ensures Tags(TrimmedLeft(p, nodes)) == Tags(nodes)
    ensures Tags(TrimmedRight(p, nodes)) == Tags(nodes)
  {
    if nodes != [] {
      var n := |nodes| - 1;
      assert nodes == [nodes[0]] + nodes[1..] == nodes[..n] + [nodes[n]];
      TagsCons(nodes[0], nodes[1..]);
      TagsJoin(SomeText(p.trimLeft(if nodes[0].Text? then nodes[0].text else "")), nodes[1..]);
      TagsJoin(nodes[..n], [nodes[n]]);
      TagsJoin(nodes[..n], SomeText(p.trimRight(if nodes[n].Text? then nodes[n].text else "")));
    }
  }

  /** An empty wrapper is balanced, so a space in its place nests as well. */
  lemma {:induction false} UnwrappedKeepsNesting(p: Policy, nodes: seq<Node>, stack: seq<string>)
    ensures OpenAfter(Unwrapped(p, nodes), stack) == OpenAfter(nodes, stack)
    decreases |nodes|
  {
    if nodes != [] {
      var k := WrapperAt(p, nodes);
      if k > 0 {
        WrapperIsBalanced(p, nodes, stack);
        UnwrappedKeepsNesting(p, nodes[k..], stack);
        assert ([Text(" ")] + Unwrapped(p, nodes[k..]))[1..] == Unwrapped(p, nodes[k..]);
      } else {
        var rest := Unwrapped(p, nodes[1..]);
        assert ([nodes[0]] + rest)[1..] == rest;
        match nodes[0] {
          case Text(_) => UnwrappedKeepsNesting(p, nodes[1..], stack);
          case Void(_, _) => UnwrappedKeepsNesting(p, nodes[1..], stack);
          case Open(t, _) => UnwrappedKeepsNesting(p, nodes[1..], stack + [t]);
          case Close(t) => if stack != [] { UnwrappedKeepsNesting(p, nodes[1..], stack[..|stack| - 1]); }
        }
      }
    }
  }

  lemma {:induction false} BlanksAreBalanced(p: Policy, nodes: seq<Node>, n: nat, stack: seq<string>)
    requires n <= Blanks(p, nodes)
    ensures OpenAfter(nodes[..n], stack) == Some(stack)
  {
    if n > 0 {
      BlanksAreBalanced(p, nodes[1..], n - 1, stack);
      assert nodes[..n][1..] == nodes[1..][..n - 1];
    }
  }

  lemma WrapperIsBalanced(p: Policy, nodes: seq<Node>, stack: seq<string>)
    requires WrapperAt(p, nodes) > 0
    ensures OpenAfter(nodes, stack) == OpenAfter(nodes[WrapperAt(p, nodes)..], stack)
  {
    var k, t := WrapperAt(p, nodes), nodes[0].tag;
    var inside := nodes[1..][..k - 2];
    assert nodes == [Open(t, nodes[0].attrs)] + inside + [Close(t)] + nodes[k..];
    BlanksAreBalanced(p, nodes[1..], k - 2, stack + [t]);
    OpenAfterElement(t, nodes[0].attrs, inside, nodes[k..], stack);
  }

  // ---------------------------------------------------------------- the whole sanitizer

  /** Every kind of text may appear or go, but no tag appears that was not there. */
  lemma {:induction false} UnwrappedInventsNoTag(p: Policy, nodes: seq<Node>)
    ensures forall n | n in Unwrapped(p, nodes) && !n.Text? :: n in nodes
    decreases |nodes|
  {
    if nodes != [] {
      UnwrappedInventsNoTag(p, if WrapperAt(p, nodes) > 0 then nodes[WrapperAt(p, nodes)..] else nodes[1..]);
    }
  }

  lemma {:induction false} TagsAre(nodes: seq<Node>)
    ensures forall n :: n in Tags(nodes) <==> n in nodes && !n.Text?
  {
    if nodes != [] {
      TagsAre(nodes[1..]);
    }
  }

  lemma CleanedKeepsNesting(p: Policy, nodes: seq<Node>)
    requires WellNested(nodes)
    ensures WellNested(Cleaned(p, nodes))
    ensures forall n | n in Cleaned(p, nodes) && !n.Text? :: n in nodes
  {
    var merged := Merged(nodes);
    var denoised := Denoised(p, merged, true);
    MergedKeepsTags(nodes);
    DenoisedKeepsTags(p, merged, true);
    OnlyTagsNest(nodes, []);
    OnlyTagsNest(denoised, []);
    UnwrappedKeepsNesting(p, denoised, []);
    UnwrappedInventsNoTag(p, denoised);
    TagsAre(nodes);
    TagsAre(denoised);
  }

  /** For every stream of tags and texts the result is well nested, the rendering of a
      document, and all its tags are allowlisted. */
  lemma SanitizedIsSafe(p: Policy, mode: Mode, tokens: seq<Token>)
    ensures WellNested(Sanitized(p, mode, tokens))
    ensures exists f :: Proper(f) && Render(f) == Sanitized(p, mode, tokens)
    ensures forall n | n in Sanitized(p, mode, tokens) :: TagAllowed(p, mode, n)
  {
    var walked := Walked(p, mode, tokens, []);
    var cleaned := Cleaned(p, walked);
    var merged := Merged(cleaned);
    var result := Sanitized(p, mode, tokens);
    WalkedIsNested(p, mode, tokens, []);
    WalkedIsAllowed(p, mode, tokens, []);
    CleanedKeepsNesting(p, walked);
    MergedKeepsTags(cleaned);
    TrimmedKeepsTags(p, merged);
    TrimmedKeepsTags(p, TrimmedLeft(p, merged));
    OnlyTagsNest(cleaned, []);
    OnlyTagsNest(result, []);
    TagsAre(cleaned);
    TagsAre(result);
    WellNestedExactlyWhenRendered(result);
  }

  lemma OnlyTagsOf(p: Policy, mode: Mode, nodes: seq<Node>, list: set<string>)
    requires forall tag | p.allowed(mode, tag) :: tag in list
    requires forall n | n in nodes :: TagAllowed(p, mode, n)
    ensures forall n | n in nodes && !n.Text? :: n.tag in list
  {
    forall n | n in nodes && !n.Text? ensures n.tag in list {
      assert TagAllowed(p, mode, n);
    }
  }

  /** With the allowlist in use no other tag than the listed ones ever goes out. */
  lemma OnlyListedTags(p: Policy, mode: Mode, tokens: seq<Token>)
    requires Shipped(p)
    ensures forall n | n in Sanitized(p, mode, tokens) && !n.Text? :: n.tag in Allowlist(mode)
  {
    SanitizedIsSafe(p, mode, tokens);
    OnlyTagsOf(p, mode, Sanitized(p, mode, tokens), Allowlist(mode));
  }

  /** The sanitizer: the walker's loop, then the final passes. */
  method Sanitize(p: Policy, mode: Mode, tokens: seq<Token>) returns (result: seq<Node>)
    ensures result == Sanitized(p, mode, tokens)
    ensures WellNested(result) && forall n | n in result :: TagAllowed(p, mode, n)
  {
    var out := Walk(p, mode, tokens);
    SanitizedIsSafe(p, mode, tokens);
    result := TrimmedRight(p, TrimmedLeft(p, Merged(Cleaned(p, out))));
  }

  // ---------------------------------------------------------------- what the sweeps leave

  lemma KeptTextIsNoNoise(p: Policy, nodes: seq<Node>, first: bool)
    requires nodes != [] && nodes[0].Text? && (first || |nodes| > 1)
    requires !Dropped(p, p.undoctyped(nodes[0].text), first, |nodes| == 1)
    ensures !p.noise(p.undoctyped(nodes[0].text))
    ensures !first ==> !p.slice(p.undoctyped(nodes[0].text))
  {
  }

  lemma DenoisedHead(p: Policy, nodes: seq<Node>, first: bool) returns (head: seq<Node>)
    requires nodes != []
    ensures Denoised(p, nodes, first) == head + Denoised(p, nodes[1..], false) && |head| <= 1
    ensures head != [] && head[0].Text? ==>
              nodes[0].Text? && head[0].text == p.undoctyped(nodes[0].text) && !Dropped(p, head[0].text, first, |nodes| == 1)
    ensures nodes == [nodes[0]] ==> Denoised(p, nodes[1..], false) == []
  {
    head := if !nodes[0].Text? then [nodes[0]]
            else if Dropped(p, p.undoctyped(nodes[0].text), first, |nodes| == 1) then []
            else [Text(p.undoctyped(nodes[0].text))];
  }

  /** After the first sweep no text with a tag on both sides is noise, nor is a text that
      starts the message. */
  lemma {:induction false} NoNoiseBetweenTags(p: Policy, nodes: seq<Node>, first: bool, i: nat)
    requires i < |Denoised(p, nodes, first)| && Denoised(p, nodes, first)[i].Text?
    requires i + 1 < |Denoised(p, nodes, first)| || (first && i == 0 && nodes[0].Text? && Denoised(p, nodes[1..], false) == [])
    ensures !p.noise(Denoised(p, nodes, first)[i].text)
    ensures i > 0 || !first ==> !p.slice(Denoised(p, nodes, first)[i].text)
  {
    var head := DenoisedHead(p, nodes, first);
    var rest := Denoised(p, nodes[1..], false);
    if i < |head| {
      assert Denoised(p, nodes, first)[i] == head[0];
      KeptTextIsNoNoise(p, nodes, first);
    } else {
      assert Denoised(p, nodes, first)[i] == rest[i - |head|];
      NoNoiseBetweenTags(p, nodes[1..], false, i - |head|);
    }
  }

  // ---------------------------------------------------------------- sweeping twice

  /** An empty wrapper stands somewhere in the stream. */
  predicate HasWrapper(p: Policy, nodes: seq<Node>) {
    nodes != [] && (WrapperAt(p, nodes) > 0 || HasWrapper(p, nodes[1..]))
  }

  /** A sweep changes a stream exactly when an empty wrapper stands in it. */
  lemma {:induction false} SweepChangesExactly(p: Policy, nodes: seq<Node>)
    ensures |Unwrapped(p, nodes)| <= |nodes|
    ensures Unwrapped(p, nodes) == nodes <==> !HasWrapper(p, nodes)
    decreases |nodes|
  {
    if nodes != [] {
      var k := WrapperAt(p, nodes);
      if k > 0 {
        SweepChangesExactly(p, nodes[k..]);
        assert |Unwrapped(p, nodes)| < |nodes|;
      } else {
        SweepChangesExactly(p, nodes[1..]);
        assert nodes == [nodes[0]] + nodes[1..];
        assert Unwrapped(p, nodes)[1..] == Unwrapped(p, nodes[1..]);
      }
    }
  }

  /** What the head of the stream takes of blank text and empty wrappers: one wrapper, or one text. */
  function HollowStep(p: Policy, nodes: seq<Node>): (k: nat)
    ensures k <= |nodes|
  {
    if WrapperAt(p, nodes) > 0 then WrapperAt(p, nodes)
    else if nodes != [] && nodes[0].Text? && p.blank(nodes[0].text) then 1
    else 0
  }

  /** How much of the stream, from its head, is blank text and empty wrappers. */
  function Hollows(p: Policy, nodes: seq<Node>): (n: nat)
    ensures n <= |nodes|
    decreases |nodes|
  {
    var k := HollowStep(p, nodes);
    if k == 0 then 0 else k + Hollows(p, nodes[k..])
  }

  lemma {:induction false} HollowsEnd(p: Policy, nodes: seq<Node>)
    ensures HollowStep(p, nodes[Hollows(p, nodes)..]) == 0
    decreases |nodes|
  {
    var k, n := HollowStep(p, nodes), Hollows(p, nodes);
    if k == 0 {
      assert nodes[0..] == nodes;
    } else {
      HollowsEnd(p, nodes[k..]);
      assert nodes[k..][n - k..] == nodes[n..];
    }
  }

  /** An element of a wrapper tag, not empty itself, that holds nothing but blank text and
      empty wrappers. */
  predicate HollowAt(p: Policy, nodes: seq<Node>) {
    && nodes != [] && nodes[0].Open? && IsWrapper(nodes[0].tag) && WrapperAt(p, nodes) == 0
    && var n := Hollows(p, nodes[1..]);
       1 + n < |nodes| && nodes[1 + n] == Close(nodes[0].tag)
  }

  /** Such an element stands somewhere the sweep comes by. */
  predicate HasHollow(p: Policy, nodes: seq<Node>)
    decreases |nodes|
  {
    nodes != [] &&
    (if WrapperAt(p, nodes) > 0 then HasHollow(p, nodes[WrapperAt(p, nodes)..])
     else HollowAt(p, nodes) || HasHollow(p, nodes[1..]))
  }

  lemma SweptHead(p: Policy, nodes: seq<Node>)
    requires p.blank(" ") && HollowStep(p, nodes) > 0
    ensures var swept := Unwrapped(p, nodes);
            && swept != [] && swept[0].Text? && p.blank(swept[0].text)
            && swept[1..] == Unwrapped(p, nodes[HollowStep(p, nodes)..])
  {
  }

  lemma BlanksStep(p: Policy, nodes: seq<Node>)
    requires nodes != [] && nodes[0].Text? && p.blank(nodes[0].text)
    ensures nodes[Blanks(p, nodes)..] == nodes[1..][Blanks(p, nodes[1..])..]
  {
  }

  /** Swept, hollow content is blank text, and what follows it is swept behind it. */
  lemma {:induction false} HollowsAreSwept(p: Policy, nodes: seq<Node>)
    requires p.blank(" ")
    ensures var swept := Unwrapped(p, nodes);
            swept[Blanks(p, swept)..] == Unwrapped(p, nodes[Hollows(p, nodes)..])
    decreases |nodes|
  {
    var swept, k := Unwrapped(p, nodes), HollowStep(p, nodes);
    if k > 0 {
      var rest := nodes[k..];
      HollowsAreSwept(p, rest);
      SweptHead(p, nodes);
      BlanksStep(p, swept);
      assert rest[Hollows(p, rest)..] == nodes[Hollows(p, nodes)..];
    } else {
      assert nodes[0..] == nodes;
      assert Blanks(p, swept) == 0 && swept[0..] == swept;
    }
  }

  /** A sweep makes an empty wrapper of an element exactly when the element is hollow. */
  lemma HollowBecomesEmpty(p: Policy, nodes: seq<Node>)
    requires p.blank(" ") && nodes != [] && WrapperAt(p, nodes) == 0
    ensures WrapperAt(p, Unwrapped(p, nodes)) > 0 <==> HollowAt(p, nodes)
  {
    var swept, rest := Unwrapped(p, nodes), nodes[1..];
    assert swept[0] == nodes[0] && swept[1..] == Unwrapped(p, rest);
    HollowsAreSwept(p, rest);
    HollowsEnd(p, rest);
    AfterHollows(p, swept[1..], rest);
  }

  /** Behind hollow content both streams go on with the same node, or end. */
  lemma AfterHollows(p: Policy, swept: seq<Node>, rest: seq<Node>)
    requires swept[Blanks(p, swept)..] == Unwrapped(p, rest[Hollows(p, rest)..])
    requires HollowStep(p, rest[Hollows(p, rest)..]) == 0
    ensures Blanks(p, swept) < |swept| <==> Hollows(p, rest) < |rest|
    ensures Hollows(p, rest) < |rest| ==> swept[Blanks(p, swept)] == rest[Hollows(p, rest)]
  {
    var c, n := Blanks(p, swept), Hollows(p, rest);
    if n < |rest| {
      assert Unwrapped(p, rest[n..])[0] == rest[n..][0] == rest[n];
      assert swept[c..][0] == swept[c];
    } else {
      assert rest[n..] == [];
      assert |swept[c..]| == 0;
    }
  }

  lemma {:induction false} SweptHasWrapperExactly(p: Policy, nodes: seq<Node>)
    requires p.blank(" ")
    ensures HasWrapper(p, Unwrapped(p, nodes)) <==> HasHollow(p, nodes)
    decreases |nodes|
  {
    if nodes != [] {
      var swept, k := Unwrapped(p, nodes), WrapperAt(p, nodes);
      if k > 0 {
        SweptHasWrapperExactly(p, nodes[k..]);
        assert swept[0] == Text(" ") && swept[1..] == Unwrapped(p, nodes[k..]);
      } else {
        SweptHasWrapperExactly(p, nodes[1..]);
        HollowBecomesEmpty(p, nodes);
        assert swept[1..] == Unwrapped(p, nodes[1..]);
      }
    }
  }

  /** The sweep is not a fixed point: a second one changes the stream again exactly when some
      element held nothing but blank text and empty wrappers. */
  lemma SecondSweepChangesExactly(p: Policy, nodes: seq<Node>)
    requires p.blank(" ")
    ensures Unwrapped(p, Unwrapped(p, nodes)) != Unwrapped(p, nodes) <==> HasHollow(p, nodes)
  {
    SweptHasWrapperExactly(p, nodes);
    SweepChangesExactly(p, Unwrapped(p, nodes));
  }

  /** A wrapper inside a wrapper, and nothing else. */
  function Nested(outer: string, inner: string): seq<Node> {
    [Open(outer, ""), Open(inner, ""), Close(inner), Close(outer)]
  }

  lemma NestedIsHollow(p: Policy, outer: string, inner: string)
    requires IsWrapper(outer) && IsWrapper(inner)
    ensures HasHollow(p, Nested(outer, inner))
  {
    var nodes := Nested(outer, inner);
    assert nodes[1..] == [Open(inner, ""), Close(inner), Close(outer)];
    assert WrapperAt(p, nodes[1..]) == 2 && nodes[1..][2..] == [Close(outer)];
    assert Hollows(p, nodes[1..]) == 2 + Hollows(p, [Close(outer)]) == 2;
  }

  lemma NestedIsWalked(p: Policy, mode: Mode, outer: string, inner: string)
    requires IsWrapper(outer) && IsWrapper(inner) && p.allowed(mode, outer) && p.allowed(mode, inner)
    requires p.layoutAttrs("") == ""
    ensures Walked(p, mode, RereadAll(Nested(outer, inner)), []) == Nested(outer, inner)
  {
    var nodes := Nested(outer, inner);
    WrapperTagsAreLower(outer);
    WrapperTagsAreLower(inner);
    var f := Element(outer, "", Element(inner, "", Nil, Nil), Nil);
    RenderingIsNested(f, []);
    assert Render(f) == nodes;
    LeftAloneExactlyWhenClean(p, mode, nodes);
  }

  /** And such streams come out of the walker, for any allowlist with the two tags. */
  lemma HollowIsReachable(p: Policy, mode: Mode, outer: string, inner: string)
    requires IsWrapper(outer) && IsWrapper(inner) && p.allowed(mode, outer) && p.allowed(mode, inner)
    requires p.layoutAttrs("") == ""
    ensures var walked := Walked(p, mode, RereadAll(Nested(outer, inner)), []);
            walked == Nested(outer, inner) && HasHollow(p, Denoised(p, Merged(walked), true))
  {
    NestedIsWalked(p, mode, outer, inner);
    NestedIsHollow(p, outer, inner);
    assert !HasText(Nested(outer, inner));
    NoTextNoChange(p, Nested(outer, inner), true);
  }

  lemma WrapperTagsAreLower(tag: string)
    requires IsWrapper(tag)
    ensures Lower(tag) == tag && tag != "br" && tag != "hr" && tag != "img" && tag != "a"
  {
    assert forall i | 0 <= i < |tag| :: 'a' <= tag[i] <= 'z';
  }

  ghost predicate HasText(nodes: seq<Node>) {
    exists i | 0 <= i < |nodes| :: nodes[i].Text?
  }

  lemma {:induction false} NoTextNoChange(p: Policy, nodes: seq<Node>, first: bool)
    requires !HasText(nodes)
    ensures Merged(nodes) == nodes && Denoised(p, nodes, first) == nodes
    decreases |nodes|
  {
    if nodes != [] {
      NoTextNoChange(p, nodes[1..], false);
      assert nodes == [nodes[0]] + nodes[1..];
    }
  }

  // ---------------------------------------------------------------- messages left alone

  predicate NoNeighbours(nodes: seq<Node>) {
    |nodes| < 2 || (!(nodes[0].Text? && nodes[1].Text?) && NoNeighbours(nodes[1..]))
  }

  /** Every text stays as it is where it stands. */
  predicate TextsStay(p: Policy, nodes: seq<Node>, first: bool) {
    nodes == [] ||
      (&& (nodes[0].Text? ==> p.undoctyped(nodes[0].text) == nodes[0].text && !Dropped(p, nodes[0].text, first, |nodes| == 1))
       && TextsStay(p, nodes[1..], false))
  }

  predicate EndsTrimmed(p: Policy, nodes: seq<Node>) {
    nodes != [] ==>
      && (nodes[0].Text? ==> SomeText(p.trimLeft(nodes[0].text)) == [nodes[0]])
      && (nodes[|nodes| - 1].Text? ==> SomeText(p.trimRight(nodes[|nodes| - 1].text)) == [nodes[|nodes| - 1]])
  }

  lemma {:induction false} TextsStayWhole(p: Policy, nodes: seq<Node>, first: bool)
    requires NoNeighbours(nodes) && TextsStay(p, nodes, first)
    ensures Merged(nodes) == nodes && Denoised(p, nodes, first) == nodes
    decreases |nodes|
  {
    if nodes != [] {
      TextsStayWhole(p, nodes[1..], false);
      assert nodes == [nodes[0]] + nodes[1..];
    }
  }

  lemma TrimmedStays(p: Policy, nodes: seq<Node>)
    requires EndsTrimmed(p, nodes)
    ensures TrimmedLeft(p, nodes) == nodes && TrimmedRight(p, nodes) == nodes
  {
    if nodes != [] {
      assert [nodes[0]] + nodes[1..] == nodes == nodes[..|nodes| - 1] + [nodes[|nodes| - 1]];
    }
  }

  lemma CleanedStays(p: Policy, nodes: seq<Node>)
    requires NoNeighbours(nodes) && TextsStay(p, nodes, true) && !HasWrapper(p, nodes)
    ensures Merged(nodes) == nodes && Cleaned(p, nodes) == nodes
  {
    TextsStayWhole(p, nodes, true);
    SweepChangesExactly(p, nodes);
  }

  /** A well-nested message of accepted parts, whose texts are no noise, without an empty wrapper
      and trimmed at its ends, comes out of the whole sanitizer as it went in. */
  lemma CleanMessageStays(p: Policy, mode: Mode, nodes: seq<Node>)
    requires WellNested(nodes) && LowerCase(nodes) && forall n | n in nodes :: Accepted(p, mode, n)
    requires NoNeighbours(nodes) && TextsStay(p, nodes, true) && !HasWrapper(p, nodes) && EndsTrimmed(p, nodes)
    ensures Sanitized(p, mode, RereadAll(nodes)) == nodes
  {
    LeftAloneExactlyWhenClean(p, mode, nodes);
    CleanedStays(p, nodes);
    TrimmedStays(p, nodes);
    assert Sanitized(p, mode, RereadAll(nodes)) == TrimmedRight(p, TrimmedLeft(p, Merged(Cleaned(p, nodes))));
  }
}
