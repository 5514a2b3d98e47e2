/**
 * The e-mail HTML sanitizer at the level of tags: a stack machine turns any stream of tags
 * and texts into a well-nested, allowlisted one, and a last pass drops leftovers.
 */
module EmailHtml {
  import opened Options

  datatype Mode = Compose | Display

  const COMPOSE_TAGS: set<string> := {
    "a", "b", "blockquote", "br", "code", "div", "em", "h1", "h2", "h3", "hr", "i", "li", "ol", "p", "pre", "span",
    "strong", "u", "ul"
  }

  const DISPLAY_TAGS: set<string> := COMPOSE_TAGS + {
    "table", "thead", "tbody", "tfoot", "tr", "td", "th", "img", "center", "font", "section", "article", "header",
    "footer", "main", "figure", "figcaption", "sup", "sub", "small"
  }

  function Allowlist(mode: Mode): set<string> {
    if mode.Display? then DISPLAY_TAGS else COMPOSE_TAGS
  }

  /** What the walker's regular expression matches: a tag or a stretch of text. */
  datatype Token = Chunk(chunk: string) | Tag(close: bool, name: string, raw: string)

  /** What the sanitizer writes. */
  datatype Node = Text(text: string) | Void(tag: string, attrs: string) | Open(tag: string, attrs: string) | Close(tag: string)

  /**
   * The allowlist, the text heuristics and the attribute filters are taken as they come: what
   * follows holds for any functions at all. `Shipped` fixes the allowlist to the one in use.
   */
  datatype Policy = Policy(
    allowed: (Mode, string) -> bool,
    noise: string -> bool,
    slice: string -> bool,
    blank: string -> bool,
    escape: string -> string,
    undoctyped: string -> string,
    trimLeft: string -> string,
    trimRight: string -> string,
    linkAttrs: string -> Option<string>,
    imgAttrs: string -> Option<string>,
    layoutAttrs: string -> string)

  ghost predicate Shipped(p: Policy) {
    forall mode, tag :: p.allowed(mode, tag) <==> tag in Allowlist(mode)
  }

  function LowerChar(c: char): char {
    if 'A' <= c <= 'Z' then c - 'A' + 'a' else c
  }

  function Lower(s: string): string {
    seq(|s|, i requires 0 <= i < |s| => LowerChar(s[i]))
  }

  // ---------------------------------------------------------------- the walker

  /** What a text or an opening tag turns into; it never depends on the tags around it. */
  function Emitted(p: Policy, mode: Mode, t: Token): Option<Node> {
    match t
    case Chunk(s) => if p.noise(s) then None else Some(Text(p.escape(s)))
    case Tag(close, name, raw) =>
      var tag := Lower(name);
      if close || !p.allowed(mode, tag) then None
      else if tag == "br" || tag == "hr" then Some(Void(tag, ""))
      else if tag == "img" then
        if mode.Display? && p.imgAttrs(raw).Some? then Some(Void(tag, p.imgAttrs(raw).value)) else None
      else if tag == "a" then
        if p.linkAttrs(raw).Some? then Some(Open(tag, p.linkAttrs(raw).value)) else None
      else Some(Open(tag, if mode.Display? then p.layoutAttrs(raw) else ""))
  }

  /** lastIndexOf. */
  function LastIndex(stack: seq<string>, tag: string): (i: int)
    ensures -1 <= i < |stack|
    ensures i == -1 <==> tag !in stack
    ensures i >= 0 ==> stack[i] == tag && tag !in stack[i + 1..]
  {
    if stack == [] then -1
    else if stack[|stack| - 1] == tag then |stack| - 1
    else
      var i := LastIndex(stack[..|stack| - 1], tag);
      assert stack == stack[..|stack| - 1] + [stack[|stack| - 1]];
      assert i >= 0 ==> stack[i + 1..] == stack[..|stack| - 1][i + 1..] + [stack[|stack| - 1]];
      i
  }

  /** Close every open tag, innermost first. */
  function Closing(stack: seq<string>): seq<Node> {
    if stack == [] then [] else [Close(stack[|stack| - 1])] + Closing(stack[..|stack| - 1])
  }

  /** The output for the remaining tokens, with the tags of `stack` still open. */
  function Walked(p: Policy, mode: Mode, tokens: seq<Token>, stack: seq<string>): seq<Node> {
    if tokens == [] then Closing(stack)
    else
      var t, rest := tokens[0], tokens[1..];
      if t.Tag? && t.close then
        var at := LastIndex(stack, Lower(t.name));
        if !p.allowed(mode, Lower(t.name)) || at == -1 then Walked(p, mode, rest, stack)
        else Closing(stack[at..]) + Walked(p, mode, rest, stack[..at])
      else
        var e := Emitted(p, mode, t);
        if e.None? then Walked(p, mode, rest, stack)
        else if e.value.Open? then [e.value] + Walked(p, mode, rest, stack + [e.value.tag])
        else [e.value] + Walked(p, mode, rest, stack)
  }

  lemma Joined(a: seq<Node>, b: seq<Node>, c: seq<Node>)
    ensures (a + b) + c == a + (b + c)
  {
  }

  /** Pop the stack down to height `at`, writing the closing tags. */
  method CloseDown(out: seq<Node>, openStack: seq<string>, at: nat) returns (out': seq<Node>, openStack': seq<string>)
    requires at <= |openStack|
    ensures out' == out + Closing(openStack[at..])
    ensures openStack' == openStack[..at]
  {
    out', openStack' := out, openStack;
    while |openStack'| > at
      invariant at <= |openStack'| <= |openStack| && openStack' == openStack[..|openStack'|]
      invariant out' + Closing(openStack'[at..]) == out + Closing(openStack[at..])
    {
      var t := openStack'[|openStack'| - 1];
      ghost var left := openStack'[at..];
      openStack' := openStack'[..|openStack'| - 1];
      assert left[..|left| - 1] == openStack'[at..];
      Joined(out', [Close(t)], Closing(openStack'[at..]));
      out' := out' + [Close(t)];
    }
  }

  /** The walker's loop over the matches. */
  method Walk(p: Policy, mode: Mode, tokens: seq<Token>) returns (out: seq<Node>)
    ensures out == Walked(p, mode, tokens, [])
  {
    out := [];
    var openStack: seq<string> := [];
    for i := 0 to |tokens|
      invariant out + Walked(p, mode, tokens[i..], openStack) == Walked(p, mode, tokens, [])
    {
      var t := tokens[i];
      ghost var rest := tokens[i + 1..];
      assert tokens[i..][0] == t && tokens[i..][1..] == rest;
      if t.Tag? && t.close {
        var at := LastIndex(openStack, Lower(t.name));
        if p.allowed(mode, Lower(t.name)) && at != -1 {
          Joined(out, Closing(openStack[at..]), Walked(p, mode, rest, openStack[..at]));
          out, openStack := CloseDown(out, openStack, at);
        }
      } else {
        var e := Emitted(p, mode, t);
        if e.Some? {
          var inner := if e.value.Open? then openStack + [e.value.tag] else openStack;
          Joined(out, [e.value], Walked(p, mode, rest, inner));
          out, openStack := out + [e.value], inner;
        }
      }
    }
    assert openStack[0..] == openStack;
    out, openStack := CloseDown(out, openStack, 0);
  }

  // ---------------------------------------------------------------- well-nested streams

  /** The tags still open after a stream, None as soon as a tag is closed out of turn. */
  function OpenAfter(nodes: seq<Node>, stack: seq<string>): Option<seq<string>> {
    if nodes == [] then Some(stack)
    else match nodes[0]
      case Text(_) => OpenAfter(nodes[1..], stack)
      case Void(_, _) => OpenAfter(nodes[1..], stack)
      case Open(t, _) => OpenAfter(nodes[1..], stack + [t])
      case Close(t) => if stack == [] || stack[|stack| - 1] != t then None else OpenAfter(nodes[1..], stack[..|stack| - 1])
  }

  predicate WellNested(nodes: seq<Node>) {
    OpenAfter(nodes, []) == Some([])
  }

  /** A document: texts and void tags, and elements with a document inside. */
  datatype Forest = Nil | Leaf(node: Node, after: Forest) | Element(tag: string, attrs: string, inside: Forest, after: Forest)

  predicate Proper(f: Forest) {
    match f
    case Nil => true
    case Leaf(n, after) => (n.Text? || n.Void?) && Proper(after)
    case Element(_, _, inside, after) => Proper(inside) && Proper(after)
  }

  function Render(f: Forest): seq<Node> {
    match f
    case Nil => []
    case Leaf(n, after) => [n] + Render(after)
    case Element(t, a, inside, after) => [Open(t, a)] + Render(inside) + [Close(t)] + Render(after)
  }

  lemma {:induction false} OpenAfterJoin(a: seq<Node>, b: seq<Node>, stack: seq<string>)
    ensures OpenAfter(a + b, stack) == (if OpenAfter(a, stack).None? then None else OpenAfter(b, OpenAfter(a, stack).value))
  {
    if a == [] {
      assert a + b == b;
    } else {
      assert (a + b)[0] == a[0] && (a + b)[1..] == a[1..] + b;
      match a[0] {
        case Text(_) => OpenAfterJoin(a[1..], b, stack);
        case Void(_, _) => OpenAfterJoin(a[1..], b, stack);
        case Open(t, _) => OpenAfterJoin(a[1..], b, stack + [t]);
        case Close(t) => if stack != [] { OpenAfterJoin(a[1..], b, stack[..|stack| - 1]); }
      }
    }
  }

  lemma OpenAfterElement(t: string, a: string, inside: seq<Node>, after: seq<Node>, stack: seq<string>)
    requires OpenAfter(inside, stack + [t]) == Some(stack + [t])
    ensures OpenAfter([Open(t, a)] + inside + [Close(t)] + after, stack) == OpenAfter(after, stack)
  {
    var tail := [Close(t)] + after;
    assert tail[0] == Close(t) && tail[1..] == after;
    assert (stack + [t])[..|stack + [t]| - 1] == stack;
    var whole := [Open(t, a)] + inside + [Close(t)] + after;
    assert whole == [Open(t, a)] + (inside + tail);
    assert whole[1..] == inside + tail;
    OpenAfterJoin(inside, tail, stack + [t]);
  }

  lemma {:induction false} RenderingIsNested(f: Forest, stack: seq<string>)
    requires Proper(f)
    ensures OpenAfter(Render(f), stack) == Some(stack)
  {
    match f {
      case Nil =>
      case Leaf(n, after) =>
        RenderingIsNested(after, stack);
        assert Render(f)[0] == n && Render(f)[1..] == Render(after);
      case Element(t, a, inside, after) =>
        RenderingIsNested(inside, stack + [t]);
        RenderingIsNested(after, stack);
        OpenAfterElement(t, a, Render(inside), Render(after), stack);
    }
  }

  lemma RenderElement(nodes: seq<Node>, inside: Forest, i: nat, after: Forest, m: nat)
    requires i + 2 + m <= |nodes| && nodes[0].Open? && nodes[i + 1] == Close(nodes[0].tag)
    requires Render(inside) == nodes[1..][..i] && Render(after) == nodes[i + 2..][..m]
    ensures Render(Element(nodes[0].tag, nodes[0].attrs, inside, after)) == nodes[..i + 2 + m]
  {
  }

  /** The `n` first nodes are a document; what follows closes the innermost open tag, or is
      nothing if there is none. */
  ghost predicate Completes(nodes: seq<Node>, stack: seq<string>, f: Forest, n: nat) {
    && Proper(f) && n <= |nodes| && Render(f) == nodes[..n]
    && (stack == [] ==> n == |nodes|)
    && (stack != [] ==>
          && n < |nodes| && nodes[n] == Close(stack[|stack| - 1])
          && OpenAfter(nodes[n + 1..], stack[..|stack| - 1]) == Some([]))
  }

  lemma CompletesElement(nodes: seq<Node>, stack: seq<string>, inside: Forest, i: nat, after: Forest, m: nat)
    requires nodes != [] && nodes[0].Open? && i + 2 <= |nodes| && nodes[i + 1] == Close(nodes[0].tag)
    requires Proper(inside) && Render(inside) == nodes[1..][..i]
    requires Completes(nodes[i + 2..], stack, after, m)
    ensures Completes(nodes, stack, Element(nodes[0].tag, nodes[0].attrs, inside, after), i + 2 + m)
  {
    RenderElement(nodes, inside, i, after, m);
    assert stack != [] ==> nodes[i + 2..][m + 1..] == nodes[i + 2 + m + 1..];
  }

  lemma CompletesLeaf(nodes: seq<Node>, stack: seq<string>, after: Forest, m: nat)
    requires nodes != [] && (nodes[0].Text? || nodes[0].Void?) && Completes(nodes[1..], stack, after, m)
    ensures Completes(nodes, stack, Leaf(nodes[0], after), m + 1)
  {
  }

  lemma {:induction false} NestedIsRendering(nodes: seq<Node>, stack: seq<string>) returns (f: Forest, n: nat)
    requires OpenAfter(nodes, stack) == Some([])
    ensures Completes(nodes, stack, f, n)
    decreases |nodes|
  {
    if nodes == [] || nodes[0].Close? {
      f, n := Nil, 0;
    } else if nodes[0].Open? {
      var inside, i := NestedIsRendering(nodes[1..], stack + [nodes[0].tag]);
      assert (stack + [nodes[0].tag])[..|stack + [nodes[0].tag]| - 1] == stack;
      assert nodes[1..][i + 1..] == nodes[i + 2..];
      var after, m := NestedIsRendering(nodes[i + 2..], stack);
      CompletesElement(nodes, stack, inside, i, after, m);
      f, n := Element(nodes[0].tag, nodes[0].attrs, inside, after), i + 2 + m;
    } else {
      var after, m := NestedIsRendering(nodes[1..], stack);
      CompletesLeaf(nodes, stack, after, m);
      f, n := Leaf(nodes[0], after), m + 1;
    }
  }

  /** Well nested means: the rendering of some document. */
  lemma WellNestedExactlyWhenRendered(nodes: seq<Node>)
    ensures WellNested(nodes) <==> exists f :: Proper(f) && Render(f) == nodes
  {
    if WellNested(nodes) {
      var f, n := NestedIsRendering(nodes, []);
      assert nodes[..n] == nodes;
      assert Proper(f) && Render(f) == nodes;
    }
    forall f | Proper(f) && Render(f) == nodes ensures WellNested(nodes) {
      RenderingIsNested(f, []);
    }
  }

  // ---------------------------------------------------------------- what the walker guarantees

  lemma {:induction false} ClosingCloses(stack: seq<string>, k: nat)
    requires k <= |stack|
    ensures OpenAfter(Closing(stack[k..]), stack) == Some(stack[..k])
    decreases |stack|
  {
    if k < |stack| {
      var top := stack[k..];
      assert top[..|top| - 1] == stack[..|stack| - 1][k..];
      ClosingCloses(stack[..|stack| - 1], k);
      assert stack[..|stack| - 1][..k] == stack[..k];
      assert Closing(top)[0] == Close(stack[|stack| - 1]) && Closing(top)[1..] == Closing(top[..|top| - 1]);
    } else {
      assert stack[..k] == stack;
    }
  }

  /** Whatever comes in, what goes out is well nested. */
  lemma {:induction false} WalkedIsNested(p: Policy, mode: Mode, tokens: seq<Token>, stack: seq<string>)
    ensures OpenAfter(Walked(p, mode, tokens, stack), stack) == Some([])
    decreases |tokens|
  {
    if tokens == [] {
      ClosingCloses(stack, 0);
      assert stack[0..] == stack;
    } else {
      var t, rest := tokens[0], tokens[1..];
      if t.Tag? && t.close {
        var at := LastIndex(stack, Lower(t.name));
        if !p.allowed(mode, Lower(t.name)) || at == -1 {
          WalkedIsNested(p, mode, rest, stack);
        } else {
          WalkedIsNested(p, mode, rest, stack[..at]);
          ClosingCloses(stack, at);
          OpenAfterJoin(Closing(stack[at..]), Walked(p, mode, rest, stack[..at]), stack);
        }
      } else {
        var e := Emitted(p, mode, t);
        var inner := if e.Some? && e.value.Open? then stack + [e.value.tag] else stack;
        WalkedIsNested(p, mode, rest, inner);
        if e.Some? {
          var tail := Walked(p, mode, rest, inner);
          assert ([e.value] + tail)[1..] == tail;
        }
      }
    }
  }

  predicate TagAllowed(p: Policy, mode: Mode, n: Node) {
    n.Text? || p.allowed(mode, n.tag)
  }

  lemma {:induction false} ClosingAllowed(p: Policy, mode: Mode, stack: seq<string>)
    requires forall t | t in stack :: p.allowed(mode, t)
    ensures forall n | n in Closing(stack) :: TagAllowed(p, mode, n)
  {
    if stack != [] {
      ClosingAllowed(p, mode, stack[..|stack| - 1]);
    }
  }

  /** Only tags of the allowlist go out. */
  lemma {:induction false} WalkedIsAllowed(p: Policy, mode: Mode, tokens: seq<Token>, stack: seq<string>)
    requires forall t | t in stack :: p.allowed(mode, t)
    ensures forall n | n in Walked(p, mode, tokens, stack) :: TagAllowed(p, mode, n)
    decreases |tokens|
  {
    if tokens == [] {
      ClosingAllowed(p, mode, stack);
    } else {
      var t, rest := tokens[0], tokens[1..];
      if t.Tag? && t.close {
        var at := LastIndex(stack, Lower(t.name));
        if !p.allowed(mode, Lower(t.name)) || at == -1 {
          WalkedIsAllowed(p, mode, rest, stack);
        } else {
          WalkedIsAllowed(p, mode, rest, stack[..at]);
          ClosingAllowed(p, mode, stack[at..]);
        }
      } else {
        var e := Emitted(p, mode, t);
        WalkedIsAllowed(p, mode, rest, if e.Some? && e.value.Open? then stack + [e.value.tag] else stack);
      }
    }
  }

  /** A stream without its closing tags. */
  function Content(nodes: seq<Node>): seq<Node> {
    if nodes == [] then []
    else (if nodes[0].Close? then [] else [nodes[0]]) + Content(nodes[1..])
  }

  function Kept(p: Policy, mode: Mode, tokens: seq<Token>): seq<Node> {
    if tokens == [] then []
    else (if Emitted(p, mode, tokens[0]).Some? then [Emitted(p, mode, tokens[0]).value] else []) + Kept(p, mode, tokens[1..])
  }

  lemma {:induction false} ContentJoin(a: seq<Node>, b: seq<Node>)
    ensures Content(a + b) == Content(a) + Content(b)
  {
    if a == [] {
      assert a + b == b;
    } else {
      assert (a + b)[0] == a[0] && (a + b)[1..] == a[1..] + b;
      ContentJoin(a[1..], b);
    }
  }

  lemma {:induction false} ClosingHasNoContent(stack: seq<string>)
    ensures Content(Closing(stack)) == []
  {
    if stack != [] {
      ClosingHasNoContent(stack[..|stack| - 1]);
      assert Closing(stack)[1..] == Closing(stack[..|stack| - 1]);
    }
  }

  lemma ContentAfterClosing(stack: seq<string>, tail: seq<Node>)
    ensures Content(Closing(stack) + tail) == Content(tail)
  {
    ClosingHasNoContent(stack);
    ContentJoin(Closing(stack), tail);
  }

  lemma ContentCons(n: Node, tail: seq<Node>)
    ensures Content([n] + tail) == (if n.Close? then [] else [n]) + Content(tail)
  {
  }

  /** Texts and opening tags go out once each, in the order they came in, each decided on its
      own: however the input is nested, none is lost, repeated or moved. */
  lemma {:induction false} WalkedKeepsContent(p: Policy, mode: Mode, tokens: seq<Token>, stack: seq<string>)
    ensures Content(Walked(p, mode, tokens, stack)) == Kept(p, mode, tokens)
    decreases |tokens|
  {
    if tokens == [] {
      ClosingHasNoContent(stack);
    } else {
      var t, rest := tokens[0], tokens[1..];
      var e := Emitted(p, mode, t);
      if t.Tag? && t.close {
        assert Kept(p, mode, tokens) == Kept(p, mode, rest);
        var at := LastIndex(stack, Lower(t.name));
        if !p.allowed(mode, Lower(t.name)) || at == -1 {
          WalkedKeepsContent(p, mode, rest, stack);
        } else {
          WalkedKeepsContent(p, mode, rest, stack[..at]);
          ContentAfterClosing(stack[at..], Walked(p, mode, rest, stack[..at]));
        }
      } else if e.None? {
        WalkedKeepsContent(p, mode, rest, stack);
      } else {
        var inner := if e.value.Open? then stack + [e.value.tag] else stack;
        WalkedKeepsContent(p, mode, rest, inner);
        ContentCons(e.value, Walked(p, mode, rest, inner));
      }
    }
  }

  // ---------------------------------------------------------------- streams left alone

  /** How a written node reads when the output is sanitized again. */
  function Reread(n: Node): Token {
    match n
    case Text(s) => Chunk(s)
    case Void(t, a) => Tag(false, t, a)
    case Open(t, a) => Tag(false, t, a)
    case Close(t) => Tag(true, t, "")
  }

  function RereadAll(nodes: seq<Node>): seq<Token> {
    if nodes == [] then [] else [Reread(nodes[0])] + RereadAll(nodes[1..])
  }

  /** The text or opening tag goes through as it is; a closing tag is allowlisted. */
  predicate Accepted(p: Policy, mode: Mode, n: Node) {
    if n.Close? then p.allowed(mode, n.tag) else Emitted(p, mode, Reread(n)) == Some(n)
  }

  ghost predicate LowerCase(nodes: seq<Node>) {
    forall n | n in nodes && !n.Text? :: Lower(n.tag) == n.tag
  }

  lemma WalkedOverAccepted(p: Policy, mode: Mode, n: Node, rest: seq<Token>, stack: seq<string>)
    requires !n.Close? && Accepted(p, mode, n)
    ensures Walked(p, mode, [Reread(n)] + rest, stack) == [n] + Walked(p, mode, rest, if n.Open? then stack + [n.tag] else stack)
  {
    var tokens := [Reread(n)] + rest;
    assert tokens[0] == Reread(n) && tokens[1..] == rest;
  }

  lemma ClosingTop(stack: seq<string>)
    requires stack != []
    ensures LastIndex(stack, stack[|stack| - 1]) == |stack| - 1
    ensures Closing(stack[|stack| - 1..]) == [Close(stack[|stack| - 1])]
  {
  }

  lemma WalkedOverClose(p: Policy, mode: Mode, t: string, rest: seq<Token>, stack: seq<string>)
    requires p.allowed(mode, t) && Lower(t) == t && stack != [] && stack[|stack| - 1] == t
    ensures Walked(p, mode, [Tag(true, t, "")] + rest, stack) == [Close(t)] + Walked(p, mode, rest, stack[..|stack| - 1])
  {
    var tokens := [Tag(true, t, "")] + rest;
    ClosingTop(stack);
    assert tokens[0] == Tag(true, t, "") && tokens[1..] == rest;
  }

  lemma {:induction false} CleanStaysFrom(p: Policy, mode: Mode, nodes: seq<Node>, stack: seq<string>)
    requires OpenAfter(nodes, stack) == Some([]) && LowerCase(nodes)
    requires forall n | n in nodes :: Accepted(p, mode, n)
    ensures Walked(p, mode, RereadAll(nodes), stack) == nodes
    decreases |nodes|
  {
    if nodes != [] {
      var n, rest := nodes[0], nodes[1..];
      assert n in nodes && nodes == [n] + rest;
      if n.Close? {
        CleanStaysFrom(p, mode, rest, stack[..|stack| - 1]);
        WalkedOverClose(p, mode, n.tag, RereadAll(rest), stack);
      } else {
        CleanStaysFrom(p, mode, rest, if n.Open? then stack + [n.tag] else stack);
        WalkedOverAccepted(p, mode, n, RereadAll(rest), stack);
      }
    }
  }

  lemma {:induction false} KeptNoLonger(p: Policy, mode: Mode, nodes: seq<Node>)
    ensures |Kept(p, mode, RereadAll(nodes))| <= |Content(nodes)|
  {
    if nodes != [] {
      KeptNoLonger(p, mode, nodes[1..]);
      assert RereadAll(nodes)[0] == Reread(nodes[0]) && RereadAll(nodes)[1..] == RereadAll(nodes[1..]);
    }
  }

  lemma KeptHead(p: Policy, mode: Mode, n: Node, rest: seq<Node>)
    requires Kept(p, mode, RereadAll([n] + rest)) == Content([n] + rest)
    ensures !n.Close? ==> Accepted(p, mode, n)
    ensures Kept(p, mode, RereadAll(rest)) == Content(rest)
  {
    var nodes := [n] + rest;
    assert nodes[0] == n && nodes[1..] == rest;
    var tokens := RereadAll(nodes);
    assert tokens[0] == Reread(n) && tokens[1..] == RereadAll(rest);
    var e := Emitted(p, mode, Reread(n));
    var kept, content := Kept(p, mode, RereadAll(rest)), Content(rest);
    KeptNoLonger(p, mode, rest);
    if !n.Close? {
      assert e.None? ==> kept == [n] + content;
      assert [e.value] + kept == [n] + content;
      assert ([e.value] + kept)[0] == ([n] + content)[0];
      assert kept == ([e.value] + kept)[1..] == ([n] + content)[1..] == content;
    } else {
      assert kept == [] + kept == [] + content == content;
    }
  }

  lemma {:induction false} AllKeptIsAccepted(p: Policy, mode: Mode, nodes: seq<Node>)
    requires Kept(p, mode, RereadAll(nodes)) == Content(nodes)
    ensures forall n | n in nodes && !n.Close? :: Accepted(p, mode, n)
  {
    if nodes != [] {
      assert nodes == [nodes[0]] + nodes[1..];
      KeptHead(p, mode, nodes[0], nodes[1..]);
      AllKeptIsAccepted(p, mode, nodes[1..]);
    }
  }

  /** The walker leaves a stream alone exactly when it is well nested and every part of it is
      accepted as it stands. */
  lemma LeftAloneExactlyWhenClean(p: Policy, mode: Mode, nodes: seq<Node>)
    requires LowerCase(nodes)
    ensures Walked(p, mode, RereadAll(nodes), []) == nodes <==> WellNested(nodes) && forall n | n in nodes :: Accepted(p, mode, n)
  {
    if Walked(p, mode, RereadAll(nodes), []) == nodes {
      WalkedIsNested(p, mode, RereadAll(nodes), []);
      WalkedIsAllowed(p, mode, RereadAll(nodes), []);
      WalkedKeepsContent(p, mode, RereadAll(nodes), []);
      AllKeptIsAccepted(p, mode, nodes);
    }
    if WellNested(nodes) && forall n | n in nodes :: Accepted(p, mode, n) {
      CleanStaysFrom(p, mode, nodes, []);
    }
  }
}
