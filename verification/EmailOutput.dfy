/** What the sanitizer writes for each part of its input, and what its final passes let through. */
module EmailOutput {
  import opened Options
  import opened EmailHtml
  import opened EmailCleanup

  // ---------------------------------------------------------------- texts

  /** The texts of a stream, in order. */
  function Texts(nodes: seq<Node>): seq<string> {
    if nodes == [] then [] else (if nodes[0].Text? then [nodes[0].text] else []) + Texts(nodes[1..])
  }

  /** The input's texts that are no noise, escaped. */
  function Escaped(p: Policy, tokens: seq<Token>): seq<string> {
    if tokens == [] then []
    else (if tokens[0].Chunk? && !p.noise(tokens[0].chunk) then [p.escape(tokens[0].chunk)] else []) + Escaped(p, tokens[1..])
  }

  lemma {:induction false} ContentHasTexts(nodes: seq<Node>)
    ensures Texts(Content(nodes)) == Texts(nodes)
  {
    if nodes != [] {
      ContentHasTexts(nodes[1..]);
      if !nodes[0].Close? {
        var content := [nodes[0]] + Content(nodes[1..]);
        assert content[0] == nodes[0] && content[1..] == Content(nodes[1..]);
      } else {
        assert Content(nodes) == Content(nodes[1..]);
      }
    }
  }

  lemma {:induction false} KeptTextsAreEscaped(p: Policy, mode: Mode, tokens: seq<Token>)
    ensures Texts(Kept(p, mode, tokens)) == Escaped(p, tokens)
  {
    if tokens != [] {
      KeptTextsAreEscaped(p, mode, tokens[1..]);
      var e := Emitted(p, mode, tokens[0]);
      if e.Some? {
        var kept := [e.value] + Kept(p, mode, tokens[1..]);
        assert kept[0] == e.value && kept[1..] == Kept(p, mode, tokens[1..]);
      } else {
        assert Kept(p, mode, tokens) == Kept(p, mode, tokens[1..]);
      }
    }
  }

  /** The walker writes each text of the input that is no noise, escaped, in order, and no other. */
  lemma TextsGoOutEscaped(p: Policy, mode: Mode, tokens: seq<Token>)
    ensures Texts(Walked(p, mode, tokens, [])) == Escaped(p, tokens)
  {
    WalkedKeepsContent(p, mode, tokens, []);
    ContentHasTexts(Walked(p, mode, tokens, []));
    KeptTextsAreEscaped(p, mode, tokens);
  }

  /** escapeText: its four replacements never meet, so they come to one pass over the text. */
  function EscapeText(s: string): string {
    if s == "" then ""
    else (match s[0] case '&' => "&amp;" case '<' => "&lt;" case '>' => "&gt;" case '"' => "&quot;" case c => [c]) + EscapeText(s[1..])
  }

  lemma {:induction false} EscapedHasNoMarkup(s: string)
    ensures forall c | c in EscapeText(s) :: c != '<' && c != '>' && c != '"'
  {
    if s != "" {
      EscapedHasNoMarkup(s[1..]);
    }
  }

  lemma {:induction false} TextIsEscaped(p: Policy, tokens: seq<Token>, text: string)
    requires text in Escaped(p, tokens)
    ensures exists s :: text == p.escape(s)
  {
    if tokens[0].Chunk? && !p.noise(tokens[0].chunk) && text == p.escape(tokens[0].chunk) {
    } else {
      TextIsEscaped(p, tokens[1..], text);
    }
  }

  lemma {:induction false} TextIsListed(nodes: seq<Node>, i: nat)
    requires i < |nodes| && nodes[i].Text?
    ensures nodes[i].text in Texts(nodes)
  {
    if i > 0 {
      TextIsListed(nodes[1..], i - 1);
    }
  }

  /** So with the escaping in use no text the walker writes opens or closes a tag or a quote. */
  lemma TextsHaveNoMarkup(p: Policy, mode: Mode, tokens: seq<Token>, i: nat)
    requires forall s :: p.escape(s) == EscapeText(s)
    requires i < |Walked(p, mode, tokens, [])| && Walked(p, mode, tokens, [])[i].Text?
    ensures forall c | c in Walked(p, mode, tokens, [])[i].text :: c != '<' && c != '>' && c != '"'
  {
    var nodes := Walked(p, mode, tokens, []);
    TextIsListed(nodes, i);
    TextsGoOutEscaped(p, mode, tokens);
    TextIsEscaped(p, tokens, nodes[i].text);
    var s :| nodes[i].text == p.escape(s);
    EscapedHasNoMarkup(s);
  }

  // ---------------------------------------------------------------- tags

  lemma {:induction false} KeptJoin(p: Policy, mode: Mode, a: seq<Token>, b: seq<Token>)
    ensures Kept(p, mode, a + b) == Kept(p, mode, a) + Kept(p, mode, b)
  {
    if a == [] {
      assert a + b == b;
    } else {
      assert (a + b)[0] == a[0] && (a + b)[1..] == a[1..] + b;
      KeptJoin(p, mode, a[1..], b);
    }
  }

  /** Tag names are read without regard to case. */
  predicate Names(name: string, tag: string) {
    |name| == |tag| && forall i | 0 <= i < |tag| :: name[i] == tag[i] || ('a' <= tag[i] <= 'z' && name[i] as int == tag[i] as int - 32)
  }

  lemma NamedIsLower(name: string, tag: string)
    requires Names(name, tag) && forall c | c in tag :: !('A' <= c <= 'Z')
    ensures Lower(name) == tag
  {
    forall i | 0 <= i < |tag| ensures Lower(name)[i] == tag[i] {
      assert tag[i] in tag;
      assert name[i] != tag[i] ==> 'A' <= name[i] <= 'Z' && (name[i] - 'A' + 'a') as int == tag[i] as int;
    }
  }

  /** What an opening tag `tag` with attributes `raw` goes out as, wherever it stands, when the
      allowlist has it. */
  ghost predicate GoesOutAs(p: Policy, mode: Mode, tag: string, raw: string, part: seq<Node>) {
    && (tag == "br" || tag == "hr" ==> part == [Void(tag, "")])
    && (tag == "img" && (mode.Compose? || p.imgAttrs(raw).None?) ==> part == [])
    && (tag == "img" && mode.Display? && p.imgAttrs(raw).Some? ==> part == [Void("img", p.imgAttrs(raw).value)])
    && (tag == "a" && p.linkAttrs(raw).None? ==> part == [])
    && (tag == "a" && p.linkAttrs(raw).Some? ==> part == [Open("a", p.linkAttrs(raw).value)])
    && (tag !in {"br", "hr", "img", "a"} ==> part == [Open(tag, if mode == Display then p.layoutAttrs(raw) else "")])
  }

  /** Between whatever stands before and after it, an opening tag goes out as that, once; one
      that the allowlist has not goes out as nothing. */
  lemma EachTagGoesOut(p: Policy, mode: Mode, before: seq<Token>, name: string, tag: string, raw: string, after: seq<Token>) returns (part: seq<Node>)
    requires Names(name, tag) && forall c | c in tag :: !('A' <= c <= 'Z')
    ensures Content(Walked(p, mode, before + [Tag(false, name, raw)] + after, []))
         == Content(Walked(p, mode, before, [])) + part + Content(Walked(p, mode, after, []))
    ensures if p.allowed(mode, tag) then GoesOutAs(p, mode, tag, raw, part) else part == []
  {
    var t := Tag(false, name, raw);
    NamedIsLower(name, tag);
    WalkedKeepsContent(p, mode, before + [t] + after, []);
    WalkedKeepsContent(p, mode, before, []);
    WalkedKeepsContent(p, mode, after, []);
    KeptJoin(p, mode, before + [t], after);
    KeptJoin(p, mode, before, [t]);
    part := Kept(p, mode, [t]);
    assert Kept(p, mode, [t][1..]) == [];
  }

  lemma NoScript(mode: Mode)
    ensures "script" !in Allowlist(mode)
  {
  }

  lemma NoStyle(mode: Mode)
    ensures "style" !in Allowlist(mode)
  {
  }

  lemma NoIframe(mode: Mode)
    ensures "iframe" !in Allowlist(mode)
  {
  }

  lemma NoObject(mode: Mode)
    ensures "object" !in Allowlist(mode)
  {
  }

  lemma NoForm(mode: Mode)
    ensures "form" !in Allowlist(mode)
  {
  }

  lemma NoImageInCompose()
    ensures "img" !in Allowlist(Compose)
  {
  }

  lemma NoTableInCompose()
    ensures "table" !in Allowlist(Compose)
  {
  }

  /** The lists in use have no tag that runs, styles, frames, loads or submits anything,
      and what is composed has no images or tables either. */
  lemma NothingActiveGoesOut(p: Policy, mode: Mode, tokens: seq<Token>)
    requires Shipped(p)
    ensures forall n | n in Sanitized(p, mode, tokens) && !n.Text? :: n.tag !in {"script", "style", "iframe", "object", "form"}
    ensures forall n | n in Sanitized(p, Compose, tokens) && !n.Text? :: n.tag != "img" && n.tag != "table"
  {
    OnlyListedTags(p, Compose, tokens);
    NoImageInCompose();
    NoTableInCompose();
    OnlyListedTags(p, mode, tokens);
    NoScript(mode);
    NoStyle(mode);
    NoIframe(mode);
    NoObject(mode);
    NoForm(mode);
  }

  // ---------------------------------------------------------------- the final passes

  /** The characters of the texts and the tags between them, as the joined string has them. */
  datatype Piece = Char(c: char) | Markup(tag: Node)

  function Chars(text: string): seq<Piece> {
    seq(|text|, i requires 0 <= i < |text| => Char(text[i]))
  }

  function Pieces(nodes: seq<Node>): seq<Piece> {
    if nodes == [] then [] else (if nodes[0].Text? then Chars(nodes[0].text) else [Markup(nodes[0])]) + Pieces(nodes[1..])
  }

  /** Joining loses nothing and leaves no two texts side by side. */
  lemma {:induction false} MergedIsJoined(nodes: seq<Node>)
    ensures Pieces(Merged(nodes)) == Pieces(nodes) && NoNeighbours(Merged(nodes))
    ensures nodes != [] ==> Merged(nodes) != [] && (Merged(nodes)[0].Text? <==> nodes[0].Text?)
    decreases |nodes|
  {
    if |nodes| >= 2 {
      if nodes[0].Text? && nodes[1].Text? {
        var joined := [Text(nodes[0].text + nodes[1].text)] + nodes[2..];
        MergedIsJoined(joined);
        assert joined[1..] == nodes[2..] && nodes[1..][1..] == nodes[2..];
        assert Chars(nodes[0].text + nodes[1].text) == Chars(nodes[0].text) + Chars(nodes[1].text);
      } else {
        MergedIsJoined(nodes[1..]);
        var merged := [nodes[0]] + Merged(nodes[1..]);
        assert merged[0] == nodes[0] && merged[1..] == Merged(nodes[1..]);
      }
    }
  }

  /** The text sweep over a stream whose texts are no noise only takes doctypes out of them. */
  function Undoctyped(p: Policy, nodes: seq<Node>): seq<Node> {
    if nodes == [] then []
    else [if nodes[0].Text? then Text(p.undoctyped(nodes[0].text)) else nodes[0]] + Undoctyped(p, nodes[1..])
  }

  ghost predicate Plain(p: Policy, nodes: seq<Node>) {
    forall n | n in nodes && n.Text? ::
      var text := p.undoctyped(n.text); text != "" && !p.noise(text) && !p.slice(text)
  }

  /** Nothing but noise is dropped. */
  lemma {:induction false} PlainTextsStay(p: Policy, nodes: seq<Node>, first: bool)
    requires Plain(p, nodes)
    ensures Denoised(p, nodes, first) == Undoctyped(p, nodes)
  {
    if nodes != [] {
      assert nodes[0] in nodes;
      PlainTextsStay(p, nodes[1..], false);
    }
  }

  /** A text behind the last tag is not looked at: noise or not, it stays. */
  lemma {:induction false} LastTextStays(p: Policy, nodes: seq<Node>, first: bool)
    requires |nodes| > 1 && nodes[|nodes| - 1].Text? && p.undoctyped(nodes[|nodes| - 1].text) != ""
    ensures var swept := Denoised(p, nodes, first);
            swept != [] && swept[|swept| - 1] == Text(p.undoctyped(nodes[|nodes| - 1].text))
  {
    if |nodes| > 2 {
      LastTextStays(p, nodes[1..], false);
    } else {
      assert Denoised(p, nodes[1..], false) == [Text(p.undoctyped(nodes[1].text))] by {
        assert Denoised(p, nodes[1..][1..], false) == [];
      }
    }
  }

  /** A text before the first tag stays unless it is noise: a short slice of a style sheet does not
      count there. */
  lemma FirstTextStays(p: Policy, nodes: seq<Node>)
    requires nodes != [] && nodes[0].Text? && p.undoctyped(nodes[0].text) != "" && !p.noise(p.undoctyped(nodes[0].text))
    ensures var swept := Denoised(p, nodes, true); swept != [] && swept[0] == Text(p.undoctyped(nodes[0].text))
  {
  }

  /** After the passes an empty wrapper is left exactly where an element held nothing but blank
      text and empty wrappers before the last of them. */
  lemma WrappersLeftExactly(p: Policy, nodes: seq<Node>)
    requires p.blank(" ")
    ensures HasWrapper(p, Cleaned(p, nodes)) <==> HasHollow(p, Denoised(p, Merged(nodes), true))
  {
    SweptHasWrapperExactly(p, Denoised(p, Merged(nodes), true));
  }

  /** An element with nothing in it becomes a space if it is one of five wrappers, and stays
      as it is otherwise. */
  lemma EmptyElementGoesExactly(p: Policy, tag: string, attrs: string)
    ensures var nodes := [Open(tag, attrs), Close(tag)];
            Unwrapped(p, nodes) == if tag in {"div", "span", "p", "font", "center"} then [Text(" ")] else nodes
  {
    var nodes := [Open(tag, attrs), Close(tag)];
    assert nodes[1..] == [Close(tag)] && nodes[1..][1..] == [] && nodes[2..] == [];
    assert Unwrapped(p, []) == [] && Unwrapped(p, [Close(tag)]) == [Close(tag)];
  }

  /** So does one that holds nothing but blank text, and one that holds more stays. */
  lemma BlankElementGoesExactly(p: Policy, tag: string, attrs: string, text: string)
    ensures var nodes := [Open(tag, attrs), Text(text), Close(tag)];
            Unwrapped(p, nodes) == if tag in {"div", "span", "p", "font", "center"} && p.blank(text) then [Text(" ")] else nodes
  {
    var nodes := [Open(tag, attrs), Text(text), Close(tag)];
    assert nodes[1..] == [Text(text), Close(tag)] && nodes[1..][1..] == [Close(tag)] && nodes[3..] == [];
    assert Blanks(p, [Close(tag)]) == 0;
    assert Blanks(p, nodes[1..]) == if p.blank(text) then 1 else 0;
    assert [Close(tag)][1..] == [] && Unwrapped(p, []) == [];
    assert Unwrapped(p, [Close(tag)]) == [Close(tag)];
    assert Unwrapped(p, [Text(text), Close(tag)]) == [Text(text)] + Unwrapped(p, [Close(tag)]);
  }

  /** The result neither starts nor ends with text that trimming would shorten. */
  lemma EndsAreTrimmed(p: Policy, mode: Mode, tokens: seq<Token>)
    requires forall s :: p.trimLeft(p.trimLeft(s)) == p.trimLeft(s) && p.trimRight(p.trimRight(s)) == p.trimRight(s)
    requires forall s :: p.trimLeft(p.trimRight(p.trimLeft(s))) == p.trimRight(p.trimLeft(s))
    ensures var r := Sanitized(p, mode, tokens);
            && (r != [] && r[0].Text? ==> p.trimLeft(r[0].text) == r[0].text)
            && (r != [] && r[|r| - 1].Text? ==> p.trimRight(r[|r| - 1].text) == r[|r| - 1].text)
  {
    var m := Merged(Cleaned(p, Walked(p, mode, tokens, [])));
    MergedIsJoined(Cleaned(p, Walked(p, mode, tokens, [])));
    TrimsLeft(p, m);
    TrimsRight(p, TrimmedLeft(p, m));
  }

  lemma TrimsLeft(p: Policy, nodes: seq<Node>)
    requires NoNeighbours(nodes) && forall s :: p.trimLeft(p.trimLeft(s)) == p.trimLeft(s)
    ensures var r := TrimmedLeft(p, nodes);
            NoNeighbours(r) && (r != [] && r[0].Text? ==> exists s :: r[0].text == p.trimLeft(s))
  {
    var r := TrimmedLeft(p, nodes);
    if nodes != [] && nodes[0].Text? {
      if p.trimLeft(nodes[0].text) == "" {
        assert r == nodes[1..];
      } else {
        assert r == [Text(p.trimLeft(nodes[0].text))] + nodes[1..];
        assert r[1..] == nodes[1..];
      }
    }
  }

  lemma {:induction false} NeighboursBefore(nodes: seq<Node>, n: nat)
    requires NoNeighbours(nodes) && n + 1 < |nodes|
    ensures !(nodes[n].Text? && nodes[n + 1].Text?)
  {
    if n > 0 {
      NeighboursBefore(nodes[1..], n - 1);
    }
  }

  lemma TrimsRight(p: Policy, nodes: seq<Node>)
    requires NoNeighbours(nodes)
    requires forall s :: p.trimLeft(p.trimLeft(s)) == p.trimLeft(s) && p.trimRight(p.trimRight(s)) == p.trimRight(s)
    requires forall s :: p.trimLeft(p.trimRight(p.trimLeft(s))) == p.trimRight(p.trimLeft(s))
    requires nodes != [] && nodes[0].Text? ==> exists s :: nodes[0].text == p.trimLeft(s)
    ensures var r := TrimmedRight(p, nodes);
            && (r != [] && r[0].Text? ==> p.trimLeft(r[0].text) == r[0].text)
            && (r != [] && r[|r| - 1].Text? ==> p.trimRight(r[|r| - 1].text) == r[|r| - 1].text)
  {
    var r, n := TrimmedRight(p, nodes), |nodes| - 1;
    if nodes != [] && nodes[n].Text? {
      if p.trimRight(nodes[n].text) == "" {
        assert r == nodes[..n];
        if n > 0 {
          NeighboursBefore(nodes, n - 1);
        }
      } else {
        assert r == nodes[..n] + [Text(p.trimRight(nodes[n].text))];
      }
    }
  }
}
