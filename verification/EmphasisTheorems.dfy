/** What rendering an annotation keeps: the text itself, and balanced groups. */
module EmphasisTheorems {
  import opened Wrappers
  import opened Texts
  import opened Emphasis
  import L = LatexText

  // ---------------------------------------------------------------- the whole text, once

  /** The rendered tree stands for exactly the text: nothing is lost, repeated or reordered. */
  lemma {:induction false} ParseKeepsText(text: string, read: Reader)
    ensures Source(Parse(text, read)) == text
    decreases |text|, 3, 0
  {
    FromKeepsText(text, 0, read);
    assert text[0..] == text;
  }

  lemma {:induction false} FromKeepsText(text: string, i: nat, read: Reader)
    requires i <= |text|
    ensures Source(ParseFrom(text, i, read)) == text[i..]
    decreases |text|, 2, |text| - i
  {
    if i < |text| {
      var j := NextToken(text, i, read);
      var plain := PlainFrom(text[i..j], 0, read);
      PlainKeepsText(text[i..j], 0, read);
      assert text[i..j][0..] == text[i..j];
      if j == |text| {
        assert plain + [] == plain && text[i..j] == text[i..];
      } else {
        var token := read(text, j).value;
        var rest := ParseFrom(text, token.end, read);
        FromKeepsText(text, token.end, read);
        SourceAppend(plain, [Protected(token.kind, text[j..token.end])] + rest);
        assert ([Protected(token.kind, text[j..token.end])] + rest)[1..] == rest;
        Slices(text, i, j, token.end);
      }
    }
  }

  lemma Slices(text: string, i: nat, j: nat, k: nat)
    requires i <= j <= k <= |text|
    ensures text[i..] == text[i..j] + (text[j..k] + text[k..])
  {
  }

  lemma {:induction false} PlainKeepsText(text: string, i: nat, read: Reader)
    requires i <= |text|
    ensures Source(PlainFrom(text, i, read)) == text[i..]
    decreases |text|, 1, |text| - i
  {
    if i < |text| {
      var span := FirstSpan(text, i, read);
      var end := if span.Some? then span.value.end else i + 1;
      var node := if span.Some? then span.value.node else Char(text[i]);
      if span.Some? {
        FirstSpanKeepsText(text, i, read);
      }
      PlainKeepsText(text, end, read);
      NextPlain(text, i, node, end, read);
    }
  }

  lemma NextPlain(text: string, i: nat, node: Node, end: nat, read: Reader)
    requires i < end <= |text| && PlainFrom(text, i, read) == [node] + PlainFrom(text, end, read)
    requires NodeSource(node) == text[i..end] && Source(PlainFrom(text, end, read)) == text[end..]
    ensures Source(PlainFrom(text, i, read)) == text[i..]
  {
    SourceCons(node, PlainFrom(text, end, read));
  }

  lemma SourceCons(node: Node, rest: seq<Node>)
    ensures Source([node] + rest) == NodeSource(node) + Source(rest)
  {
    assert ([node] + rest)[1..] == rest;
  }

  lemma {:induction false} FirstSpanKeepsText(text: string, i: nat, read: Reader)
    requires FirstSpan(text, i, read).Some?
    ensures
      var span := FirstSpan(text, i, read).value;
      i < span.end <= |text| && NodeSource(span.node) == text[i..span.end]
    decreases |text|, 0, 1
  {
    SpanKeepsText(text, i, "**", read);
    SpanKeepsText(text, i, "__", read);
    SpanKeepsText(text, i, "*", read);
    SpanKeepsText(text, i, "_", read);
  }

  lemma {:induction false} SpanKeepsText(text: string, i: nat, d: string, read: Reader)
    requires d != ""
    ensures SpanAt(text, i, d, read).Some? ==>
      var span := SpanAt(text, i, d, read).value; NodeSource(span.node) == text[i..span.end]
    decreases |text|, 0, 0
  {
    if SpanAt(text, i, d, read).Some? {
      var close := Closing(text, i + |d|, d, read).value;
      ParseKeepsText(text[i + |d|..close], read);
      Delimited(text, i, close, d);
    }
  }

  lemma Delimited(text: string, i: nat, close: nat, d: string)
    requires i + |d| <= close && At(text, i, d) && At(text, close, d)
    ensures d + text[i + |d|..close] + d == text[i..close + |d|]
  {
  }

  // ---------------------------------------------------------------- balanced groups

  /** The depth of open groups after `s`; an escaped character counts for nothing. */
  function Depth(s: string, depth: int): Option<int> {
    if depth < 0 then None
    else if s == "" then Some(depth)
    else if s[0] == '\\' then if |s| == 1 then None else Depth(s[2..], depth)
    else Depth(s[1..], if s[0] == '{' then depth + 1 else if s[0] == '}' then depth - 1 else depth)
  }

  /** Every unescaped brace inside is matched inside. */
  ghost predicate Balanced(s: string) {
    forall depth: nat :: Depth(s, depth) == Some(depth)
  }

  lemma {:induction false} DepthAppend(a: string, b: string, depth: int)
    requires Depth(a, depth).Some?
    ensures Depth(a + b, depth) == Depth(b, Depth(a, depth).value)
  {
    if a == "" {
      assert a + b == b;
    } else if a[0] == '\\' {
      assert (a + b)[2..] == a[2..] + b;
      DepthAppend(a[2..], b, depth);
    } else {
      assert (a + b)[1..] == a[1..] + b;
      DepthAppend(a[1..], b, if a[0] == '{' then depth + 1 else if a[0] == '}' then depth - 1 else depth);
    }
  }

  lemma BalancedAppend(a: string, b: string)
    requires Balanced(a) && Balanced(b)
    ensures Balanced(a + b)
  {
    forall depth: nat ensures Depth(a + b, depth) == Some(depth) {
      DepthAppend(a, b, depth);
    }
  }

  predicate Bare(s: string) {
    forall c <- s :: c != '\\' && c != '{' && c != '}'
  }

  lemma {:induction false} DepthBare(s: string, depth: nat)
    requires Bare(s)
    ensures Depth(s, depth) == Some(depth)
  {
    if s != "" {
      assert s[0] in s;
      forall c <- s[1..] ensures c != '\\' && c != '{' && c != '}' { assert c in s; }
      DepthBare(s[1..], depth);
    }
  }

  /** A command of letters with a balanced argument. */
  lemma BalancedCommand(name: string, argument: string)
    requires Bare(name) && name != "" && Balanced(argument)
    ensures Balanced("\\" + name + "{" + argument + "}")
  {
    var s := "\\" + name + "{" + argument + "}";
    forall depth: nat ensures Depth(s, depth) == Some(depth) {
      var word, rest := name[1..], argument + "}";
      forall c <- word ensures c != '\\' && c != '{' && c != '}' { assert c in name; }
      assert s[2..] == word + ("{" + rest);
      DepthBare(word, depth);
      DepthAppend(word, "{" + rest, depth);
      assert ("{" + rest)[1..] == rest;
      DepthAppend(argument, "}", depth + 1);
      assert "}"[1..] == "";
    }
  }

  lemma BalancedBare(s: string)
    requires Bare(s)
    ensures Balanced(s)
  {
    forall depth: nat ensures Depth(s, depth) == Some(depth) {
      DepthBare(s, depth);
    }
  }

  lemma BalancedEscape(c: char)
    ensures Balanced(['\\', c])
  {
    assert ['\\', c][2..] == "";
  }

  lemma LettersAreBare(s: string)
    requires L.Letters(s)
    ensures Bare(s)
  {
  }

  lemma BalancedCode(c: char)
    ensures Balanced(L.Code(c))
  {
    L.NamesAreLetters();
    L.NamesDiffer();
    if c == '\\' {
      BalancedBackslash();
    } else if L.Special(c) {
      BalancedEscape(c);
    } else if c == '~' || c == '^' {
      var name := if c == '~' then L.TILDE else L.CIRCUM;
      LettersAreBare(name);
      BalancedBare("");
      BalancedCommand(name, "");
      assert "\\" + name + "{" + "" + "}" == L.Command(name);
    } else {
      BalancedBare([c]);
    }
  }

  lemma BalancedBackslash()
    ensures Balanced(L.Code('\\'))
  {
    L.NamesAreLetters();
    L.NamesDiffer();
    LettersAreBare(L.BACKSLASH);
    var name := L.BACKSLASH;
    forall c <- name[1..] ensures c != '\\' && c != '{' && c != '}' { assert c in name; }
    BalancedEscape(name[0]);
    BalancedBare(name[1..]);
    BalancedAppend(['\\', name[0]], name[1..]);
    assert ['\\', name[0]] + name[1..] == "\\" + name;
    BalancedEscape('{');
    BalancedEscape('}');
    BalancedAppend("\\" + name, "\\{");
    BalancedAppend("\\" + name + "\\{", "\\}");
  }

  /** Escaped text is balanced. */
  lemma BalancedText(text: string)
    ensures Balanced(L.EscapeText(text))
  {
    L.EscapeIsMap(text);
    BalancedMap(text);
  }

  lemma {:induction false} BalancedMap(text: string)
    ensures Balanced(L.Map(L.Code, text))
  {
    if text == "" {
      BalancedBare("");
    } else {
      BalancedCode(text[0]);
      BalancedMap(text[1..]);
      BalancedAppend(L.Code(text[0]), L.Map(L.Code, text[1..]));
    }
  }

  /** Every math token of the tree renders to balanced text. */
  ghost predicate MathBalanced(nodes: seq<Node>, math: string -> string) {
    nodes == [] || (NodeMathBalanced(nodes[0], math) && MathBalanced(nodes[1..], math))
  }

  ghost predicate NodeMathBalanced(node: Node, math: string -> string) {
    match node
    case Char(_) => true
    case Protected(kind, raw) => kind == Math ==> Balanced(math(raw))
    case Emphasised(_, inner) => MathBalanced(inner, math)
  }

  predicate MathFree(nodes: seq<Node>) {
    nodes == [] || (NodeMathFree(nodes[0]) && MathFree(nodes[1..]))
  }

  predicate NodeMathFree(node: Node) {
    match node
    case Char(_) => true
    case Protected(kind, _) => kind != Math
    case Emphasised(_, inner) => MathFree(inner)
  }

  lemma {:induction false} BalancedTree(nodes: seq<Node>, math: string -> string)
    requires MathBalanced(nodes, math)
    ensures Balanced(Latex(nodes, math))
    decreases nodes, 1
  {
    if nodes == [] {
      BalancedBare("");
    } else {
      BalancedNode(nodes[0], math);
      BalancedTree(nodes[1..], math);
      BalancedAppend(NodeLatex(nodes[0], math), Latex(nodes[1..], math));
    }
  }

  lemma {:induction false} BalancedNode(node: Node, math: string -> string)
    requires NodeMathBalanced(node, math)
    ensures Balanced(NodeLatex(node, math))
    decreases node, 0
  {
    match node
    case Char(c) =>
      BalancedText([c]);
    case Protected(kind, raw) =>
      BalancedText(raw);
      BalancedCodeSpan(raw);
    case Emphasised(d, inner) =>
      BalancedTree(inner, math);
      assert Bare("textbf") && Bare("emph");
      BalancedCommand(CommandName(d), Latex(inner, math));
  }

  lemma BalancedCodeSpan(raw: string)
    ensures Balanced(CodeLatex(raw))
  {
    var n := Lead(raw, '`');
    BalancedText(raw);
    if n > 0 && |raw| >= n * 2 {
      var inner := L.EscapeText(raw[n..|raw| - n]);
      BalancedText(raw[n..|raw| - n]);
      assert Bare("texttt");
      BalancedCommand("texttt", inner);
      assert "\\" + "texttt" + "{" + inner + "}" == "\\texttt{" + inner + "}";
    }
  }

  lemma {:induction false} MathFreeIsBalanced(nodes: seq<Node>, math: string -> string)
    requires MathFree(nodes)
    ensures MathBalanced(nodes, math)
    decreases nodes, 1
  {
    if nodes != [] {
      MathFreeNode(nodes[0], math);
      MathFreeIsBalanced(nodes[1..], math);
    }
  }

  lemma {:induction false} MathFreeNode(node: Node, math: string -> string)
    requires NodeMathFree(node)
    ensures NodeMathBalanced(node, math)
    decreases node, 0
  {
    if node.Emphasised? {
      MathFreeIsBalanced(node.inner, math);
    }
  }

  /** Rendering a text without math tokens gives balanced groups, whatever its delimiters. */
  lemma RenderingIsBalanced(text: string, read: Reader, math: string -> string)
    requires MathFree(Parse(text, read)) || MathBalanced(Parse(text, read), math)
    ensures Balanced(Latex(Parse(text, read), math))
  {
    if MathFree(Parse(text, read)) {
      MathFreeIsBalanced(Parse(text, read), math);
    }
    BalancedTree(Parse(text, read), math);
  }
}
