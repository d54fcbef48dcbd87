/** The protected tokens in their ordinary forms: code, links, formulas and addresses. */
module ScannerMeaning {
  import opened Wrappers
  import opened Texts
  import opened Emphasis
  import opened AnnotationScanner

  /** None of these characters is in the text. */
  predicate Without(s: string, chars: string) {
    forall c <- s :: c !in chars
  }

  lemma HeadWithout(s: string, chars: string, c: char)
    requires s != "" && Without(s, chars) && c in chars
    ensures s[0] != c
  {
  }

  lemma {:induction false} PastBody(text: string, i: nat, k: nat, n: nat)
    requires i <= k <= |text| && Without(text[i..k], "`\\\n")
    ensures PastCode(text, i, n) == PastCode(text, k, n)
    decreases k - i
  {
    if i < k {
      InSlice(text, i, k);
      PastBody(text, i + 1, k, n);
    }
  }

  lemma InSlice(text: string, i: nat, k: nat)
    requires i < k <= |text|
    ensures text[i] in text[i..k] && forall c <- text[i + 1..k] :: c in text[i..k]
  {
    assert text[i..k][0] == text[i] && text[i..k] == [text[i]] + text[i + 1..k];
  }

  /** Code between equally long runs of backticks on one line is one token, with its fences. */
  lemma CodeToken(before: string, n: nat, body: string, after: string)
    requires n > 0 && body != "" && Without(body, "`\\\n") && (after == "" || after[0] != '`')
    ensures
      var text := before + Repeat('`', n) + body + Repeat('`', n) + after;
      SCANNER(text, |before|) == Some(Token(CodeSpan, |before| + n + |body| + n))
  {
    hide Repeat, Lead, PastCode, Without;
    var text := before + Repeat('`', n) + body + Repeat('`', n) + after;
    var i, j := |before|, |before| + n + |body|;
    HeadWithout(body, "`\\\n", '`');
    RunAt(text, i, n, body + Repeat('`', n) + after);
    RunAt(text, j, n, after);
    assert text[i + n..j] == body;
    PastBody(text, i + n, j, n);
    ClosingRun(text, j, n);
  }

  lemma ClosingRun(text: string, j: nat, n: nat)
    requires j < |text| && text[j] == '`' && Lead(text[j..], '`') == n
    ensures PastCode(text, j, n) == j + n
  {
  }

  lemma RunAt(text: string, i: nat, n: nat, rest: string)
    requires n > 0 && i + n <= |text| && text[i..] == Repeat('`', n) + rest && (rest == "" || rest[0] != '`')
    ensures Lead(text[i..], '`') == n && text[i] == '`'
  {
    LeadRepeat('`', n, rest);
    assert text[i..][0] == text[i];
  }

  lemma {:induction false} GroupBody(text: string, i: nat, k: nat, open: char, close: char)
    requires i <= k < |text| && Without(text[i..k], "`\\\n" + [open] + [close]) && text[k] == close && open != close
    requires close !in "`\\\n"
    ensures GroupEnd(text, i, open, close, 0) == Some(k)
    decreases k - i
  {
    if i < k {
      InSlice(text, i, k);
      GroupBody(text, i + 1, k, open, close);
    }
  }

  /** A link without nested brackets is one token, with its text and target. */
  lemma LinkToken(before: string, name: string, target: string, after: string)
    requires Without(name, "`\\\n[]") && Without(target, "`\\\n()")
    ensures
      var text := before + "[" + name + "](" + target + ")" + after;
      SCANNER(text, |before|) == Some(Token(Literal, |before| + 1 + |name| + 2 + |target| + 1))
  {
    var text := before + "[" + name + "](" + target + ")" + after;
    var i := |before| + 1;
    var j := i + |name|;
    var k := j + 2 + |target|;
    assert text[i - 1] == '[' && text[j] == ']' && text[j + 1] == '(' && text[k] == ')';
    assert text[i..j] == name && text[j + 2..k] == target;
    GroupBody(text, i, j, '[', ']');
    GroupBody(text, j + 2, k, '(', ')');
  }

  lemma {:induction false} FormulaBody(text: string, i: nat, k: nat, close: string, allowNewlines: bool)
    requires i <= k && k + |close| <= |text| && (close == "$" || close == "$$") && text[k..k + |close|] == close
    requires Without(text[i..k], if allowNewlines then "$\\" else "$\\\n")
    ensures DelimiterEnd(text, i, close, allowNewlines) == Some(k + |close|)
    decreases k - i
  {
    if i < k {
      InSlice(text, i, k);
      AtHead(text, i, close);
      FormulaBody(text, i + 1, k, close, allowNewlines);
    } else {
      AtHead(text, i, close);
    }
  }

  /** A formula between dollar signs on one line is one token. */
  lemma FormulaToken(before: string, body: string, after: string)
    requires body != "" && Without(body, "$\\\n") && !IsSpace(body[0])
    ensures SCANNER(before + "$" + body + "$" + after, |before|) == Some(Token(Math, |before| + |body| + 2))
  {
    hide IsSpace, DelimiterEnd, Without;
    var text, i := before + "$" + body + "$" + after, |before|;
    HeadWithout(body, "$\\\n", '$');
    assert text[i] == '$' && text[i + 1] == body[0];
    assert text[i + 1..i + 1 + |body|] == body && text[i + 1 + |body|..i + 2 + |body|] == "$";
    FormulaBody(text, i + 1, i + 1 + |body|, "$", false);
  }

  /** And one between double dollar signs, also across lines. */
  lemma DisplayToken(before: string, body: string, after: string)
    requires Without(body, "$\\")
    ensures SCANNER(before + "$$" + body + "$$" + after, |before|) == Some(Token(Math, |before| + |body| + 4))
  {
    hide IsSpace, DelimiterEnd, Without;
    var text, i := before + "$$" + body + "$$" + after, |before|;
    assert text[i] == '$' && text[i + 1] == '$';
    assert text[i + 2..i + 2 + |body|] == body && text[i + 2 + |body|..i + 4 + |body|] == "$$";
    FormulaBody(text, i + 2, i + 2 + |body|, "$$", true);
  }

  lemma {:induction false} UrlBody(text: string, i: nat, k: nat)
    requires i <= k <= |text| && (forall j | i <= j < k :: !IsSpace(text[j]) && text[j] != '<')
    requires k < |text| ==> IsSpace(text[k]) || text[k] == '<'
    ensures UrlRun(text, i) == k
    decreases k - i
  {
    if i < k {
      UrlBody(text, i + 1, k);
    }
  }

  /** The scheme of an address, in any case. */
  predicate Scheme(scheme: string, lower: string) {
    && (lower == "http://" || lower == "https://") && |scheme| == |lower|
    && forall j | 0 <= j < |lower| ::
         scheme[j] == lower[j] || ('A' <= scheme[j] <= 'Z' && scheme[j] - 'A' + 'a' == lower[j])
  }

  /** A bare address is one token: up to white space, an angle bracket or the end of the text. */
  lemma UrlToken(before: string, scheme: string, lower: string, body: string, after: string)
    requires Scheme(scheme, lower)
    requires body != "" && (forall c <- body :: !IsSpace(c) && c != '<')
    requires after == "" || IsSpace(after[0]) || after[0] == '<'
    ensures SCANNER(before + scheme + body + after, |before|) ==
            Some(Token(Literal, |before| + |scheme| + |body|))
  {
    hide IsSpace, UrlRun, Spells;
    var text, i := before + scheme + body + after, |before|;
    var k, end := i + |scheme|, i + |scheme| + |body|;
    SchemeSpelt(text, i, scheme, lower);
    assert text[k..end] == body;
    forall j | k <= j < end ensures !IsSpace(text[j]) && text[j] != '<' {
      assert text[j] == body[j - k] && body[j - k] in body;
    }
    assert end < |text| ==> text[end] == after[0];
    UrlBody(text, k, end);
  }

  lemma SchemeSpelt(text: string, i: nat, scheme: string, lower: string)
    requires Scheme(scheme, lower) && i + |scheme| < |text| && text[i..i + |scheme|] == scheme
    ensures Spells(text, i, lower) && Lower(text[i]) == 'h'
    ensures lower == "http://" ==> !Spells(text, i, "https://")
  {
    forall j | 0 <= j < |lower| ensures Lower(text[i + j]) == lower[j] {
      assert text[i..i + |scheme|][j] == text[i + j];
    }
    assert Lower(text[i + 0]) == lower[0] && Lower(text[i + 4]) == lower[4];
    assert "http://"[4] == ':' && "https://"[4] == 's';
  }
}
