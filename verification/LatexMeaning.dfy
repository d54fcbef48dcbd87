/** What escaping writes for each character, and what decoding reads for each control sequence. */
module LatexMeaning {
  import opened Wrappers
  import opened LatexText

  // ---------------------------------------------------------------- what is written for what

  /** What is written for each character, wherever it stands. */
  lemma EscapeTable(before: string, c: char, after: string)
    ensures
      var written := EscapeText(before + [c] + after);
      && (c == '\\' ==> written == EscapeText(before) + "\\textbackslash\\{\\}" + EscapeText(after))
      && (c in "{}%#$&_" ==> written == EscapeText(before) + ("\\" + [c]) + EscapeText(after))
      && (c == '~' ==> written == EscapeText(before) + "\\textasciitilde{}" + EscapeText(after))
      && (c == '^' ==> written == EscapeText(before) + "\\textasciicircum{}" + EscapeText(after))
      && (c !in "\\{}%#$&_~^" ==> written == EscapeText(before) + [c] + EscapeText(after))
  {
    hide EscapeText, Code;
    EscapeIsMap(before + [c] + after);
    EscapeIsMap(before);
    EscapeIsMap(after);
    MapAppend(before + [c], after);
    MapAppend(before, [c]);
    MapOne(c);
    BackslashText();
    CodeTable(c);
  }

  lemma {:induction false} MapAppend(a: string, b: string)
    ensures Map(Code, a + b) == Map(Code, a) + Map(Code, b)
  {
    hide Code;
    if a == "" {
      assert a + b == b;
    } else {
      assert (a + b)[1..] == a[1..] + b;
      MapAppend(a[1..], b);
    }
  }

  lemma MapOne(c: char)
    ensures Map(Code, [c]) == Code(c)
  {
    hide Code;
    assert [c][1..] == "" && Code(c) + "" == Code(c);
  }

  lemma BackslashText()
    ensures Code('\\') == "\\textbackslash\\{\\}"
  {
  }

  lemma NameTexts()
    ensures Command(TILDE) == "\\textasciitilde{}" && Command(CIRCUM) == "\\textasciicircum{}"
  {
  }

  lemma SpecialTable(c: char)
    ensures Special(c) <==> c in "{}%#$&_"
  {
  }

  lemma CodeTable(c: char)
    ensures c == '~' ==> Code(c) == "\\textasciitilde{}"
    ensures c == '^' ==> Code(c) == "\\textasciicircum{}"
    ensures c in "{}%#$&_" ==> Code(c) == "\\" + [c]
    ensures c !in "\\{}%#$&_~^" ==> Code(c) == [c]
  {
    hide Command, Special;
    NameTexts();
    SpecialTable(c);
    assert "\\{}%#$&_~^" == "\\" + "{}%#$&_" + "~^";
    assert ['\\', c] == "\\" + [c];
  }

  predicate Differ(a: string, b: string) {
    exists j: nat :: j < |a| && j < |b| && a[j] != b[j]
  }

  /** One pass of the decoder over a text with one control sequence. */
  lemma OnePass(a: string, body: string, b: string, literal: string, into: string)
    requires '\\' !in a && '\\' !in body && '\\' !in b && literal != "" && literal[0] == '\\'
    ensures literal == ['\\'] + body ==> ReplaceAll(a + ['\\'] + body + b, literal, into) == a + into + b
    ensures Differ(literal, ['\\'] + body) ==>
            ReplaceAll(a + ['\\'] + body + b, literal, into) == a + ['\\'] + body + b
  {
    Quiet(b, literal, into);
    assert a + ['\\'] + body + b == a + (['\\'] + (body + b));
    SkipText(a, ['\\'] + (body + b), literal, into);
    if literal == ['\\'] + body {
      assert ['\\'] + (body + b) == literal + b;
      Hit(literal, b, into);
    } else if j: nat :| j < |literal| && j < |['\\'] + body| && literal[j] != (['\\'] + body)[j] {
      SkipCommand(body, b, literal, into, j);
    }
  }

  /** A text without a backslash is passed over. */
  lemma Quiet(s: string, literal: string, into: string)
    requires '\\' !in s && literal != "" && literal[0] == '\\'
    ensures ReplaceAll(s, literal, into) == s
  {
    SkipText(s, "", literal, into);
    assert s + "" == s;
  }

  // ---------------------------------------------------------------- what is read for what

  /** What the passes of the decoder look for, in their order, and what they write instead. */
  function Literal(k: nat): (r: string)
    ensures |r| >= 2 && r[0] == '\\'
  {
    match k
    case 0 => Command(BACKSLASH)
    case 1 => Command(GRAVE)
    case 2 => Command(TILDE)
    case 3 => Command(CIRCUM)
    case 4 => "\\^{}"
    case _ => "\\~{}"
  }

  function Replacement(k: nat): string {
    match k
    case 0 => "\\"
    case 1 => "`"
    case 2 => "~"
    case 3 => "^"
    case 4 => "^"
    case _ => "~"
  }

  function PassesFrom(k: nat, s: string): string
    decreases 6 - k
  {
    if k >= 6 then UnescapeSpecial(s) else PassesFrom(k + 1, ReplaceAll(s, Literal(k), Replacement(k)))
  }

  lemma PassesDecode(s: string)
    ensures PassesFrom(0, s) == DecodeText(s)
  {
    hide ReplaceAll, UnescapeSpecial;
    assert forall t :: PassesFrom(6, t) == UnescapeSpecial(t);
    assert forall t :: PassesFrom(4, t) == PassesFrom(6, ReplaceAll(ReplaceAll(t, "\\^{}", "^"), "\\~{}", "~"));
    assert forall t ::
      PassesFrom(2, t) == PassesFrom(4, ReplaceAll(ReplaceAll(t, Command(TILDE), "~"), Command(CIRCUM), "^"));
  }

  lemma {:induction false} QuietFrom(k: nat, s: string)
    requires '\\' !in s
    ensures PassesFrom(k, s) == s
    decreases 6 - k
  {
    if k >= 6 {
      UnescapeText(s, "");
      assert s + "" == s;
    } else {
      Quiet(s, Literal(k), Replacement(k));
      QuietFrom(k + 1, s);
    }
  }

  /** The first passes miss the control sequence, and one of the later ones hits it. */
  lemma {:induction false} HitLater(k: nat, hit: nat, a: string, body: string, b: string)
    requires k <= hit < 6 && hit > 0 && '\\' !in a && '\\' !in body && '\\' !in b
    requires Literal(hit) == ['\\'] + body
    requires forall j | k <= j < hit :: Differ(Literal(j), ['\\'] + body)
    ensures PassesFrom(k, a + ['\\'] + body + b) == a + Replacement(hit) + b
    decreases hit - k
  {
    hide ReplaceAll, Literal;
    OnePass(a, body, b, Literal(k), Replacement(k));
    if k == hit {
      QuietFrom(k + 1, a + Replacement(hit) + b);
    } else {
      HitLater(k + 1, hit, a, body, b);
    }
  }

  lemma UnescapedSpecial(a: string, c: char, b: string)
    requires '\\' !in a && '\\' !in b && Special(c)
    ensures UnescapeSpecial(a + ['\\'] + [c] + b) == a + [c] + b
  {
    hide UnescapeSpecial;
    UnescapeText(a, ['\\'] + [c] + b);
    AssociateFour(a, ['\\'], [c], b);
    UnescapedPair(c, b);
    Associate(a, [c], b);
  }

  lemma UnescapedPair(c: char, b: string)
    requires '\\' !in b && Special(c)
    ensures UnescapeSpecial(['\\'] + [c] + b) == [c] + b
  {
    var s := ['\\'] + [c] + b;
    UnescapeText(b, "");
    assert b + "" == b;
    assert s[2..] == b && s[0] == '\\' && s[1] == c;
  }

  /** Every pass misses an escaped special character, until the last one. */
  lemma {:induction false} MissAll(k: nat, a: string, c: char, b: string)
    requires k <= 6 && '\\' !in a && '\\' !in b && Special(c)
    ensures PassesFrom(k, a + ['\\'] + [c] + b) == a + [c] + b
    decreases 6 - k
  {
    hide ReplaceAll, Literal;
    if k == 6 {
      UnescapedSpecial(a, c, b);
    } else {
      assert Differ(Literal(k), ['\\'] + [c]) by {
        LiteralHead(k);
        assert (['\\'] + [c])[1] == c && Literal(k)[1] != c;
      }
      OnePass(a, [c], b, Literal(k), Replacement(k));
      MissAll(k + 1, a, c, b);
    }
  }

  lemma LiteralHead(k: nat)
    ensures !Special(Literal(k)[1])
  {
    NamesDiffer();
  }

  /** The names differ from each other, and from the accents. */
  lemma LiteralsDiffer(j: nat, k: nat)
    requires j < k < 6
    ensures Differ(Literal(j), Literal(k))
  {
    NamesDiffer();
    var a, b := Literal(j), Literal(k);
    assert a[1] != b[1] || a[5] != b[5] || a[10] != b[10];
  }

  lemma BodyOf(k: nat)
    requires k < 6
    ensures Literal(k) == ['\\'] + Literal(k)[1..] && '\\' !in Literal(k)[1..]
  {
    NamesAreLetters();
  }

  lemma Decoded(a: string, hit: nat, b: string)
    requires '\\' !in a && '\\' !in b && 0 < hit < 6
    ensures DecodeText(a + Literal(hit) + b) == a + Replacement(hit) + b
  {
    hide Literal, DecodeText;
    var body := Literal(hit)[1..];
    BodyOf(hit);
    forall j | 0 <= j < hit ensures Differ(Literal(j), ['\\'] + body) {
      LiteralsDiffer(j, hit);
    }
    HitLater(0, hit, a, body, b);
    PassesDecode(a + Literal(hit) + b);
    assert a + ['\\'] + body + b == a + Literal(hit) + b;
  }

  lemma DecodedSpecial(a: string, c: char, b: string)
    requires '\\' !in a && '\\' !in b && Special(c)
    ensures DecodeText(a + ("\\" + [c]) + b) == a + [c] + b
  {
    hide DecodeText;
    MissAll(0, a, c, b);
    PassesDecode(a + ("\\" + [c]) + b);
    assert a + ['\\'] + [c] + b == a + ("\\" + [c]) + b;
  }

  lemma LiteralTexts()
    ensures Literal(1) == "\\textasciigrave{}" && Literal(2) == "\\textasciitilde{}"
    ensures Literal(3) == "\\textasciicircum{}" && Literal(4) == "\\^{}" && Literal(5) == "\\~{}"
  {
    NameTexts();
  }

  /** What is read for each control sequence between texts without a backslash, and that such a
      text stays as it is. */
  lemma DecodeTable(a: string, b: string, c: char)
    requires '\\' !in a && '\\' !in b
    ensures DecodeText(a) == a
    ensures DecodeText(a + "\\textasciigrave{}" + b) == a + "`" + b
    ensures DecodeText(a + "\\textasciitilde{}" + b) == a + "~" + b
    ensures DecodeText(a + "\\textasciicircum{}" + b) == a + "^" + b
    ensures DecodeText(a + "\\^{}" + b) == a + "^" + b
    ensures DecodeText(a + "\\~{}" + b) == a + "~" + b
    ensures c in "{}%#$&_" ==> DecodeText(a + ("\\" + [c]) + b) == a + [c] + b
  {
    hide DecodeText, Literal, Special;
    LiteralTexts();
    SpecialTable(c);
    PassesDecode(a);
    QuietFrom(0, a);
    Decoded(a, 1, b);
    Decoded(a, 2, b);
    Decoded(a, 3, b);
    Decoded(a, 4, b);
    Decoded(a, 5, b);
    if c in "{}%#$&_" {
      DecodedSpecial(a, c, b);
    }
  }
}
