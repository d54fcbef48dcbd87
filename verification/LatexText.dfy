/** Escaping text for LaTeX by successive global replacements, and the decoder of generated code. */
module LatexText {

  // ---------------------------------------------------------------- replacement

  /** `replace(/literal/g, into)`: leftmost matches, none overlapping. */
  function ReplaceAll(s: string, literal: string, into: string): string
    requires literal != ""
  {
    if s == "" then ""
    else if literal <= s then into + ReplaceAll(s[|literal|..], literal, into)
    else [s[0]] + ReplaceAll(s[1..], literal, into)
  }

  predicate Special(c: char) {
    c == '{' || c == '}' || c == '%' || c == '#' || c == '$' || c == '&' || c == '_'
  }

  /** `replace(/([{}%#$&_])/g, "\\$1")` */
  function EscapeSpecial(s: string): string {
    if s == "" then "" else (if Special(s[0]) then ['\\', s[0]] else [s[0]]) + EscapeSpecial(s[1..])
  }

  /** `replace(/\\([{}_#$%&])/g, "$1")` */
  function UnescapeSpecial(s: string): string {
    if s == "" then ""
    else if |s| >= 2 && s[0] == '\\' && Special(s[1]) then [s[1]] + UnescapeSpecial(s[2..])
    else [s[0]] + UnescapeSpecial(s[1..])
  }

  // ---------------------------------------------------------------- the two functions

  const BACKSLASH := "textbackslash"
  const TILDE := "textasciitilde"
  const CIRCUM := "textasciicircum"
  const GRAVE := "textasciigrave"

  /** A control word with an empty group after it. */
  function Command(name: string): string {
    "\\" + name + "{}"
  }

  function EscapeText(text: string): string {
    var escaped := EscapeSpecial(ReplaceAll(text, "\\", Command(BACKSLASH)));
    ReplaceAll(ReplaceAll(escaped, "~", Command(TILDE)), "^", Command(CIRCUM))
  }

  function DecodeNames(text: string): string {
    var first := ReplaceAll(ReplaceAll(text, Command(BACKSLASH), "\\"), Command(GRAVE), "`");
    ReplaceAll(ReplaceAll(first, Command(TILDE), "~"), Command(CIRCUM), "^")
  }

  function DecodeText(text: string): string {
    UnescapeSpecial(ReplaceAll(ReplaceAll(DecodeNames(text), "\\^{}", "^"), "\\~{}", "~"))
  }

  // ---------------------------------------------------------------- per-character maps

  function Map(f: char -> string, s: string): string {
    if s == "" then "" else f(s[0]) + Map(f, s[1..])
  }

  /** What one character becomes. The second pass escapes the group that the first one writes. */
  function Code(c: char): string {
    if c == '\\' then "\\" + BACKSLASH + "\\{" + "\\}"
    else if Special(c) then ['\\', c]
    else if c == '~' then Command(TILDE)
    else if c == '^' then Command(CIRCUM)
    else [c]
  }

  lemma NamesDiffer()
    ensures |BACKSLASH| == 13 && |TILDE| == 14 && |CIRCUM| == 15 && |GRAVE| == 14
    ensures BACKSLASH[0] == 't' && TILDE[0] == 't' && CIRCUM[0] == 't' && GRAVE[0] == 't'
    ensures BACKSLASH[4] == 'b' && TILDE[4] == 'a' && CIRCUM[4] == 'a' && GRAVE[4] == 'a'
    ensures TILDE[9] == 't' && CIRCUM[9] == 'c' && GRAVE[9] == 'g' && BACKSLASH[9] == 'l'
  {
  }

  predicate Letters(s: string) {
    forall c <- s :: 'a' <= c <= 'z'
  }

  lemma NamesAreLetters()
    ensures Letters(BACKSLASH) && Letters(TILDE) && Letters(CIRCUM) && Letters(GRAVE)
  {
  }

  // ---------------------------------------------------------------- escaping is one map

  lemma ReplaceChar(s: string, c: char, into: string)
    requires s != ""
    ensures ReplaceAll(s, [c], into) == (if s[0] == c then into else [s[0]]) + ReplaceAll(s[1..], [c], into)
  {
  }

  lemma {:induction false} ReplaceCharAppend(a: string, b: string, c: char, into: string)
    ensures ReplaceAll(a + b, [c], into) == ReplaceAll(a, [c], into) + ReplaceAll(b, [c], into)
  {
    if a == "" {
      assert a + b == b;
    } else {
      assert (a + b)[1..] == a[1..] + b;
      ReplaceChar(a, c, into);
      ReplaceChar(a + b, c, into);
      ReplaceCharAppend(a[1..], b, c, into);
    }
  }

  lemma {:induction false} EscapeSpecialAppend(a: string, b: string)
    ensures EscapeSpecial(a + b) == EscapeSpecial(a) + EscapeSpecial(b)
  {
    if a == "" {
      assert a + b == b;
    } else {
      assert (a + b)[1..] == a[1..] + b;
      EscapeSpecialAppend(a[1..], b);
    }
  }

  lemma {:induction false} LettersStay(s: string, c: char, into: string)
    requires Letters(s) && !('a' <= c <= 'z')
    ensures ReplaceAll(s, [c], into) == s && EscapeSpecial(s) == s
  {
    if s != "" {
      assert s[0] in s;
      forall x <- s[1..] ensures 'a' <= x <= 'z' { assert x in s; }
      LettersStay(s[1..], c, into);
      ReplaceChar(s, c, into);
      assert s == [s[0]] + s[1..];
    }
  }

  lemma OneChar(x: char, c: char, into: string)
    ensures ReplaceAll([x], [c], into) == if x == c then into else [x]
    ensures EscapeSpecial([x]) == if Special(x) then ['\\', x] else [x]
  {
    ReplaceChar([x], c, into);
    assert [x][1..] == "" && into + "" == into;
  }

  /** The last three passes. */
  function LaterPasses(s: string): string {
    ReplaceAll(ReplaceAll(EscapeSpecial(s), "~", Command(TILDE)), "^", Command(CIRCUM))
  }

  lemma LaterAppend(a: string, b: string)
    ensures LaterPasses(a + b) == LaterPasses(a) + LaterPasses(b)
  {
    EscapeSpecialAppend(a, b);
    ReplaceCharAppend(EscapeSpecial(a), EscapeSpecial(b), '~', Command(TILDE));
    ReplaceCharAppend(ReplaceAll(EscapeSpecial(a), "~", Command(TILDE)),
                      ReplaceAll(EscapeSpecial(b), "~", Command(TILDE)), '^', Command(CIRCUM));
  }

  lemma LaterLetters(s: string)
    requires Letters(s)
    ensures LaterPasses(s) == s
  {
    LettersStay(s, '~', Command(TILDE));
    LettersStay(s, '^', Command(CIRCUM));
  }

  /** The group of a control word that the third pass writes reaches the fourth unchanged. */
  lemma CommandStays(name: string)
    requires Letters(name)
    ensures ReplaceAll(Command(name), "^", Command(CIRCUM)) == Command(name)
  {
    var into := Command(CIRCUM);
    LettersStay(name, '^', into);
    OneChar('\\', '^', into);
    OneChar('{', '^', into);
    OneChar('}', '^', into);
    ReplaceCharAppend("{", "}", '^', into);
    ReplaceCharAppend("\\", name, '^', into);
    ReplaceCharAppend("\\" + name, "{}", '^', into);
    assert "{" + "}" == "{}";
  }

  lemma LaterChar(x: char)
    requires x != '\\'
    ensures LaterPasses([x]) == Code(x)
  {
    OneChar(x, '~', Command(TILDE));
    OneChar(x, '^', Command(CIRCUM));
    NamesAreLetters();
    CommandStays(TILDE);
    if Special(x) {
      OneChar('\\', '~', Command(TILDE));
      OneChar('\\', '^', Command(CIRCUM));
      assert ['\\', x] == ['\\'] + [x];
      ReplaceCharAppend(['\\'], [x], '~', Command(TILDE));
      ReplaceCharAppend(['\\'], [x], '^', Command(CIRCUM));
    }
  }

  lemma LaterSlash()
    ensures LaterPasses("\\") == "\\"
  {
    OneChar('\\', '~', Command(TILDE));
    OneChar('\\', '^', Command(CIRCUM));
  }

  lemma LaterCommand(name: string)
    requires Letters(name)
    ensures LaterPasses(Command(name)) == "\\" + name + (Code('{') + Code('}'))
  {
    LaterLetters(name);
    LaterSlash();
    LaterChar('{');
    LaterChar('}');
    LaterAppend(['{'], ['}']);
    LaterAppend("\\", name);
    LaterAppend("\\" + name, ['{'] + ['}']);
    assert ['{'] + ['}'] == "{}";
  }

  lemma LaterBackslash()
    ensures LaterPasses(Command(BACKSLASH)) == Code('\\')
  {
    NamesAreLetters();
    LaterCommand(BACKSLASH);
    assert "\\" + BACKSLASH + ("\\{" + "\\}") == "\\" + BACKSLASH + "\\{" + "\\}";
  }

  /** The four successive replacements are one map, character by character. */
  lemma {:induction false} EscapeIsMap(text: string)
    ensures EscapeText(text) == Map(Code, text)
  {
    if text != "" {
      var rest := ReplaceAll(text[1..], "\\", Command(BACKSLASH));
      EscapeIsMap(text[1..]);
      ReplaceChar(text, '\\', Command(BACKSLASH));
      if text[0] == '\\' {
        LaterAppend(Command(BACKSLASH), rest);
        LaterBackslash();
      } else {
        LaterAppend([text[0]], rest);
        LaterChar(text[0]);
      }
    }
  }

  // ---------------------------------------------------------------- escaping is injective

  /** The codes are a prefix code. */
  lemma CodesDiffer(c: char, d: char, x: string, y: string)
    requires Code(c) + x == Code(d) + y
    ensures c == d && x == y
  {
    NamesDiffer();
    var s, t := Code(c) + x, Code(d) + y;
    CodeHead(c, x);
    CodeHead(d, y);
    assert s[0] == t[0] && (|s| >= 2 ==> s[1] == t[1]);
    assert c == d;
    assert x == s[|Code(c)|..] && y == t[|Code(d)|..];
  }

  /** The characters that tell the codes apart. */
  lemma CodeHead(c: char, x: string)
    ensures
      var s := Code(c) + x;
      && s != ""
      && (s[0] == '\\' <==> c == '\\' || Special(c) || c == '~' || c == '^')
      && (s[0] != '\\' ==> s[0] == c)
      && (s[0] == '\\' ==> |s| >= 2 && (Special(c) <==> s[1] != 't') && (Special(c) ==> s[1] == c))
      && (s[0] == '\\' && s[1] == 't' ==>
            |s| >= 11 && (c == '\\' <==> s[5] == 'b') && (c == '~' <==> s[5] == 'a' && s[10] == 't'))
  {
    NamesDiffer();
  }

  lemma {:induction false} EscapeInjective(a: string, b: string)
    requires EscapeText(a) == EscapeText(b)
    ensures a == b
  {
    EscapeIsMap(a);
    EscapeIsMap(b);
    MapInjective(a, b);
  }

  lemma {:induction false} MapInjective(a: string, b: string)
    requires Map(Code, a) == Map(Code, b)
    ensures a == b
  {
    if a == "" || b == "" {
      if a != "" { CodeHead(a[0], Map(Code, a[1..])); }
      if b != "" { CodeHead(b[0], Map(Code, b[1..])); }
    } else {
      CodesDiffer(a[0], b[0], Map(Code, a[1..]), Map(Code, b[1..]));
      MapInjective(a[1..], b[1..]);
      assert a == [a[0]] + a[1..] && b == [b[0]] + b[1..];
    }
  }

  // ---------------------------------------------------------------- decoding

  /** The codes after the third pass of the decoder, and after the fourth. */
  function Stage(k: nat, c: char): string {
    if (c == '~' && k >= 1) || (c == '^' && k >= 2) then [c] else Code(c)
  }

  /** What decoding an escaped text leaves of one character. */
  function Survivor(c: char): string {
    if c == '\\' then Command(BACKSLASH) else [c]
  }

  lemma {:induction false} SkipText(a: string, rest: string, literal: string, into: string)
    requires literal != "" && literal[0] == '\\' && '\\' !in a
    ensures ReplaceAll(a + rest, literal, into) == a + ReplaceAll(rest, literal, into)
  {
    if a == "" {
      assert a + rest == rest;
    } else {
      assert (a + rest)[1..] == a[1..] + rest;
      assert (a + rest)[0] == a[0] && a[0] in a;
      SkipText(a[1..], rest, literal, into);
      assert a == [a[0]] + a[1..];
    }
  }

  /** A command that the literal does not match is passed over. */
  lemma SkipCommand(body: string, rest: string, literal: string, into: string, j: nat)
    requires literal != "" && literal[0] == '\\' && '\\' !in body
    requires j < |literal| && j < 1 + |body + rest| && (['\\'] + (body + rest))[j] != literal[j]
    ensures ReplaceAll(['\\'] + (body + rest), literal, into) == ['\\'] + (body + ReplaceAll(rest, literal, into))
  {
    var s := ['\\'] + (body + rest);
    assert !(literal <= s);
    assert s[1..] == body + rest;
    SkipText(body, rest, literal, into);
  }

  lemma SkipSpecial(x: char, rest: string, literal: string, into: string)
    requires |literal| >= 2 && literal[0] == '\\' && !Special(literal[1]) && Special(x)
    ensures ReplaceAll(['\\', x] + rest, literal, into) == ['\\', x] + ReplaceAll(rest, literal, into)
  {
    SkipCommand([x], rest, literal, into, 1);
    assert ['\\'] + ([x] + rest) == ['\\', x] + rest;
    assert ['\\'] + ([x] + ReplaceAll(rest, literal, into)) == ['\\', x] + ReplaceAll(rest, literal, into);
  }

  lemma SkipBackslash(rest: string, literal: string, into: string, j: nat)
    requires |literal| >= 2 && literal[0] == '\\' && !Special(literal[1])
    requires 0 < j < |literal| && j <= 14 && ("\\" + BACKSLASH + "\\")[j] != literal[j]
    ensures ReplaceAll(Code('\\') + rest, literal, into) == Code('\\') + ReplaceAll(rest, literal, into)
  {
    NamesAreLetters();
    NamesDiffer();
    var end := ReplaceAll(rest, literal, into);
    SkipSpecial('}', rest, literal, into);
    SkipSpecial('{', "\\}" + rest, literal, into);
    var tail := "\\{" + ("\\}" + rest);
    assert ("\\" + BACKSLASH + "\\")[j] == (['\\'] + (BACKSLASH + tail))[j];
    SkipCommand(BACKSLASH, tail, literal, into, j);
    Pieces(rest);
    Pieces(end);
  }

  lemma Pieces(rest: string)
    ensures Code('\\') + rest == ['\\'] + (BACKSLASH + ("\\{" + ("\\}" + rest)))
  {
  }

  lemma Group(name: string, rest: string)
    ensures Command(name) + rest == ['\\'] + ((name + "{}") + rest)
  {
  }

  /** The literal is not the code of this character at this stage. */
  predicate Misses(k: nat, c: char, literal: string) {
    && |literal| >= 2 && literal[0] == '\\' && !Special(literal[1])
    && (literal[1] != 't' || (
        && |literal| > 14
        && (c == '\\' ==> literal[14] != '\\')
        && (c == '~' && k < 1 ==> literal[10] != 't')
        && (c == '^' && k < 2 ==> literal[10] != 'c')))
  }

  lemma KeepChar(k: nat, c: char, rest: string, literal: string, into: string)
    requires Misses(k, c, literal)
    ensures ReplaceAll(Stage(k, c) + rest, literal, into) == Stage(k, c) + ReplaceAll(rest, literal, into)
  {
    NamesDiffer();
    NamesAreLetters();
    var end := ReplaceAll(rest, literal, into);
    if Stage(k, c) == [c] {
      SkipText([c], rest, literal, into);
    } else if Special(c) {
      SkipSpecial(c, rest, literal, into);
    } else if c == '\\' {
      SkipBackslash(rest, literal, into, if literal[1] != 't' then 1 else 14);
    } else {
      KeepCommand(if c == '~' then TILDE else CIRCUM, rest, literal, into);
    }
  }

  lemma KeepCommand(name: string, rest: string, literal: string, into: string)
    requires Letters(name) && |name| > 9 && name[0] == 't' && |literal| >= 2 && literal[0] == '\\'
    requires literal[1] != 't' || (|literal| > 10 && literal[10] != name[9])
    ensures ReplaceAll(Command(name) + rest, literal, into) == Command(name) + ReplaceAll(rest, literal, into)
  {
    SkipCommand(name + "{}", rest, literal, into, if literal[1] != 't' then 1 else 10);
    Group(name, rest);
    Group(name, ReplaceAll(rest, literal, into));
  }

  /** A pass that matches no code changes nothing. */
  lemma {:induction false} KeepAll(k: nat, text: string, literal: string, into: string)
    requires forall c <- text :: Misses(k, c, literal)
    requires literal != ""
    ensures ReplaceAll(Map(c => Stage(k, c), text), literal, into) == Map(c => Stage(k, c), text)
  {
    if text != "" {
      assert text[0] in text;
      forall c <- text[1..] ensures Misses(k, c, literal) { assert c in text; }
      KeepAll(k, text[1..], literal, into);
      KeepChar(k, text[0], Map(c => Stage(k, c), text[1..]), literal, into);
    }
  }

  lemma Hit(literal: string, rest: string, into: string)
    requires literal != ""
    ensures ReplaceAll(literal + rest, literal, into) == into + ReplaceAll(rest, literal, into)
  {
    assert (literal + rest)[|literal|..] == rest && literal <= literal + rest && literal + rest != "";
  }

  /** The third pass decodes the tildes, the fourth the circumflexes. */
  lemma {:induction false} HitAll(k: nat, text: string)
    requires k <= 1
    ensures
      var name, into := if k == 0 then TILDE else CIRCUM, if k == 0 then "~" else "^";
      ReplaceAll(Map(c => Stage(k, c), text), Command(name), into) == Map(c => Stage(k + 1, c), text)
  {
    var name, into := if k == 0 then TILDE else CIRCUM, if k == 0 then "~" else "^";
    if text != "" {
      var rest := Map(c => Stage(k, c), text[1..]);
      HitAll(k, text[1..]);
      if text[0] == into[0] {
        Hit(Command(name), rest, into);
      } else {
        CommandAt(name);
        NamesDiffer();
        KeepChar(k, text[0], rest, Command(name), into);
      }
    }
  }

  lemma CommandAt(name: string)
    requires |name| >= 13 && name[0] == 't'
    ensures
      var literal := Command(name);
      && |literal| == |name| + 3 && literal[0] == '\\' && literal[1] == 't' && literal[10] == name[9]
      && literal[14] == (name + "{}")[13]
  {
    assert Command(name)[10] == name[9];
  }

  lemma NeverMatches(name: string, c: char)
    requires Letters(name) && |name| >= 13 && name[0] == 't' && name[9] != 't' && name[9] != 'c'
    ensures Misses(0, c, Command(name))
  {
    CommandAt(name);
    assert |name| > 13 ==> name[13] in name;
  }

  lemma NeverMatched(text: string, name: string, into: string)
    requires Letters(name) && |name| >= 13 && name[0] == 't' && name[9] != 't' && name[9] != 'c'
    ensures ReplaceAll(Map(c => Stage(0, c), text), Command(name), into) == Map(c => Stage(0, c), text)
  {
    forall c <- text ensures Misses(0, c, Command(name)) {
      NeverMatches(name, c);
    }
    KeepAll(0, text, Command(name), into);
  }

  lemma DecodedNames(text: string)
    ensures DecodeNames(Map(c => Stage(0, c), text)) == Map(c => Stage(2, c), text)
  {
    NamesDiffer();
    NamesAreLetters();
    NeverMatched(text, BACKSLASH, "\\");
    NeverMatched(text, GRAVE, "`");
    HitAll(0, text);
    HitAll(1, text);
  }

  lemma {:induction false} UnescapeText(a: string, rest: string)
    requires '\\' !in a
    ensures UnescapeSpecial(a + rest) == a + UnescapeSpecial(rest)
  {
    if a == "" {
      assert a + rest == rest;
    } else {
      assert (a + rest)[1..] == a[1..] + rest && a[0] in a;
      UnescapeText(a[1..], rest);
      assert a == [a[0]] + a[1..];
    }
  }

  lemma UnescapeBackslash(rest: string)
    ensures UnescapeSpecial(Code('\\') + rest) == Command(BACKSLASH) + UnescapeSpecial(rest)
  {
    NamesAreLetters();
    NamesDiffer();
    var end := "\\}" + rest;
    var tail := "\\{" + end;
    assert end[2..] == rest && tail[2..] == end;
    assert UnescapeSpecial(tail) == "{" + ("}" + UnescapeSpecial(rest));
    UnescapeText(BACKSLASH, tail);
    var s := ['\\'] + (BACKSLASH + tail);
    assert s[1] == 't' && s[1..] == BACKSLASH + tail;
    Pieces(rest);
    assert ['\\'] + (BACKSLASH + ("{" + ("}" + UnescapeSpecial(rest)))) == Command(BACKSLASH) + UnescapeSpecial(rest);
  }

  lemma {:induction false} UnescapeAll(text: string)
    ensures UnescapeSpecial(Map(c => Stage(2, c), text)) == Map(Survivor, text)
  {
    if text != "" {
      var c, rest := text[0], Map(c => Stage(2, c), text[1..]);
      UnescapeAll(text[1..]);
      if c == '\\' {
        UnescapeBackslash(rest);
      } else if Special(c) {
        assert (['\\', c] + rest)[2..] == rest;
      } else {
        UnescapeText([c], rest);
      }
    }
  }

  lemma {:induction false} SameMap(text: string)
    ensures Map(Code, text) == Map(c => Stage(0, c), text)
  {
    if text != "" {
      SameMap(text[1..]);
    }
  }

  /** Decoding an escaped text gives the text back, except that each backslash has become its
      control word. */
  lemma DecodeEscaped(text: string)
    ensures DecodeText(EscapeText(text)) == Map(Survivor, text)
  {
    EscapeIsMap(text);
    SameMap(text);
    DecodedNames(text);
    KeepAll(2, text, "\\^{}", "^");
    KeepAll(2, text, "\\~{}", "~");
    UnescapeAll(text);
  }

  lemma {:induction false} SurvivorLength(text: string)
    ensures |Map(Survivor, text)| >= |text|
    ensures '\\' !in text ==> Map(Survivor, text) == text
    ensures '\\' in text ==> |Map(Survivor, text)| > |text|
  {
    if text != "" {
      SurvivorLength(text[1..]);
      NamesDiffer();
      assert text == [text[0]] + text[1..];
    }
  }

  /** The decoder inverts the escaping exactly on the texts without a backslash. */
  lemma DecodeInverts(text: string)
    ensures DecodeText(EscapeText(text)) == text <==> '\\' !in text
  {
    DecodeEscaped(text);
    SurvivorLength(text);
  }
}
