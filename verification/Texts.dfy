/** Text as the scanners see it: white space, lines, runs of one character. */
module Texts {
  /** ECMAScript white space and line terminators: what `\s` and `trim` recognise. */
  predicate IsSpace(c: char) {
    || c == ' ' || c == '\t' || c == '\n' || c == '\U{0b}' || c == '\U{0c}' || c == '\r'
    || c == '\U{a0}' || c == '\U{1680}' || '\U{2000}' <= c <= '\U{200a}' || c == '\U{2028}' || c == '\U{2029}'
    || c == '\U{202f}' || c == '\U{205f}' || c == '\U{3000}' || c == '\U{feff}'
  }

  predicate Blank(s: string) {
    forall c <- s :: IsSpace(c)
  }

  /** The text without trailing white space. */
  function TrimEnd(s: string): string {
    if s == "" || !IsSpace(s[|s| - 1]) then s else TrimEnd(s[..|s| - 1])
  }

  /** The text without leading white space. */
  function TrimStart(s: string): string {
    if s == "" || !IsSpace(s[0]) then s else TrimStart(s[1..])
  }

  lemma {:induction false} TrimStartMeans(left: string, s: string)
    requires Blank(left) && (s == "" || !IsSpace(s[0]))
    ensures TrimStart(left + s) == s
  {
    if left == "" {
      assert left + s == s;
    } else {
      assert (left + s)[1..] == left[1..] + s;
      assert left[0] in left && forall c <- left[1..] :: c in left;
      TrimStartMeans(left[1..], s);
    }
  }

  lemma {:induction false} TrimEndMeans(s: string, right: string)
    requires Blank(right) && (s == "" || !IsSpace(s[|s| - 1]))
    ensures TrimEnd(s + right) == s
  {
    if right == "" {
      assert s + right == s;
    } else {
      var n := |right| - 1;
      assert (s + right)[..|s + right| - 1] == s + right[..n];
      assert right[n] in right && forall c <- right[..n] :: c in right;
      TrimEndMeans(s, right[..n]);
    }
  }

  lemma {:induction false} TrimStartSplit(s: string) returns (left: string)
    ensures s == left + TrimStart(s) && Blank(left)
    ensures TrimStart(s) == "" || !IsSpace(TrimStart(s)[0])
  {
    left := "";
    if s != "" && IsSpace(s[0]) {
      left := TrimStartSplit(s[1..]);
      left := [s[0]] + left;
    }
  }

  lemma {:induction false} TrimEndSplit(s: string) returns (right: string)
    ensures s == TrimEnd(s) + right && Blank(right)
    ensures TrimEnd(s) == "" || !IsSpace(TrimEnd(s)[|TrimEnd(s)| - 1])
    ensures TrimEnd(s) != "" ==> TrimEnd(s)[0] == s[0]
  {
    right := "";
    if s != "" && IsSpace(s[|s| - 1]) {
      right := TrimEndSplit(s[..|s| - 1]);
      right := right + [s[|s| - 1]];
    }
  }

  /** Lower case, as far as a case-insensitive expression without the `u` flag sees it. */
  function Lower(c: char): char {
    if 'A' <= c <= 'Z' then c - 'A' + 'a' else c
  }

  /** The lower-cased text at `i` begins with `word`. */
  predicate Spells(text: string, i: nat, word: string) {
    i + |word| <= |text| && forall k | 0 <= k < |word| :: Lower(text[i + k]) == word[k]
  }

  /** The index after an escaped character, if there is one. */
  function PastEscape(text: string, i: nat): (r: nat)
    requires i < |text|
    ensures i < r <= |text|
  {
    if i + 2 < |text| then i + 2 else |text|
  }

  ghost predicate Contains(text: string, part: string) {
    exists before, after :: text == before + part + after
  }

  predicate EndsWith(text: string, end: string) {
    |end| <= |text| && text[|text| - |end|..] == end
  }

  function Max(a: nat, b: nat): nat {
    if a < b then b else a
  }

  // ---------------------------------------------------------------- lines

  predicate OneLine(s: string) {
    '\n' !in s
  }

  predicate Lines(ls: seq<string>) {
    ls != [] && forall k | 0 <= k < |ls| :: OneLine(ls[k])
  }

  function Split(s: string): (r: seq<string>)
    ensures Lines(r)
  {
    if s == "" then [""]
    else
      var rest := Split(s[1..]);
      if s[0] == '\n' then [""] + rest else [[s[0]] + rest[0]] + rest[1..]
  }

  function Join(ls: seq<string>): string {
    if ls == [] then "" else if |ls| == 1 then ls[0] else ls[0] + "\n" + Join(ls[1..])
  }

  lemma {:induction false} JoinSplit(s: string)
    ensures Join(Split(s)) == s
  {
    if s != "" {
      JoinSplit(s[1..]);
      var rest := Split(s[1..]);
      if s[0] == '\n' {
        assert ([""] + rest)[1..] == rest;
        assert Join([""] + rest) == "\n" + s[1..];
      } else {
        assert ([[s[0]] + rest[0]] + rest[1..])[1..] == rest[1..];
        assert Join([[s[0]] + rest[0]] + rest[1..]) == [s[0]] + Join(rest);
      }
    }
  }

  lemma {:induction false} SplitLine(l: string)
    requires OneLine(l)
    ensures Split(l) == [l]
  {
    if l != "" {
      SplitLine(l[1..]);
      assert [l[0]] + l[1..] == l;
    }
  }

  lemma {:induction false} SplitHead(l: string, rest: string)
    requires OneLine(l)
    ensures Split(l + "\n" + rest) == [l] + Split(rest)
  {
    if l == "" {
      assert l + "\n" + rest == "\n" + rest;
      assert ("\n" + rest)[1..] == rest;
    } else {
      SplitHead(l[1..], rest);
      assert (l + "\n" + rest)[1..] == l[1..] + "\n" + rest;
      assert ([l[1..]] + Split(rest))[1..] == Split(rest) && [l[0]] + l[1..] == l;
    }
  }

  lemma {:induction false} SplitJoin(ls: seq<string>)
    requires Lines(ls)
    ensures Split(Join(ls)) == ls
  {
    if |ls| == 1 {
      SplitLine(ls[0]);
    } else {
      SplitJoin(ls[1..]);
      SplitHead(ls[0], Join(ls[1..]));
    }
  }

  lemma {:induction false} JoinAppend(a: seq<string>, b: seq<string>)
    requires a != [] && b != []
    ensures Join(a + b) == Join(a) + "\n" + Join(b)
  {
    if |a| == 1 {
      assert (a + b)[1..] == b;
    } else {
      assert (a + b)[1..] == a[1..] + b;
      JoinAppend(a[1..], b);
      assert a[0] + "\n" + (Join(a[1..]) + "\n" + Join(b)) == a[0] + "\n" + Join(a[1..]) + "\n" + Join(b);
    }
  }

  /** `replace(/\r\n/g, "\n")` */
  function DropCR(s: string): string {
    if s == "" then ""
    else if |s| >= 2 && s[0] == '\r' && s[1] == '\n' then "\n" + DropCR(s[2..])
    else [s[0]] + DropCR(s[1..])
  }

  predicate HasCRLF(s: string) {
    exists i :: 0 <= i < |s| - 1 && s[i] == '\r' && s[i + 1] == '\n'
  }

  lemma {:induction false} DropCRIdle(s: string)
    ensures DropCR(s) == s <==> !HasCRLF(s)
    ensures |DropCR(s)| <= |s|
    ensures HasCRLF(s) ==> |DropCR(s)| < |s|
  {
    if s != "" {
      if |s| >= 2 && s[0] == '\r' && s[1] == '\n' {
        DropCRIdle(s[2..]);
      } else {
        DropCRIdle(s[1..]);
        assert s == [s[0]] + s[1..];
        if HasCRLF(s) {
          var i :| 0 <= i < |s| - 1 && s[i] == '\r' && s[i + 1] == '\n';
          assert s[1..][i - 1] == '\r' && s[1..][i] == '\n';
        }
        if HasCRLF(s[1..]) {
          var i :| 0 <= i < |s[1..]| - 1 && s[1..][i] == '\r' && s[1..][i + 1] == '\n';
          assert s[i + 1] == '\r' && s[i + 2] == '\n';
        }
      }
    }
  }

  // ---------------------------------------------------------------- runs

  /** The length of the run of `c` at the beginning. */
  function Lead(s: string, c: char): (r: nat)
    ensures r <= |s|
  {
    if s == "" || s[0] != c then 0 else 1 + Lead(s[1..], c)
  }

  /** The longest run of `c` anywhere. */
  function LongestRun(s: string, c: char): nat {
    if s == "" then 0 else Max(Lead(s, c), LongestRun(s[1..], c))
  }

  lemma {:induction false} LeadWithin(s: string, i: nat, c: char)
    requires i <= |s|
    ensures Lead(s[i..], c) <= LongestRun(s, c)
  {
    if i < |s| {
      if i > 0 {
        LeadWithin(s[1..], i - 1, c);
        assert s[1..][i - 1..] == s[i..];
      } else {
        assert s[0..] == s;
      }
    }
  }

  lemma {:induction false} LeadAppend(s: string, t: string, c: char)
    ensures Lead(s, c) <= Lead(s + t, c)
    ensures t == "" || t[0] != c ==> Lead(s + t, c) == Lead(s, c)
  {
    if s == "" {
      assert s + t == t;
    } else {
      LeadAppend(s[1..], t, c);
      assert (s + t)[1..] == s[1..] + t;
    }
  }

  /** A run stays within its line. */
  lemma {:induction false} RunAppend(s: string, t: string, c: char)
    ensures LongestRun(s, c) <= LongestRun(s + t, c) && LongestRun(t, c) <= LongestRun(s + t, c)
  {
    if s == "" {
      assert s + t == t;
    } else {
      RunAppend(s[1..], t, c);
      LeadAppend(s, t, c);
      assert (s + t)[1..] == s[1..] + t;
    }
  }

  lemma {:induction false} RunInLine(ls: seq<string>, k: nat, c: char)
    requires k < |ls|
    ensures LongestRun(ls[k], c) <= LongestRun(Join(ls), c)
  {
    if |ls| > 1 {
      RunAppend(ls[0], "\n" + Join(ls[1..]), c);
      assert ls[0] + "\n" + Join(ls[1..]) == ls[0] + ("\n" + Join(ls[1..]));
      if k > 0 {
        RunInLine(ls[1..], k - 1, c);
        RunAppend("\n", Join(ls[1..]), c);
      }
    }
  }

  function Repeat(c: char, n: nat): (r: string)
    ensures |r| == n
  {
    seq(n, _ => c)
  }

  lemma {:induction false} LeadRepeat(c: char, n: nat, t: string)
    ensures Lead(Repeat(c, n) + t, c) == n + Lead(t, c)
  {
    if n == 0 {
      assert Repeat(c, 0) + t == t;
    } else {
      LeadRepeat(c, n - 1, t);
      assert (Repeat(c, n) + t)[1..] == Repeat(c, n - 1) + t;
    }
  }

  /** The leading run, spelled out. */
  lemma {:induction false} LeadSplit(s: string, c: char)
    ensures s == Repeat(c, Lead(s, c)) + s[Lead(s, c)..]
    ensures Lead(s, c) < |s| ==> s[Lead(s, c)] != c
  {
    if s != "" && s[0] == c {
      LeadSplit(s[1..], c);
      var n := Lead(s[1..], c);
      assert s == [c] + s[1..] && Repeat(c, n + 1) == [c] + Repeat(c, n);
      assert s[1..][n..] == s[n + 1..];
    } else {
      assert Repeat(c, 0) == "" && s[0..] == s;
    }
  }
}
