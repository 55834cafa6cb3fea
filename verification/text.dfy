/** The Python string operations the compiler is built from: `str.join`,
    `textwrap.indent`, `str.replace`, `str.lower` and `str(int)`, each with
    the facts the rest of the model uses. */
module Text {

  /** `TAB` of transformations.py: the prefix every renderer indents with. */
  const TAB: string := "\t"

  /** `pat` starts at position `i` of `s`. */
  predicate OccursAt(s: string, pat: string, i: nat) {
    i + |pat| <= |s| && s[i..i + |pat|] == pat
  }

  /** `pat` occurs in `s` as a contiguous piece. */
  ghost predicate Occurs(s: string, pat: string) {
    exists i: nat :: OccursAt(s, pat, i)
  }

  lemma OccursWithin(a: string, b: string, c: string, x: string)
    requires Occurs(b, x)
    ensures Occurs(a + b + c, x)
  {
    var i: nat :| OccursAt(b, x, i);
    var s := a + b + c;
    assert s[|a| + i..|a| + i + |x|] == b[i..i + |x|];
    assert OccursAt(s, x, |a| + i);
  }

  lemma OccursItself(a: string, x: string, c: string)
    ensures Occurs(a + x + c, x)
  {
    var s := a + x + c;
    assert s[|a|..|a| + |x|] == x;
    assert OccursAt(s, x, |a|);
  }

  /** A text that contains `pat + more` contains `pat`. */
  lemma OccursPrefixOf(s: string, pat: string, more: string)
    requires Occurs(s, pat + more)
    ensures Occurs(s, pat)
  {
    var i: nat :| OccursAt(s, pat + more, i);
    assert s[i..i + |pat|] == (pat + more)[..|pat|];
    assert OccursAt(s, pat, i);
  }

  /** No newline character in `s`. */
  predicate NoNewline(s: string) {
    forall i :: 0 <= i < |s| ==> s[i] != '\n'
  }

  /** Texts that begin alike are equal when what follows is: the common beginning cancels. */
  lemma PrefixCancel(p: string, x: string, y: string)
    requires p + x == p + y
    ensures x == y
  {
    assert x == (p + x)[|p|..];
    assert y == (p + y)[|p|..];
  }

  /** The number of characters before the first newline of `s`. */
  function LineLength(s: string): nat {
    if s == [] || s[0] == '\n' then 0 else 1 + LineLength(s[1..])
  }

  lemma {:induction false} LineLengthAt(a: string, rest: string)
    requires NoNewline(a) && rest != [] && rest[0] == '\n'
    ensures LineLength(a + rest) == |a|
  {
    if a != [] {
      assert (a + rest)[1..] == a[1..] + rest;
      LineLengthAt(a[1..], rest);
    }
  }

  /** The first line of a text is determined by the text: two texts split at
      their first newline give the same two pieces. */
  lemma FirstLineUnique(a: string, b: string, c: string, d: string)
    requires NoNewline(a) && NoNewline(c)
    requires a + "\n" + b == c + "\n" + d
    ensures a == c && b == d
  {
    var s := a + "\n" + b;
    LineLengthAt(a, "\n" + b);
    LineLengthAt(c, "\n" + d);
    assert a + "\n" + b == a + ("\n" + b);
    assert c + "\n" + d == c + ("\n" + d);
    assert a == s[..|a|];
    assert c == (c + "\n" + d)[..|c|];
    assert b == s[|a| + 1..];
    assert d == (c + "\n" + d)[|c| + 1..];
  }

  /** The same, after a common beginning. */
  lemma PrefixedLineUnique(p: string, a: string, b: string, c: string, d: string)
    requires NoNewline(a) && NoNewline(c)
    requires p + a + "\n" + b == p + c + "\n" + d
    ensures a == c && b == d
  {
    assert p + a + "\n" + b == p + (a + "\n" + b);
    assert p + c + "\n" + d == p + (c + "\n" + d);
    PrefixCancel(p, a + "\n" + b, c + "\n" + d);
    FirstLineUnique(a, b, c, d);
  }

  // ---------------------------------------------------------------------
  // str.join

  /** `sep.join(parts)`. */
  function Join(sep: string, parts: seq<string>): string
  {
    if |parts| == 0 then ""
    else if |parts| == 1 then parts[0]
    else parts[0] + sep + Join(sep, parts[1..])
  }

  /** Joining one more part adds exactly one separator and the part, at the end. */
  lemma {:induction false} JoinSnoc(sep: string, parts: seq<string>, p: string)
    ensures Join(sep, parts + [p]) == if parts == [] then p else Join(sep, parts) + sep + p
  {
    if |parts| >= 2 {
      assert (parts + [p])[1..] == parts[1..] + [p];
      JoinSnoc(sep, parts[1..], p);
    } else if |parts| == 1 {
      assert (parts + [p])[1..] == [p];
    }
  }

  /** Every part occurs in the joined text. */
  lemma {:induction false} JoinOccurs(sep: string, parts: seq<string>, i: nat)
    requires i < |parts|
    ensures Occurs(Join(sep, parts), parts[i])
  {
    if |parts| == 1 {
      OccursItself("", parts[0], "");
      assert "" + parts[0] + "" == parts[0];
    } else if i == 0 {
      OccursItself("", parts[0], sep + Join(sep, parts[1..]));
      assert parts[0] + sep + Join(sep, parts[1..]) == "" + parts[0] + (sep + Join(sep, parts[1..]));
    } else {
      JoinOccurs(sep, parts[1..], i - 1);
      OccursWithin(parts[0] + sep, Join(sep, parts[1..]), "", parts[i]);
      assert parts[0] + sep + Join(sep, parts[1..]) == (parts[0] + sep) + Join(sep, parts[1..]) + "";
    }
  }

  /** Joining two non-empty lists one after the other puts one separator
      between the two joined texts. */
  lemma {:induction false} JoinAppend(sep: string, xs: seq<string>, ys: seq<string>)
    requires xs != [] && ys != []
    ensures Join(sep, xs + ys) == Join(sep, xs) + sep + Join(sep, ys)
  {
    if |xs| == 1 {
      assert (xs + ys)[1..] == ys;
    } else {
      assert (xs + ys)[1..] == xs[1..] + ys;
      JoinAppend(sep, xs[1..], ys);
    }
  }

  /** A joined text of several parts begins with the first part followed by the separator. */
  lemma JoinHead(sep: string, parts: seq<string>)
    requires |parts| >= 2
    ensures Join(sep, parts) == parts[0] + sep + Join(sep, parts[1..])
  {
  }

  // ---------------------------------------------------------------------
  // textwrap.indent

  /** The characters `str.splitlines` breaks a line after. */
  predicate IsLineBreak(c: char) {
    c == '\n' || c == '\r' || c == '\U{0B}' || c == '\U{0C}' || c == '\U{1C}' || c == '\U{1D}'
    || c == '\U{1E}' || c == '\U{85}' || c == '\U{2028}' || c == '\U{2029}'
  }

  /** The characters `str.strip` removes (those for which `str.isspace` holds). */
  predicate IsSpace(c: char) {
    c == ' ' || c == '\t' || c == '\n' || c == '\r' || c == '\U{0B}' || c == '\U{0C}'
    || c == '\U{1C}' || c == '\U{1D}' || c == '\U{1E}' || c == '\U{1F}' || c == '\U{85}'
    || c == '\U{A0}' || c == '\U{1680}' || ('\U{2000}' <= c <= '\U{200A}') || c == '\U{2028}'
    || c == '\U{2029}' || c == '\U{202F}' || c == '\U{205F}' || c == '\U{3000}'
  }

  predicate IsBlank(line: string) {
    forall i :: 0 <= i < |line| ==> IsSpace(line[i])
  }

  /** A text that fits on one line and is not blank: `textwrap.indent` gives
      it exactly one prefix. */
  predicate OneLine(s: string) {
    s != [] && !IsBlank(s)
    && forall i :: 0 <= i < |s| ==> !IsLineBreak(s[i])
  }

  /** The length of the first line of `s` as `str.splitlines(True)` cuts it,
      its line break ("\r\n" counts as one) included. */
  function LineEnd(s: string): (n: nat)
    requires s != []
    ensures 0 < n <= |s|
  {
    if IsLineBreak(s[0]) then (if s[0] == '\r' && |s| > 1 && s[1] == '\n' then 2 else 1)
    else if |s| == 1 then 1
    else 1 + LineEnd(s[1..])
  }

  /** `textwrap.indent(text, prefix)`: `prefix` goes in front of every line that
      is not made of whitespace only. */
  function Indent(text: string, prefix: string): string
    decreases |text|
  {
    if text == [] then []
    else
      var n := LineEnd(text);
      IndentLine(text[..n], prefix) + Indent(text[n..], prefix)
  }

  function IndentLine(line: string, prefix: string): string {
    if IsBlank(line) then line else prefix + line
  }

  /** Indenting with an empty prefix gives the text back. */
  lemma {:induction false} IndentEmptyPrefix(text: string)
    ensures Indent(text, "") == text
    decreases |text|
  {
    if text != [] {
      var n := LineEnd(text);
      IndentLineEmptyPrefix(text[..n]);
      IndentEmptyPrefix(text[n..]);
      SplitAt(text, n);
    }
  }

  lemma IndentLineEmptyPrefix(line: string)
    ensures IndentLine(line, "") == line
  {
    assert "" + line == line;
  }

  lemma SplitAt(s: string, n: nat)
    requires n <= |s|
    ensures s[..n] + s[n..] == s
  {
  }

  lemma {:induction false} LineEndNoBreak(s: string)
    requires s != []
    requires forall i :: 0 <= i < |s| ==> !IsLineBreak(s[i])
    ensures LineEnd(s) == |s|
  {
    if |s| > 1 {
      LineEndNoBreak(s[1..]);
    }
  }

  /** A single line that is not blank gets exactly one prefix, in front. */
  lemma IndentOneLine(line: string, prefix: string)
    requires OneLine(line)
    ensures Indent(line, prefix) == prefix + line
  {
    LineEndNoBreak(line);
    assert line[..|line|] == line;
    assert line[|line|..] == [];
  }

  lemma {:induction false} LineEndAtNewline(line: string, rest: string)
    requires forall i :: 0 <= i < |line| ==> !IsLineBreak(line[i])
    requires rest != [] && rest[0] == '\n'
    ensures LineEnd(line + rest) == |line| + 1
  {
    if line != [] {
      assert (line + rest)[1..] == line[1..] + rest;
      LineEndAtNewline(line[1..], rest);
    }
  }

  /** A line that is not blank, with its newline, gets exactly one prefix, in front. */
  lemma IndentTerminatedLine(line: string, prefix: string)
    requires OneLine(line)
    ensures Indent(line + "\n", prefix) == prefix + line + "\n"
  {
    var s := line + "\n";
    LineEndAtNewline(line, "\n");
    assert s[..|s|] == s;
    assert s[|s|..] == [];
    assert !IsBlank(s) by {
      var i :| 0 <= i < |line| && !IsSpace(line[i]);
      assert s[i] == line[i];
    }
  }

  /** A one-line text followed by a comma is still one line. */
  lemma CommaLine(x: string)
    requires OneLine(x)
    ensures OneLine(x + ",")
  {
    var i :| 0 <= i < |x| && !IsSpace(x[i]);
    assert (x + ",")[i] == x[i];
  }

  lemma {:induction false} LineEndPrefix(a: string, b: string)
    requires a != [] && a[|a| - 1] == '\n'
    ensures LineEnd(a + b) == LineEnd(a)
  {
    if !IsLineBreak(a[0]) && |a| > 1 {
      assert (a + b)[1..] == a[1..] + b;
      LineEndPrefix(a[1..], b);
    }
  }

  lemma SliceConcat(a: string, b: string, n: nat)
    requires n <= |a|
    ensures (a + b)[..n] == a[..n] && (a + b)[n..] == a[n..] + b
  {
  }

  /** The first line of a text that ends with a newline is the first line of
      that text with anything appended to it. */
  lemma IndentFirstLine(a: string, b: string, prefix: string)
    requires a != [] && a[|a| - 1] == '\n'
    ensures Indent(a + b, prefix) == IndentLine(a[..LineEnd(a)], prefix) + Indent(a[LineEnd(a)..] + b, prefix)
    ensures Indent(a, prefix) == IndentLine(a[..LineEnd(a)], prefix) + Indent(a[LineEnd(a)..], prefix)
  {
    LineEndPrefix(a, b);
    SliceConcat(a, b, LineEnd(a));
  }

  lemma AppendAssoc(x: string, y: string, z: string)
    ensures x + (y + z) == x + y + z
  {
  }

  /** Lines are indented one by one: a text that ends with a newline is indented
      independently of what follows it. */
  lemma {:induction false} IndentConcat(a: string, b: string, prefix: string)
    requires a != [] && a[|a| - 1] == '\n'
    ensures Indent(a + b, prefix) == Indent(a, prefix) + Indent(b, prefix)
    decreases |a|, 1
  {
    if LineEnd(a) < |a| {
      IndentConcatLines(a, b, prefix);
    } else {
      IndentLastLine(a, b, prefix);
    }
  }

  /** `IndentConcat` for a text of one line. */
  lemma IndentLastLine(a: string, b: string, prefix: string)
    requires a != [] && a[|a| - 1] == '\n' && LineEnd(a) == |a|
    ensures Indent(a + b, prefix) == Indent(a, prefix) + Indent(b, prefix)
  {
    IndentFirstLine(a, b, prefix);
    var h := IndentLine(a, prefix);
    assert a[..LineEnd(a)] == a && a[LineEnd(a)..] == [];
    assert Indent(a, prefix) == h + [] == h;
    assert Indent(a + b, prefix) == h + Indent([] + b, prefix);
    assert [] + b == b;
  }

  /** The step of `IndentConcat` for a text of several lines: its first line,
      then the rest, which still ends with a newline. */
  lemma {:induction false} IndentConcatLines(a: string, b: string, prefix: string)
    requires a != [] && a[|a| - 1] == '\n' && LineEnd(a) < |a|
    ensures Indent(a + b, prefix) == Indent(a, prefix) + Indent(b, prefix)
    decreases |a|, 0
  {
    var n := LineEnd(a);
    var rest := a[n..];
    assert rest != [] && rest[|rest| - 1] == '\n';
    IndentConcat(rest, b, prefix);
    IndentFirstLine(a, b, prefix);
    AppendAssoc(IndentLine(a[..n], prefix), Indent(rest, prefix), Indent(b, prefix));
  }

  /** Two one-line texts joined by ",\n" are indented line by line. */
  lemma IndentCommaLines(x: string, y: string, prefix: string)
    requires OneLine(x) && OneLine(y)
    ensures Indent(x + ",\n" + y, prefix) == prefix + x + ",\n" + prefix + y
  {
    CommaLine(x);
    CommaRegroup(x, y, prefix);
    IndentConcat(x + "," + "\n", y, prefix);
    IndentTerminatedLine(x + ",", prefix);
    IndentOneLine(y, prefix);
  }

  lemma CommaRegroup(x: string, y: string, prefix: string)
    ensures x + ",\n" + y == (x + "," + "\n") + y
    ensures prefix + x + ",\n" + prefix + y == (prefix + (x + ",") + "\n") + (prefix + y)
    ensures var h := x + "," + "\n"; h != [] && h[|h| - 1] == '\n'
  {
  }

  // ---------------------------------------------------------------------
  // str.replace

  /** `s.replace(pat, rep)` for a non-empty `pat`: scanning from the left, every
      occurrence that does not overlap an earlier replaced one becomes `rep`. */
  function Replace(s: string, pat: string, rep: string): string
    requires pat != []
    decreases |s|
  {
    if |s| < |pat| then s
    else if s[..|pat|] == pat then rep + Replace(s[|pat|..], pat, rep)
    else [s[0]] + Replace(s[1..], pat, rep)
  }

  /** A text without the pattern comes back unchanged. */
  lemma {:induction false} ReplaceAbsent(s: string, pat: string, rep: string)
    requires pat != [] && !Occurs(s, pat)
    ensures Replace(s, pat, rep) == s
    decreases |s|
  {
    if |s| >= |pat| {
      assert !OccursAt(s, pat, 0);
      assert s[..|pat|] != pat;
      forall i: nat ensures !OccursAt(s[1..], pat, i) {
        assert !OccursAt(s, pat, i + 1);
        if i + |pat| <= |s[1..]| {
          assert s[1..][i..i + |pat|] == s[i + 1..i + 1 + |pat|];
        }
      }
      ReplaceAbsent(s[1..], pat, rep);
      assert [s[0]] + s[1..] == s;
    }
  }

  /** The replacement text is spliced in verbatim: an occurrence of the pattern
      that nothing to its left overlaps becomes exactly `rep`. */
  lemma {:induction false} ReplaceSplice(x: string, pat: string, y: string, rep: string)
    requires pat != []
    requires forall i: nat :: i < |x| ==> !OccursAt(x + pat + y, pat, i)
    ensures Replace(x + pat + y, pat, rep) == x + rep + Replace(y, pat, rep)
    decreases |x|
  {
    var s := x + pat + y;
    if x == [] {
      assert s == pat + y;
      assert s[..|pat|] == pat;
      assert s[|pat|..] == y;
    } else {
      SpliceStep(x, pat, y);
      ReplaceSplice(x[1..], pat, y, rep);
      ConsRegroup(x, rep, Replace(y, pat, rep));
    }
  }

  /** The first character of `x` does not start an occurrence, and what
      follows it still has no occurrence before the pattern. */
  lemma SpliceStep(x: string, pat: string, y: string)
    requires x != [] && pat != []
    requires forall i: nat :: i < |x| ==> !OccursAt(x + pat + y, pat, i)
    ensures (x + pat + y)[..|pat|] != pat
    ensures (x + pat + y)[0] == x[0] && (x + pat + y)[1..] == x[1..] + pat + y
    ensures forall i: nat :: i < |x[1..]| ==> !OccursAt(x[1..] + pat + y, pat, i)
  {
    var s := x + pat + y;
    assert !OccursAt(s, pat, 0);
    assert s[1..] == x[1..] + pat + y;
    forall i: nat | i < |x[1..]| ensures !OccursAt(x[1..] + pat + y, pat, i) {
      assert !OccursAt(s, pat, i + 1);
      if i + |pat| <= |s[1..]| {
        assert s[1..][i..i + |pat|] == s[i + 1..i + 1 + |pat|];
      }
    }
  }

  lemma ConsRegroup(x: string, rep: string, rest: string)
    requires x != []
    ensures [x[0]] + (x[1..] + rep + rest) == x + rep + rest
  {
    assert [x[0]] + x[1..] == x;
  }

  /** Replacing a pattern by itself changes nothing. */
  lemma {:induction false} ReplaceByItself(s: string, pat: string)
    requires pat != []
    ensures Replace(s, pat, pat) == s
    decreases |s|
  {
    if |s| >= |pat| {
      if s[..|pat|] == pat {
        ReplaceByItself(s[|pat|..], pat);
        assert s[..|pat|] + s[|pat|..] == s;
      } else {
        ReplaceByItself(s[1..], pat);
        assert [s[0]] + s[1..] == s;
      }
    }
  }

  // ---------------------------------------------------------------------
  // str.lower, str(int)

  function LowerChar(c: char): char {
    if 'A' <= c <= 'Z' then (c as int + 32) as char else c
  }

  /** `s.lower()` on the ASCII letters. */
  function Lower(s: string): (r: string)
    ensures |r| == |s|
    ensures forall i :: 0 <= i < |s| ==> r[i] == LowerChar(s[i])
  {
    if s == [] then [] else [LowerChar(s[0])] + Lower(s[1..])
  }

  function Digit(d: nat): char
    requires d < 10
  {
    "0123456789"[d]
  }

  function NatToString(n: nat): (r: string)
    ensures r != []
  {
    if n < 10 then [Digit(n)] else NatToString(n / 10) + [Digit(n % 10)]
  }

  /** `str(n)` for an integer. */
  function IntToString(n: int): (r: string)
    ensures r != []
  {
    if n < 0 then "-" + NatToString(-n) else NatToString(n)
  }
}
