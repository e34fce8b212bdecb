/** Python's whitespace handling as the scraper code uses it (`str.strip()`,
    `re.sub(r'\s+', ' ', …)`, `re.sub(r'\n{3,}', '\n\n', …)`), and the line cleanup that
    the two item pipelines (`clean_text`) and the two spiders (`clean_content`) share. */
module PyText {
  import opened Base
  import opened Strings

  /** `str.isspace()` for one character; for `str` patterns `\s` matches the same set. */
  predicate PySpace(c: char) {
    var n := c as int;
    (9 <= n <= 13) || (28 <= n <= 32) || n == 0x85 || n == 0xA0 || n == 0x1680
    || (0x2000 <= n <= 0x200A) || n == 0x2028 || n == 0x2029 || n == 0x202F || n == 0x205F || n == 0x3000
  }

  /** `s.strip()`. */
  function Strip(s: string): (r: string)
    ensures Stripped(r)
    ensures |r| <= |s|
  {
    Trim(s, PySpace)
  }

  /** Nothing but whitespace. */
  predicate AllSpace(s: string) {
    forall k :: 0 <= k < |s| ==> PySpace(s[k])
  }

  /** `s.strip()` is empty exactly when `s` is all whitespace. */
  lemma StripEmpty(s: string)
    ensures Strip(s) == "" <==> AllSpace(s)
  {
    TrimEmpty(s, PySpace);
  }

  /** No whitespace at either end. */
  predicate Stripped(s: string) {
    s == [] || (!PySpace(s[0]) && !PySpace(s[|s| - 1]))
  }

  /** Not whitespace. */
  predicate NonSpace(c: char) {
    !PySpace(c)
  }

  /** The non-whitespace characters of `s`, in order: the text that the whitespace
      rewrites below must leave alone. */
  function Visible(s: string): string {
    Filter(s, NonSpace)
  }

  lemma VisibleCons(c: char, s: string)
    ensures Visible([c] + s) == (if PySpace(c) then [] else [c]) + Visible(s)
  {
    assert ([c] + s)[1..] == s;
  }

  lemma VisibleAppend(a: string, b: string)
    ensures Visible(a + b) == Visible(a) + Visible(b)
  {
    FilterAppend(a, b, NonSpace);
  }

  lemma {:induction false} VisibleOfSpace(s: string)
    requires AllSpace(s)
    ensures Visible(s) == []
  {
    if s != [] {
      assert AllSpace(s[1..]) by {
        forall k | 0 <= k < |s[1..]| ensures PySpace(s[1..][k]) {
          assert s[1..][k] == s[k + 1];
        }
      }
      VisibleOfSpace(s[1..]);
    }
  }

  lemma TrimStartVisible(s: string)
    ensures Visible(TrimStart(s, PySpace)) == Visible(s)
  {
    var a := TrimStart(s, PySpace);
    var front := s[..|s| - |a|];
    assert s == front + a;
    VisibleOfSpace(front);
    VisibleAppend(front, a);
  }

  lemma TrimEndVisible(s: string)
    ensures Visible(TrimEnd(s, PySpace)) == Visible(s)
  {
    var b := TrimEnd(s, PySpace);
    var back := s[|b|..];
    assert s == b + back;
    VisibleOfSpace(back);
    VisibleAppend(b, back);
  }

  /** `s.strip()` removes whitespace only. */
  lemma StripVisible(s: string)
    ensures Visible(Strip(s)) == Visible(s)
  {
    TrimStartVisible(s);
    TrimEndVisible(TrimStart(s, PySpace));
  }

  /** Every whitespace character is a plain space, and no two are adjacent. */
  predicate Collapsed(s: string) {
    s == [] || ((PySpace(s[0]) ==> s[0] == ' ' && (|s| > 1 ==> !PySpace(s[1]))) && Collapsed(s[1..]))
  }

  /** `re.sub(r'\s+', ' ', s)`: every maximal run of whitespace becomes one space. */
  function Collapse(s: string): (r: string)
    ensures Collapsed(r)
    ensures r == [] <==> s == []
    ensures s != [] ==> PySpace(r[0]) == PySpace(s[0]) && PySpace(r[|r| - 1]) == PySpace(s[|s| - 1])
    decreases |s|
  {
    if s == [] then []
    else if PySpace(s[0]) then
      var rest := TrimStart(s[1..], PySpace);
      LastOfSuffix(s[1..], rest);
      var tail := Collapse(rest);
      ConsCollapsed(' ', tail);
      [' '] + tail
    else
      var tail := Collapse(s[1..]);
      ConsCollapsed(s[0], tail);
      [s[0]] + tail
  }

  lemma ConsCollapsed(x: char, tail: string)
    requires Collapsed(tail)
    requires PySpace(x) ==> x == ' ' && (tail != [] ==> !PySpace(tail[0]))
    ensures Collapsed([x] + tail)
  {
    assert ([x] + tail)[1..] == tail;
  }

  /** A non-empty suffix ends where the whole string ends; an empty one that `TrimStart`
      left means the string was all whitespace. */
  lemma LastOfSuffix(s: string, rest: string)
    requires rest == TrimStart(s, PySpace)
    ensures rest != [] ==> rest[|rest| - 1] == s[|s| - 1]
    ensures rest == [] && s != [] ==> PySpace(s[|s| - 1])
  {
  }

  /** An already collapsed string is left as it is. */
  lemma {:induction false} CollapseFixed(s: string)
    requires Collapsed(s)
    ensures Collapse(s) == s
    decreases |s|
  {
    if s != [] {
      assert s == [s[0]] + s[1..];
      if PySpace(s[0]) {
        TrimStartNoop(s[1..], PySpace);
      }
      CollapseFixed(s[1..]);
    }
  }

  /** `TrimStart` stops at once on a string that does not start with a trimmed character. */
  lemma TrimStartNoop(t: string, sp: char -> bool)
    requires t == [] || !sp(t[0])
    ensures TrimStart(t, sp) == t
  {
  }

  /** A collapsed string holds no newline: whitespace in it is plain spaces. */
  lemma {:induction false} CollapsedNoNewline(s: string)
    requires Collapsed(s)
    ensures '\n' !in s
  {
    if s != [] {
      CollapsedNoNewline(s[1..]);
      assert s == [s[0]] + s[1..];
    }
  }

  lemma CollapseTwice(s: string)
    ensures Collapse(Collapse(s)) == Collapse(s)
  {
    CollapseFixed(Collapse(s));
  }

  /** Collapsing whitespace keeps every other character, in order. */
  lemma {:induction false} CollapseVisible(s: string)
    ensures Visible(Collapse(s)) == Visible(s)
    decreases |s|
  {
    if s != [] {
      assert s == [s[0]] + s[1..];
      VisibleCons(s[0], s[1..]);
      if PySpace(s[0]) {
        var rest := TrimStart(s[1..], PySpace);
        TrimStartVisible(s[1..]);
        CollapseVisible(rest);
        VisibleCons(' ', Collapse(rest));
      } else {
        CollapseVisible(s[1..]);
        VisibleCons(s[0], Collapse(s[1..]));
      }
    }
  }

  /** `re.sub(r'\s+', ' ', line.strip())`. */
  function CleanLine(line: string): (r: string)
    ensures Collapsed(r) && Stripped(r)
    ensures '\n' !in r
  {
    CollapsedNoNewline(Collapse(Strip(line)));
    Collapse(Strip(line))
  }

  /** Cleaning a cleaned line changes nothing. */
  lemma CleanLineFixed(line: string)
    ensures CleanLine(CleanLine(line)) == CleanLine(line)
  {
    var c := CleanLine(line);
    TrimFixed(c, PySpace);
    CollapseFixed(c);
  }

  /** Cleaning a line changes its whitespace only. */
  lemma CleanLineVisible(line: string)
    ensures Visible(CleanLine(line)) == Visible(line)
  {
    StripVisible(line);
    CollapseVisible(Strip(line));
  }

  /** A line `clean_text` / `clean_content` keeps: longer than `minLen`, collapsed and
      stripped. */
  predicate KeptLine(l: string, minLen: nat) {
    |l| > minLen && Collapsed(l) && Stripped(l)
  }

  /** A kept line is not empty, holds no newline, and is its own cleaned line. */
  lemma KeptLineShape(l: string, minLen: nat)
    requires KeptLine(l, minLen)
    ensures l != [] && '\n' !in l && CleanLine(l) == l
  {
    CollapsedNoNewline(l);
    TrimFixed(l, PySpace);
    CollapseFixed(l);
  }

  /** The cleaned lines longer than `minLen`, in order: the loop body of `clean_text`
      (`minLen` 0, i.e. non-empty) and of `clean_content` (`minLen` 2). */
  function KeptLines(lines: seq<string>, minLen: nat): (r: seq<string>)
    ensures |r| <= |lines|
  {
    if lines == [] then []
    else
      var c := CleanLine(lines[|lines| - 1]);
      KeptLines(lines[..|lines| - 1], minLen) + (if |c| > minLen then [c] else [])
  }

  /** Every line kept is longer than `minLen`, collapsed and stripped. */
  lemma {:induction false} KeptLinesKept(lines: seq<string>, minLen: nat)
    ensures forall k :: 0 <= k < |KeptLines(lines, minLen)| ==> KeptLine(KeptLines(lines, minLen)[k], minLen)
  {
    if lines != [] {
      var init := lines[..|lines| - 1];
      var front := KeptLines(init, minLen);
      var c := CleanLine(lines[|lines| - 1]);
      KeptLinesKept(init, minLen);
      KeptLinesSnoc(lines, minLen);
      if |c| > minLen {
        var r := front + [c];
        assert KeptLine(c, minLen);
        forall k | 0 <= k < |r| ensures KeptLine(r[k], minLen) {
          if k < |front| {
            assert r[k] == front[k];
          }
        }
      }
    }
  }

  /** The last line, once cleaned, is kept when it is still longer than `minLen`. */
  lemma KeptLinesSnoc(lines: seq<string>, minLen: nat)
    requires lines != []
    ensures var c := CleanLine(lines[|lines| - 1]);
      KeptLines(lines, minLen) == KeptLines(lines[..|lines| - 1], minLen) + (if |c| > minLen then [c] else [])
  {
  }

  /** Lines that are already clean and long enough are all kept. */
  lemma {:induction false} KeptLinesFixed(lines: seq<string>, minLen: nat)
    requires forall k :: 0 <= k < |lines| ==> KeptLine(lines[k], minLen)
    ensures KeptLines(lines, minLen) == lines
  {
    if lines != [] {
      var init := lines[..|lines| - 1];
      var last := lines[|lines| - 1];
      assert forall k :: 0 <= k < |init| ==> init[k] == lines[k];
      KeptLinesFixed(init, minLen);
      KeptLineShape(last, minLen);
      KeptLinesSnoc(lines, minLen);
      FrontLast(lines);
    }
  }

  /** The length test on a cleaned line. */
  function LongerThan(minLen: nat): string -> bool {
    l => |l| > minLen
  }

  /** The lines kept are exactly the cleaned lines longer than `minLen`, in their order. */
  lemma {:induction false} KeptLinesFilter(lines: seq<string>, minLen: nat)
    ensures KeptLines(lines, minLen) == Filter(Map(lines, CleanLine), LongerThan(minLen))
  {
    if lines != [] {
      var n := |lines| - 1;
      var c := CleanLine(lines[n]);
      KeptLinesFilter(lines[..n], minLen);
      MapSnoc(lines, CleanLine, n);
      assert lines[..n + 1] == lines;
      FilterAppend(Map(lines[..n], CleanLine), [c], LongerThan(minLen));
      assert Filter([c], LongerThan(minLen)) == if |c| > minLen then [c] else [] by {
        assert [c][1..] == [];
      }
    }
  }

  /** The test for one given character. */
  function IsChar(c: char): char -> bool {
    x => x == c
  }

  /** No two adjacent newlines. */
  predicate NoBlankLine(s: string) {
    NoTwoAdjacent(s, '\n')
  }

  predicate NoTwoAdjacent(s: string, c: char) {
    forall i :: 0 <= i < |s| - 1 ==> !(s[i] == c && s[i + 1] == c)
  }

  /** Every maximal run of `c` longer than `keep` cut down to `keep` characters:
      `re.sub(r'\n{3,}', '\n\n', s)` is `CapRuns(s, '\n', 2)` and
      `re.sub(r' {2,}', ' ', s)` is `CapRuns(s, ' ', 1)`. */
  function CapRuns(s: string, c: char, keep: nat): string
    decreases |s|
  {
    if s == [] then []
    else if s[0] == c then
      var rest := TrimStart(s, IsChar(c));
      var run := |s| - |rest|;
      (if run > keep then Repeat(c, keep) else s[..run]) + CapRuns(rest, c, keep)
    else [s[0]] + CapRuns(s[1..], c, keep)
  }

  function Repeat(c: char, n: nat): (r: string)
    ensures |r| == n && forall k :: 0 <= k < n ==> r[k] == c
  {
    if n == 0 then [] else [c] + Repeat(c, n - 1)
  }

  /** `re.sub(r'\n{3,}', '\n\n', s)`. */
  function LimitNewlines(s: string): string {
    CapRuns(s, '\n', 2)
  }

  /** Without two adjacent `c` there is no run to shorten. */
  lemma {:induction false} CapRunsFixed(s: string, c: char, keep: nat)
    requires keep >= 1
    requires NoTwoAdjacent(s, c)
    ensures CapRuns(s, c, keep) == s
    decreases |s|
  {
    if s != [] {
      assert NoTwoAdjacent(s[1..], c) by {
        forall i | 0 <= i < |s[1..]| - 1 ensures !(s[1..][i] == c && s[1..][i + 1] == c) {
          assert s[1..][i] == s[i + 1] && s[1..][i + 1] == s[i + 2];
        }
      }
      if s[0] == c {
        assert |s| > 1 ==> s[1] != c;
        TrimStartNoop(s[1..], IsChar(c));
        assert TrimStart(s, IsChar(c)) == s[1..];
        CapRunsFixed(s[1..], c, keep);
        assert s == s[..1] + s[1..];
      } else {
        CapRunsFixed(s[1..], c, keep);
      }
    }
  }

  /** Shortening runs of a whitespace character leaves the other characters alone. */
  lemma {:induction false} CapRunsVisible(s: string, c: char, keep: nat)
    requires PySpace(c)
    ensures Visible(CapRuns(s, c, keep)) == Visible(s)
    decreases |s|
  {
    if s != [] {
      if s[0] == c {
        var rest := TrimStart(s, IsChar(c));
        var run := |s| - |rest|;
        var front := if run > keep then Repeat(c, keep) else s[..run];
        assert IsChar(c)(s[0]);
        assert s == s[..run] + rest;
        assert AllSpace(s[..run]) by {
          forall k | 0 <= k < run ensures PySpace(s[..run][k]) {
            assert IsChar(c)(s[k]);
          }
        }
        assert AllSpace(front);
        CapRunsVisible(rest, c, keep);
        VisibleOfSpace(front);
        VisibleOfSpace(s[..run]);
        VisibleAppend(front, CapRuns(rest, c, keep));
        VisibleAppend(s[..run], rest);
      } else {
        assert s == [s[0]] + s[1..];
        CapRunsVisible(s[1..], c, keep);
        VisibleCons(s[0], CapRuns(s[1..], c, keep));
        VisibleCons(s[0], s[1..]);
      }
    }
  }

  /** Lines without newlines, none of them empty, joined by newlines. */
  lemma {:induction false} JoinNoBlankLine(parts: seq<string>)
    requires forall k :: 0 <= k < |parts| ==> parts[k] != [] && '\n' !in parts[k]
    ensures NoBlankLine(Join(parts, "\n"))
    ensures |parts| >= 1 ==>
      (|Join(parts, "\n")| >= 1
       && Join(parts, "\n")[0] == parts[0][0]
       && Join(parts, "\n")[|Join(parts, "\n")| - 1] == parts[|parts| - 1][|parts[|parts| - 1]| - 1])
  {
    if |parts| >= 2 {
      JoinNoBlankLine(parts[1..]);
      var p := parts[0];
      var j := Join(parts[1..], "\n");
      var s := p + "\n" + j;
      assert Join(parts, "\n") == s;
      forall i | 0 <= i < |s| - 1 ensures !(s[i] == '\n' && s[i + 1] == '\n') {
        if i < |p| - 1 {
          assert s[i] == p[i] && s[i + 1] == p[i + 1];
          assert p[i] != '\n';
        } else if i == |p| - 1 {
          assert s[i] == p[i];
          assert p[i] != '\n';
        } else if i == |p| {
          assert s[i + 1] == j[0] == parts[1][0];
          assert parts[1][0] != '\n';
        } else {
          assert s[i] == j[i - |p| - 1] && s[i + 1] == j[i - |p|];
        }
      }
    }
  }

  /** The whole of `clean_text` / `clean_content`, as a function of the input. */
  function Cleaned(text: string, minLen: nat): string {
    if text == "" then ""
    else Strip(LimitNewlines(Join(KeptLines(Split(text, '\n'), minLen), "\n")))
  }

  /** `clean_text` (`minLen` 0) and `clean_content` (`minLen` 2): strip and collapse each
      line, keep those longer than `minLen`, join them with newlines, shorten newline runs
      and strip the result. */
  method CleanLines(text: string, minLen: nat) returns (r: string)
    ensures r == Cleaned(text, minLen)
  {
    if text == "" {
      return "";
    }
    var lines := Split(text, '\n');
    var kept: seq<string> := [];
    var i := 0;
    while i < |lines|
      invariant 0 <= i <= |lines|
      invariant kept == KeptLines(lines[..i], minLen)
    {
      PrefixOfPrefix(lines, i);
      var c := CleanLine(lines[i]);
      if |c| > minLen {
        kept := kept + [c];
      }
      i := i + 1;
    }
    FullPrefix(lines);
    r := Strip(LimitNewlines(Join(kept, "\n")));
  }

  /** Kept lines joined by newlines: no blank line, no whitespace at the ends, and
      splitting at the newlines gives the lines back. */
  lemma JoinKept(kept: seq<string>, minLen: nat)
    requires forall k :: 0 <= k < |kept| ==> KeptLine(kept[k], minLen)
    ensures NoBlankLine(Join(kept, "\n")) && Stripped(Join(kept, "\n"))
    ensures kept != [] ==> Split(Join(kept, "\n"), '\n') == kept
  {
    forall k | 0 <= k < |kept| ensures kept[k] != [] && '\n' !in kept[k] {
      KeptLineShape(kept[k], minLen);
    }
    JoinNoBlankLine(kept);
    if kept != [] {
      SplitJoin(kept, '\n');
    }
  }

  /** The cleaned text is exactly the kept lines joined by newlines: the newline limit and
      the final strip change nothing. */
  lemma CleanedIsJoin(text: string, minLen: nat)
    ensures Cleaned(text, minLen) == if text == "" then "" else Join(KeptLines(Split(text, '\n'), minLen), "\n")
  {
    if text != "" {
      var kept := KeptLines(Split(text, '\n'), minLen);
      var j := Join(kept, "\n");
      KeptLinesKept(Split(text, '\n'), minLen);
      JoinKept(kept, minLen);
      CapRunsFixed(j, '\n', 2);
      TrimFixed(j, PySpace);
    }
  }

  /** Every line of the result is collapsed, stripped and longer than `minLen`, and no
      two newlines are adjacent (so no line is empty). */
  lemma CleanedLinesShape(text: string, minLen: nat)
    requires Cleaned(text, minLen) != ""
    ensures var ls := Split(Cleaned(text, minLen), '\n');
      forall k :: 0 <= k < |ls| ==> KeptLine(ls[k], minLen)
    ensures NoBlankLine(Cleaned(text, minLen))
    ensures Stripped(Cleaned(text, minLen))
  {
    CleanedIsJoin(text, minLen);
    var kept := KeptLines(Split(text, '\n'), minLen);
    var r := Join(kept, "\n");
    assert Cleaned(text, minLen) == r;
    assert kept != [];
    KeptLinesKept(Split(text, '\n'), minLen);
    JoinKept(kept, minLen);
  }

  /** Cleaning twice is cleaning once. */
  lemma CleanedTwice(text: string, minLen: nat)
    ensures Cleaned(Cleaned(text, minLen), minLen) == Cleaned(text, minLen)
  {
    var r := Cleaned(text, minLen);
    if r != "" {
      CleanedIsJoin(text, minLen);
      var kept := KeptLines(Split(text, '\n'), minLen);
      assert kept != [];
      KeptLinesKept(Split(text, '\n'), minLen);
      JoinKept(kept, minLen);
      KeptLinesFixed(kept, minLen);
      CleanedIsJoin(r, minLen);
    }
  }
}
