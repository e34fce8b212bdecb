/** String operations with the semantics the TypeScript and Python sources rely on:
    splitting on one character, joining, first-occurrence search and replacement
    (including the `$` patterns of JavaScript's `String.prototype.replace`). */
module Strings {
  import opened Base

  /** `s.split(c)` for a one-character separator: JavaScript and Python agree. */
  function Split(s: string, c: char): (r: seq<string>)
    ensures |r| >= 1
    ensures forall k :: 0 <= k < |r| ==> c !in r[k]
  {
    if s == [] then [""]
    else
      var rest := Split(s[1..], c);
      if s[0] == c then [""] + rest else [[s[0]] + rest[0]] + rest[1..]
  }

  /** `sep.join(parts)` / `parts.join(sep)`. */
  function Join(parts: seq<string>, sep: string): string {
    if |parts| == 0 then ""
    else if |parts| == 1 then parts[0]
    else parts[0] + sep + Join(parts[1..], sep)
  }

  lemma {:induction false} JoinSplit(s: string, c: char)
    ensures Join(Split(s, c), [c]) == s
  {
    if s != [] {
      JoinSplit(s[1..], c);
      var rest := Split(s[1..], c);
      if s[0] != c {
        if |rest| > 1 {
          assert ([s[0]] + rest[0]) + [c] + Join(rest[1..], [c]) == [s[0]] + (rest[0] + [c] + Join(rest[1..], [c]));
        }
      }
    }
  }

  lemma {:induction false} SplitJoin(parts: seq<string>, c: char)
    requires |parts| >= 1
    requires forall k :: 0 <= k < |parts| ==> c !in parts[k]
    ensures Split(Join(parts, [c]), c) == parts
  {
    if |parts| == 1 {
      SplitNoSep(parts[0], c);
    } else {
      SplitJoin(parts[1..], c);
      SplitConcat(parts[0], Join(parts[1..], [c]), c);
      assert parts == [parts[0]] + parts[1..];
    }
  }

  lemma {:induction false} SplitNoSep(s: string, c: char)
    requires c !in s
    ensures Split(s, c) == [s]
  {
    if s != [] {
      assert c !in s[1..] by {
        forall k | 0 <= k < |s[1..]| ensures s[1..][k] != c { assert s[1..][k] == s[k + 1]; }
      }
      SplitNoSep(s[1..], c);
      assert [s[0]] + s[1..] == s;
    }
  }

  /** Splitting `a + [c] + b`, where `a` has no separator, puts `a` first. */
  lemma {:induction false} SplitConcat(a: string, b: string, c: char)
    requires c !in a
    ensures Split(a + [c] + b, c) == [a] + Split(b, c)
  {
    if a == [] {
      assert ([c] + b)[1..] == b;
    } else {
      assert (a + [c] + b)[1..] == a[1..] + [c] + b;
      SplitConcat(a[1..], b, c);
      assert [a[0]] + a[1..] == a;
    }
  }

  lemma {:induction false} JoinAppend(parts: seq<string>, x: string, sep: string)
    ensures Join(parts + [x], sep) == if parts == [] then x else Join(parts, sep) + sep + x
  {
    if |parts| > 1 {
      assert (parts + [x])[1..] == parts[1..] + [x];
      JoinAppend(parts[1..], x, sep);
    } else if |parts| == 1 {
      assert (parts + [x])[1..] == [x];
    }
  }

  predicate OccursAt(s: string, pat: string, i: nat) {
    i + |pat| <= |s| && s[i..i + |pat|] == pat
  }

  /** An occurrence stays an occurrence when text is put in front. */
  lemma OccursShift(pre: string, s: string, pat: string, k: nat)
    requires OccursAt(s, pat, k)
    ensures OccursAt(pre + s, pat, |pre| + k)
  {
    assert (pre + s)[|pre| + k..|pre| + k + |pat|] == s[k..k + |pat|];
  }

  /** Where `parts[i]` begins inside `Join(parts, sep)`. */
  function JoinOffset(parts: seq<string>, sep: string, i: nat): nat
    requires i < |parts|
  {
    if i == 0 then 0 else |parts[0]| + |sep| + JoinOffset(parts[1..], sep, i - 1)
  }

  lemma {:induction false} JoinAdjacentAt(parts: seq<string>, sep: string, i: nat)
    requires i + 1 < |parts|
    ensures OccursAt(Join(parts, sep), parts[i] + sep + parts[i + 1], JoinOffset(parts, sep, i))
  {
    if i == 0 {
      JoinFirstPair(parts, sep);
    } else {
      var rest := parts[1..];
      var pat := parts[i] + sep + parts[i + 1];
      assert Join(parts, sep) == (parts[0] + sep) + Join(rest, sep);
      assert rest[i - 1] == parts[i] && rest[i] == parts[i + 1];
      JoinAdjacentAt(rest, sep, i - 1);
      OccursShift(parts[0] + sep, Join(rest, sep), pat, JoinOffset(rest, sep, i - 1));
    }
  }

  lemma JoinFirstPair(parts: seq<string>, sep: string)
    requires |parts| >= 2
    ensures OccursAt(Join(parts, sep), parts[0] + sep + parts[1], 0)
  {
    var rest := parts[1..];
    var pat := parts[0] + sep + parts[1];
    if |rest| == 1 {
      assert Join(rest, sep) == parts[1];
    } else {
      assert Join(rest, sep) == parts[1] + sep + Join(rest[1..], sep);
    }
    assert Join(parts, sep) == pat + Join(rest, sep)[|parts[1]|..];
    assert Join(parts, sep)[..|pat|] == pat;
  }

  /** In a join, each part is followed by the separator and the next part. */
  lemma JoinAdjacent(parts: seq<string>, sep: string, i: nat)
    requires i + 1 < |parts|
    ensures Contains(Join(parts, sep), parts[i] + sep + parts[i + 1])
  {
    JoinAdjacentAt(parts, sep, i);
    ContainsAt(Join(parts, sep), parts[i] + sep + parts[i + 1], JoinOffset(parts, sep, i));
  }

  /** The first index at or after `from` where `pat` occurs. */
  function IndexFrom(s: string, pat: string, from: nat): (r: Option<nat>)
    requires from <= |s|
    ensures r.Some? ==> from <= r.value && OccursAt(s, pat, r.value)
    ensures r.Some? ==> forall j :: from <= j < r.value ==> !OccursAt(s, pat, j)
    ensures r.None? ==> forall j :: from <= j <= |s| ==> !OccursAt(s, pat, j)
    decreases |s| - from
  {
    if OccursAt(s, pat, from) then Some(from)
    else if from == |s| then None
    else IndexFrom(s, pat, from + 1)
  }

  /** `s.indexOf(pat)`, or `None` for -1. */
  function IndexOf(s: string, pat: string): (r: Option<nat>)
    ensures r.Some? ==> OccursAt(s, pat, r.value)
    ensures r.Some? ==> forall j :: 0 <= j < r.value ==> !OccursAt(s, pat, j)
    ensures r.None? ==> forall j :: 0 <= j <= |s| ==> !OccursAt(s, pat, j)
  {
    IndexFrom(s, pat, 0)
  }

  /** `s.includes(pat)` / Python's `pat in s`. */
  predicate Contains(s: string, pat: string) {
    IndexOf(s, pat).Some?
  }

  lemma ContainsAt(s: string, pat: string, i: nat)
    requires OccursAt(s, pat, i)
    ensures Contains(s, pat)
  {
  }

  predicate StartsWith(s: string, prefix: string) {
    |prefix| <= |s| && s[..|prefix|] == prefix
  }

  /** Replaces the first occurrence of `pat` by `rep` verbatim. */
  function ReplaceFirst(s: string, pat: string, rep: string): (r: string)
    ensures IndexOf(s, pat).None? ==> r == s
    ensures IndexOf(s, pat).Some? ==>
      var i := IndexOf(s, pat).value;
      r == s[..i] + rep + s[i + |pat|..]
  {
    match IndexOf(s, pat)
    case None => s
    case Some(i) => s[..i] + rep + s[i + |pat|..]
  }

  /** At the first occurrence `i`: the text before it is kept, `rep` stands where the
      pattern stood, and putting the pattern back in its place gives the original text. */
  lemma ReplaceFirstUndo(s: string, pat: string, rep: string, i: nat)
    requires IndexOf(s, pat) == Some(i)
    ensures var r := ReplaceFirst(s, pat, rep);
      |r| == |s| - |pat| + |rep|
      && r[..i] == s[..i]
      && OccursAt(r, rep, i)
      && r[..i] + pat + r[i + |rep|..] == s
  {
    var r := ReplaceFirst(s, pat, rep);
    assert r[..i] == s[..i];
    assert r[i..i + |rep|] == rep;
    assert r[i + |rep|..] == s[i + |pat|..];
    assert s == s[..i] + s[i..i + |pat|] + s[i + |pat|..];
  }

  /** The replacement text JavaScript builds from a replacement string when the
      pattern is a string (GetSubstitution with no captures): `$$` is `$`, `$&`
      the match, `` $` `` the text before it, `$'` the text after it, and any
      other `$` stands for itself. */
  function Substitution(rep: string, matched: string, before: string, after: string): string {
    if rep == [] then ""
    else if rep[0] == '$' && |rep| >= 2 && rep[1] in "$&`'" then
      (match rep[1]
       case '$' => "$"
       case '&' => matched
       case '`' => before
       case _ => after)
      + Substitution(rep[2..], matched, before, after)
    else [rep[0]] + Substitution(rep[1..], matched, before, after)
  }

  lemma {:induction false} SubstitutionPlain(rep: string, matched: string, before: string, after: string)
    requires '$' !in rep
    ensures Substitution(rep, matched, before, after) == rep
  {
    if rep != [] {
      SubstitutionPlain(rep[1..], matched, before, after);
    }
  }

  /** `s.replace(pat, rep)` in JavaScript with a string pattern and a string replacement.
      Without a `$` in the replacement it is the verbatim replacement. */
  function JsReplace(s: string, pat: string, rep: string): (r: string)
    ensures IndexOf(s, pat).None? ==> r == s
    ensures '$' !in rep ==> r == ReplaceFirst(s, pat, rep)
  {
    match IndexOf(s, pat)
    case None => s
    case Some(i) =>
      var sub := Substitution(rep, pat, s[..i], s[i + |pat|..]);
      assert '$' !in rep ==> sub == rep by {
        if '$' !in rep {
          SubstitutionPlain(rep, pat, s[..i], s[i + |pat|..]);
        }
      }
      s[..i] + sub + s[i + |pat|..]
  }

  /** Every `$` doubled. */
  function EscapeDollars(rep: string): (r: string)
    ensures |r| >= |rep|
  {
    if rep == [] then ""
    else (if rep[0] == '$' then "$$" else [rep[0]]) + EscapeDollars(rep[1..])
  }

  /** A replacement with its `$` doubled expands back to the original text. */
  lemma {:induction false} SubstitutionEscaped(rep: string, matched: string, before: string, after: string)
    ensures Substitution(EscapeDollars(rep), matched, before, after) == rep
  {
    if rep != [] {
      var e := EscapeDollars(rep[1..]);
      SubstitutionEscaped(rep[1..], matched, before, after);
      if rep[0] == '$' {
        assert EscapeDollars(rep) == "$$" + e;
        assert ("$$" + e)[2..] == e;
      } else {
        assert EscapeDollars(rep) == [rep[0]] + e;
        assert ([rep[0]] + e)[1..] == e;
      }
      assert rep == [rep[0]] + rep[1..];
    }
  }

  /** JavaScript's replace with the `$` of the replacement doubled is the verbatim one. */
  lemma JsReplaceEscaped(s: string, pat: string, rep: string)
    ensures JsReplace(s, pat, EscapeDollars(rep)) == ReplaceFirst(s, pat, rep)
  {
    if IndexOf(s, pat).Some? {
      var i := IndexOf(s, pat).value;
      SubstitutionEscaped(rep, pat, s[..i], s[i + |pat|..]);
    }
  }

  /** Decimal rendering of a natural number, as a template literal prints it. */
  function NatToString(n: nat): (r: string)
    ensures |r| >= 1
    ensures forall k :: 0 <= k < |r| ==> '0' <= r[k] <= '9'
  {
    if n < 10 then [Digit(n)] else NatToString(n / 10) + [Digit(n % 10)]
  }

  function Digit(d: nat): (c: char)
    requires d < 10
    ensures '0' <= c <= '9'
  {
    ['0', '1', '2', '3', '4', '5', '6', '7', '8', '9'][d]
  }

  /** `toUpperCase` on one character, for the ASCII letters. */
  function UpperChar(c: char): (u: char)
    ensures 'a' <= c <= 'z' ==> 'A' <= u <= 'Z' && u as int == c as int - 32
    ensures !('a' <= c <= 'z') ==> u == c
  {
    if 'a' <= c <= 'z' then (c as int - 32) as char else c
  }

  /** Drops the leading characters that satisfy `sp`. */
  function TrimStart(s: string, sp: char -> bool): (r: string)
    ensures |r| <= |s| && r == s[|s| - |r|..]
    ensures r == [] || !sp(r[0])
    ensures forall k :: 0 <= k < |s| - |r| ==> sp(s[k])
  {
    if s != [] && sp(s[0]) then TrimStart(s[1..], sp) else s
  }

  /** Drops the trailing characters that satisfy `sp`. */
  function TrimEnd(s: string, sp: char -> bool): (r: string)
    ensures |r| <= |s| && r == s[..|r|]
    ensures r == [] || !sp(r[|r| - 1])
    ensures forall k :: |r| <= k < |s| ==> sp(s[k])
  {
    if s != [] && sp(s[|s| - 1]) then TrimEnd(s[..|s| - 1], sp) else s
  }

  /** Strips `sp`-characters from both ends (`str.strip()`, `String.prototype.trim`). */
  function Trim(s: string, sp: char -> bool): (r: string)
    ensures r == [] || (!sp(r[0]) && !sp(r[|r| - 1]))
    ensures |r| <= |s|
  {
    TrimEnd(TrimStart(s, sp), sp)
  }

  /** A string trims to nothing exactly when all its characters are blank. */
  lemma TrimEmpty(s: string, sp: char -> bool)
    ensures Trim(s, sp) == [] <==> forall k :: 0 <= k < |s| ==> sp(s[k])
  {
    if Trim(s, sp) == [] {
      assert TrimStart(s, sp) == [];
    }
  }

  /** A string without blank ends is its own trim. */
  lemma TrimFixed(s: string, sp: char -> bool)
    requires s == [] || (!sp(s[0]) && !sp(s[|s| - 1]))
    ensures Trim(s, sp) == s
  {
  }

  /** Trimming is idempotent. */
  lemma TrimTwice(s: string, sp: char -> bool)
    ensures Trim(Trim(s, sp), sp) == Trim(s, sp)
  {
    TrimFixed(Trim(s, sp), sp);
  }

  /** JavaScript's WhiteSpace and LineTerminator characters, which `trim` removes. */
  predicate JsSpace(c: char) {
    var n := c as int;
    (9 <= n <= 13) || n == 0x20 || n == 0xA0 || n == 0x1680 || (0x2000 <= n <= 0x200A)
    || n == 0x2028 || n == 0x2029 || n == 0x202F || n == 0x205F || n == 0x3000 || n == 0xFEFF
  }
}
