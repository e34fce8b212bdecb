/** The crawler of the scraper service (`scraper-api/scraper/spiders/website_spider.py`):
    the start URL, the page counter that cuts the crawl off, the choice of the main
    content element, the whitespace rules applied to its text, and the final cleanup. */
module ApiSpider {
  import opened Base
  import opened Strings
  import opened PyText
  import opened ScrapedPages

  /** A parsed element as the content code sees it: the text pieces the walk over its
      descendants appends (the stripped string of a block element followed by a newline,
      a newline for `<br>`, a stripped inline string followed by a space). A parsed tag
      is always truthy, even one with no children, so an element needs nothing more. */
  datatype Element = Element(parts: seq<string>)

  /** A fetched page once scripts, styles, navigation and the other unwanted elements are
      gone: for each of `MainSelectors`, in order, what `select_one` finds; the body, if there
      is one; and the whole document. */
  datatype Page = Page(fetched: Fetched, mainMatches: seq<Option<Element>>, body: Option<Element>, doc: Element)

  const MainSelectors: seq<string> := [
    "main", "article", "[role=\"main\"]", ".content", ".main-content", "#content", "#main",
    ".post-content", ".entry-content", ".article-content"]

  /** The first main element found, in selector order: `if main_element:` holds for every
      match, an empty tag included. */
  function FirstFound(matches: seq<Option<Element>>): (r: Option<Element>)
    ensures r.Some? ==>
      exists i :: 0 <= i < |matches| && matches[i] == r
        && forall j :: 0 <= j < i ==> matches[j].None?
    ensures r.None? ==> forall i :: 0 <= i < |matches| ==> matches[i].None?
  {
    if matches == [] then None
    else if matches[0].Some? then matches[0]
    else
      var r := FirstFound(matches[1..]);
      assert forall i :: 0 <= i < |matches[1..]| ==> matches[1..][i] == matches[i + 1];
      r
  }

  /** The element whose text becomes the page content: the first main element found,
      else the body when there is one, else the whole document. */
  function MainElement(p: Page): Element {
    match FirstFound(p.mainMatches)
    case Some(e) => e
    case None => if p.body.Some? then p.body.value else p.doc
  }

  /** The selector loop of `extract_content`, with its `break`, and the fallback. */
  method ChooseMain(p: Page) returns (e: Element)
    ensures e == MainElement(p)
  {
    var main: Option<Element> := None;
    var i := 0;
    while i < |p.mainMatches|
      invariant 0 <= i <= |p.mainMatches|
      invariant FirstFound(p.mainMatches) == if main.Some? then main else FirstFound(p.mainMatches[i..])
    {
      assert p.mainMatches[i..][1..] == p.mainMatches[i + 1..];
      if p.mainMatches[i].Some? {
        main := p.mainMatches[i];
        break;
      }
      i := i + 1;
    }
    if main.None? {
      assert p.mainMatches[|p.mainMatches|..] == [];
      main := if p.body.Some? then p.body else Some(p.doc);
    }
    e := main.value;
  }

  /** `re.sub(pat, rep, s)` for a literal pattern: every occurrence, left to right,
      without overlaps. */
  function SubAll(s: string, pat: string, rep: string): (r: string)
    requires pat != []
    ensures pat[0] !in s ==> r == s
    decreases |s|
  {
    if s == [] then []
    else if OccursAt(s, pat, 0) then rep + SubAll(s[|pat|..], pat, rep)
    else [s[0]] + SubAll(s[1..], pat, rep)
  }

  lemma SubAllSkip(s: string, pat: string, rep: string)
    requires pat != [] && s != [] && !OccursAt(s, pat, 0)
    ensures SubAll(s, pat, rep) == [s[0]] + SubAll(s[1..], pat, rep)
  {
  }

  lemma SubAllHit(s: string, pat: string, rep: string)
    requires pat != [] && OccursAt(s, pat, 0)
    ensures SubAll(s, pat, rep) == rep + SubAll(s[|pat|..], pat, rep)
  {
  }

  /** Replacing whitespace by whitespace leaves the other characters alone. */
  lemma {:induction false} SubAllVisible(s: string, pat: string, rep: string)
    requires pat != [] && AllSpace(pat) && AllSpace(rep)
    ensures Visible(SubAll(s, pat, rep)) == Visible(s)
    decreases |s|
  {
    if s != [] {
      if OccursAt(s, pat, 0) {
        var rest := s[|pat|..];
        assert s == pat + rest;
        SubAllVisible(rest, pat, rep);
        VisibleOfSpace(pat);
        VisibleOfSpace(rep);
        VisibleAppend(pat, rest);
        VisibleAppend(rep, SubAll(rest, pat, rep));
      } else {
        assert s == [s[0]] + s[1..];
        SubAllVisible(s[1..], pat, rep);
        VisibleCons(s[0], s[1..]);
        VisibleCons(s[0], SubAll(s[1..], pat, rep));
      }
    }
  }

  /** No `x` directly followed by `y`. */
  predicate NoPair(s: string, x: char, y: char) {
    forall i :: 0 <= i < |s| - 1 ==> !(s[i] == x && s[i + 1] == y)
  }

  lemma NoPairCons(c: char, s: string, x: char, y: char)
    requires NoPair(s, x, y)
    requires s != [] && c == x ==> s[0] != y
    ensures NoPair([c] + s, x, y)
  {
    var t := [c] + s;
    forall i | 0 <= i < |t| - 1
      ensures !(t[i] == x && t[i + 1] == y)
    {
      if i > 0 {
        assert t[i] == s[i - 1] && t[i + 1] == s[i];
      }
    }
  }

  lemma NoPairSlice(s: string, i: nat, j: nat, x: char, y: char)
    requires i <= j <= |s| && NoPair(s, x, y)
    ensures NoPair(s[i..j], x, y)
  {
    forall k | 0 <= k < j - i - 1
      ensures !(s[i..j][k] == x && s[i..j][k + 1] == y)
    {
      assert s[i..j][k] == s[i + k] && s[i..j][k + 1] == s[i + k + 1];
    }
  }

  /** A two-character pattern occurs at the front exactly when the first two characters are it. */
  lemma OccursTwo(s: string, pat: string)
    requires |pat| == 2
    ensures OccursAt(s, pat, 0) <==> |s| >= 2 && s[0] == pat[0] && s[1] == pat[1]
  {
    if |s| >= 2 {
      assert s[0..2] == [s[0], s[1]];
      assert pat == [pat[0], pat[1]];
    }
  }

  /** `re.sub(r' {2,}', ' ', s)` leaves no two spaces in a row (and, in general, capping
      runs of `c` at one leaves no two `c` in a row). */
  lemma {:induction false} CapRunsOne(s: string, c: char)
    ensures NoPair(CapRuns(s, c, 1), c, c)
    decreases |s|
  {
    if s != [] {
      if s[0] == c {
        var rest := TrimStart(s, IsChar(c));
        assert IsChar(c)(s[0]);
        CapRunsOne(rest, c);
        CapRunsOneRun(s, c);
      } else {
        CapRunsOne(s[1..], c);
        NoPairCons(s[0], CapRuns(s[1..], c, 1), c, c);
      }
    }
  }

  lemma CapRunsOneRun(s: string, c: char)
    requires s != [] && s[0] == c
    requires NoPair(CapRuns(TrimStart(s, IsChar(c)), c, 1), c, c)
    ensures NoPair(CapRuns(s, c, 1), c, c)
  {
    var rest := TrimStart(s, IsChar(c));
    assert IsChar(c)(s[0]);
    assert rest == [] || rest[0] != c;
    assert (if |s| - |rest| > 1 then Repeat(c, 1) else s[..|s| - |rest|]) == [c];
    NoPairCons(c, CapRuns(rest, c, 1), c, c);
  }

  /** Replacing a pattern by text that starts with the same character keeps the first
      character. */
  lemma SubAllHead(s: string, pat: string, rep: string)
    requires pat != [] && rep != [] && rep[0] == pat[0] && s != []
    ensures SubAll(s, pat, rep) != [] && SubAll(s, pat, rep)[0] == s[0]
  {
    if OccursAt(s, pat, 0) {
      assert s[0] == s[0..|pat|][0];
    }
  }

  /** `re.sub(r'\n ', '\n', s)` on a text without two spaces in a row leaves neither two
      spaces in a row nor a space after a newline. */
  lemma {:induction false} CloseLineStarts(s: string)
    requires NoPair(s, ' ', ' ')
    ensures NoPair(SubAll(s, "\n ", "\n"), ' ', ' ') && NoPair(SubAll(s, "\n ", "\n"), '\n', ' ')
    decreases |s|
  {
    var pat := "\n ";
    OccursTwo(s, pat);
    if s != [] {
      var n := if OccursAt(s, pat, 0) then 2 else 1;
      var t := s[n..];
      NoPairSlice(s, n, |s|, ' ', ' ');
      CloseLineStarts(t);
      if t != [] {
        SubAllHead(t, pat, "\n");
        assert t[0] == s[n];
      }
      if n == 2 {
        SubAllHit(s, pat, "\n");
      } else {
        SubAllSkip(s, pat, "\n");
      }
      NoPairCons(s[0], SubAll(t, pat, "\n"), ' ', ' ');
      NoPairCons(s[0], SubAll(t, pat, "\n"), '\n', ' ');
    }
  }

  /** `re.sub(r' \n', '\n', s)` on a text with neither two spaces in a row nor a space
      after a newline also leaves no space before a newline. */
  lemma {:induction false} CloseLineEnds(s: string)
    requires NoPair(s, ' ', ' ') && NoPair(s, '\n', ' ')
    ensures var r := SubAll(s, " \n", "\n");
      NoPair(r, ' ', ' ') && NoPair(r, '\n', ' ') && NoPair(r, ' ', '\n')
      && (s != [] ==> r != [] && r[0] == if OccursAt(s, " \n", 0) then '\n' else s[0])
    decreases |s|
  {
    var pat := " \n";
    OccursTwo(s, pat);
    if s != [] {
      var hit := OccursAt(s, pat, 0);
      var n := if hit then 2 else 1;
      var t := s[n..];
      var c := if hit then '\n' else s[0];
      NoPairSlice(s, n, |s|, ' ', ' ');
      NoPairSlice(s, n, |s|, '\n', ' ');
      CloseLineEnds(t);
      OccursTwo(t, pat);
      if t != [] {
        assert t[0] == s[n];
      }
      if hit {
        SubAllHit(s, pat, "\n");
      } else {
        SubAllSkip(s, pat, "\n");
      }
      assert SubAll(s, pat, "\n") == [c] + SubAll(t, pat, "\n");
      NoPairCons(c, SubAll(t, pat, "\n"), ' ', ' ');
      NoPairCons(c, SubAll(t, pat, "\n"), '\n', ' ');
      NoPairCons(c, SubAll(t, pat, "\n"), ' ', '\n');
    }
  }

  /** Stripping takes a slice, so it keeps any pair out. */
  lemma StripKeepsNoPair(s: string, x: char, y: char)
    requires NoPair(s, x, y)
    ensures NoPair(Strip(s), x, y)
  {
    var a := TrimStart(s, PySpace);
    NoPairSlice(s, |s| - |a|, |s|, x, y);
    var b := TrimEnd(a, PySpace);
    NoPairSlice(a, 0, |b|, x, y);
  }

  /** None of the rewrites in `extract_text_from_soup` touches a non-whitespace
      character. */
  lemma SoupStepsVisible(j: string)
    ensures Visible(Strip(SubAll(SubAll(CapRuns(LimitNewlines(j), ' ', 1), "\n ", "\n"), " \n", "\n")))
            == Visible(j)
  {
    var t1 := CapRuns(LimitNewlines(j), ' ', 1);
    var t2 := SubAll(t1, "\n ", "\n");
    var t3 := SubAll(t2, " \n", "\n");
    assert PySpace('\n') && PySpace(' ');
    assert AllSpace("\n ") && AllSpace("\n") && AllSpace(" \n");
    CapRunsVisible(j, '\n', 2);
    CapRunsVisible(LimitNewlines(j), ' ', 1);
    SubAllVisible(t1, "\n ", "\n");
    SubAllVisible(t2, " \n", "\n");
    StripVisible(t3);
  }

  /** The text `extract_text_from_soup` returns: the pieces joined, newline runs limited,
      space runs squashed, the spaces next to newlines dropped, and the ends stripped. The
      result has no whitespace at its ends, no two spaces in a row, no space after a
      newline and none before one. (`if not element` never holds: the element is a tag
      or the document, and both are truthy.) */
  function SoupText(e: Element): (r: string)
    ensures Stripped(r)
    ensures NoPair(r, ' ', ' ') && NoPair(r, '\n', ' ') && NoPair(r, ' ', '\n')
    ensures Visible(r) == Visible(Join(e.parts, ""))
  {
    var t1 := CapRuns(LimitNewlines(Join(e.parts, "")), ' ', 1);
    CapRunsOne(LimitNewlines(Join(e.parts, "")), ' ');
    CloseLineStarts(t1);
    var t2 := SubAll(t1, "\n ", "\n");
    CloseLineEnds(t2);
    var t3 := SubAll(t2, " \n", "\n");
    StripKeepsNoPair(t3, ' ', ' ');
    StripKeepsNoPair(t3, '\n', ' ');
    StripKeepsNoPair(t3, ' ', '\n');
    SoupStepsVisible(Join(e.parts, ""));
    Strip(t3)
  }

  const ThreeGaps: string := "a\n \n \nb"
  const ThreeNewlines: string := "a\n\n\nb"

  lemma ThreeGapsUnlimited()
    ensures LimitNewlines(ThreeGaps) == ThreeGaps && CapRuns(ThreeGaps, ' ', 1) == ThreeGaps
  {
    assert NoTwoAdjacent(ThreeGaps, '\n') && NoTwoAdjacent(ThreeGaps, ' ');
    CapRunsFixed(ThreeGaps, '\n', 2);
    CapRunsFixed(ThreeGaps, ' ', 1);
  }

  lemma ThreeGapsClosed()
    ensures SubAll(ThreeGaps, "\n ", "\n") == ThreeNewlines
  {
    var pat := "\n ";
    var s0 := ThreeGaps;
    var s1 := s0[1..];
    var s2 := s1[2..];
    var s3 := s2[2..];
    var s4 := s3[1..];
    assert s1 == "\n \n \nb" && s2 == "\n \nb" && s3 == "\nb" && s4 == "b";
    OccursTwo(s0, pat);
    SubAllSkip(s0, pat, "\n");
    OccursTwo(s1, pat);
    SubAllHit(s1, pat, "\n");
    OccursTwo(s2, pat);
    SubAllHit(s2, pat, "\n");
    OccursTwo(s3, pat);
    SubAllSkip(s3, pat, "\n");
    assert SubAll(s4, pat, "\n") == s4;
  }

  lemma ThreeGapsSquashed()
    ensures SubAll(CapRuns(LimitNewlines(Join([ThreeGaps], "")), ' ', 1), "\n ", "\n") == ThreeNewlines
  {
    assert Join([ThreeGaps], "") == ThreeGaps;
    ThreeGapsUnlimited();
    ThreeGapsClosed();
  }

  lemma ThreeNewlinesKept()
    ensures Strip(SubAll(ThreeNewlines, " \n", "\n")) == ThreeNewlines
  {
    assert ' ' !in ThreeNewlines;
    assert Stripped(ThreeNewlines);
    TrimFixed(ThreeNewlines, PySpace);
  }

  /** The newline limit comes before the spaces between newlines are dropped, so a text
      can keep three newlines in a row; the final cleanup removes the empty lines. */
  lemma SoupTextKeepsThreeNewlines()
    ensures SoupText(Element([ThreeGaps])) == ThreeNewlines
  {
    ThreeGapsSquashed();
    ThreeNewlinesKept();
  }

  /** `extract_content`: the chosen element's text, cleaned with lines of at most two
      characters dropped. */
  function ExtractedContent(p: Page): string {
    Cleaned(SoupText(MainElement(p)), 2)
  }

  /** `clean_content` drops every empty line, so the content never holds two newlines in
      a row, whatever the extracted text kept. */
  lemma ExtractedContentNoBlankLine(p: Page)
    ensures NoBlankLine(ExtractedContent(p)) && Stripped(ExtractedContent(p))
  {
    if ExtractedContent(p) != "" {
      CleanedLinesShape(SoupText(MainElement(p)), 2);
    }
  }

  /** An empty tag matched by the first selector is still the main element: the content is
      then empty, whatever the body holds. */
  lemma EmptyMainElementChosen(p: Page)
    requires p.mainMatches != [] && p.mainMatches[0] == Some(Element([]))
    ensures MainElement(p) == Element([]) && ExtractedContent(p) == ""
  {
    assert Join([], "") == "";
    assert SoupText(Element([])) == "";
  }

  method ExtractContent(p: Page) returns (content: string)
    ensures content == ExtractedContent(p)
    ensures NoBlankLine(content) && Stripped(content)
  {
    var main := ChooseMain(p);
    content := CleanLines(SoupText(main), 2);
    ExtractedContentNoBlankLine(p);
  }

  class WebsiteSpider {
    var startUrls: seq<string>
    var pagesCrawled: nat
    var maxPages: int

    /** The spider for a start URL already normalised by `StartUrl`. */
    constructor(start: string, maxPages: int)
      ensures startUrls == [start] && pagesCrawled == 0 && this.maxPages == maxPages
    {
      startUrls := [start];
      pagesCrawled := 0;
      this.maxPages := maxPages;
    }

    /** `parse_page`: every call counts; once the count passes `maxPages` no item is yielded,
        otherwise the page's item with its extracted content. */
    method ParsePage(p: Page) returns (item: Option<Item>)
      modifies this
      ensures pagesCrawled == old(pagesCrawled) + 1
      ensures startUrls == old(startUrls) && maxPages == old(maxPages)
      ensures item.None? <==> pagesCrawled > maxPages
      ensures item.Some? ==> item.value == PageItem(p.fetched, ExtractedContent(p))
    {
      pagesCrawled := pagesCrawled + 1;
      if pagesCrawled > maxPages {
        return None;
      }
      var content := ExtractContent(p);
      item := Some(PageItem(p.fetched, content));
    }
  }

  /** `__init__`: a missing or empty URL raises before any spider exists; otherwise the
      spider starts at the normalised URL with nothing counted. */
  method NewSpider(url: Option<string>, maxPages: int) returns (r: Result<WebsiteSpider>)
    ensures r.Err? <==> !Truthy(url)
    ensures r.Err? ==> r.message == UrlRequiredMessage
    ensures r.Ok? ==>
      fresh(r.value) && r.value.startUrls == [StartUrl(url).value]
      && r.value.pagesCrawled == 0 && r.value.maxPages == maxPages
  {
    var start := StartUrl(url);
    if start.Err? {
      return Err(start.message);
    }
    var spider := new WebsiteSpider(start.value, maxPages);
    r := Ok(spider);
  }
}
