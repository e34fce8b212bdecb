/** The page items the two spiders yield and the two item pipelines collect
    (`ScrapedPageItem`), and the steps both pipelines share: ordering pages by
    (depth, path), rendering the non-blank ones and listing the e-mail addresses found. */
module ScrapedPages {
  import opened Base
  import opened Strings
  import opened PyText

  datatype Item = Item(url: string, path: string, content: string, depth: int, title: Option<string>, emails: seq<string>)

  /** Python's `a <= b` on strings: code point by code point, a prefix first. */
  predicate StrLe(a: string, b: string) {
    a == [] || (b != [] && (a[0] < b[0] || (a[0] == b[0] && StrLe(a[1..], b[1..]))))
  }

  lemma {:induction false} StrLeTotal(a: string, b: string)
    ensures StrLe(a, b) || StrLe(b, a)
  {
    if a != [] && b != [] && a[0] == b[0] {
      StrLeTotal(a[1..], b[1..]);
    }
  }

  lemma {:induction false} StrLeTrans(a: string, b: string, c: string)
    requires StrLe(a, b) && StrLe(b, c)
    ensures StrLe(a, c)
  {
    if a != [] && b != [] && c != [] && a[0] == b[0] && b[0] == c[0] {
      StrLeTrans(a[1..], b[1..], c[1..]);
    }
  }

  /** The sort key `(depth, path)` compared as a Python tuple. */
  predicate KeyLe(x: Item, y: Item) {
    x.depth < y.depth || (x.depth == y.depth && StrLe(x.path, y.path))
  }

  lemma KeyLeTotal(x: Item, y: Item)
    ensures KeyLe(x, y) || KeyLe(y, x)
  {
    StrLeTotal(x.path, y.path);
  }

  lemma KeyLeTrans(x: Item, y: Item, z: Item)
    requires KeyLe(x, y) && KeyLe(y, z)
    ensures KeyLe(x, z)
  {
    if x.depth == y.depth == z.depth {
      StrLeTrans(x.path, y.path, z.path);
    }
  }

  predicate SortedByKey(s: seq<Item>) {
    forall i, j :: 0 <= i < j < |s| ==> KeyLe(s[i], s[j])
  }

  /** Puts `x` after every element whose key is not greater, as a stable sort does with
      a later element. */
  function Insert(x: Item, t: seq<Item>): (r: seq<Item>)
    ensures multiset(r) == multiset(t) + multiset{x}
    ensures |r| == |t| + 1
  {
    if t == [] then [x]
    else if !KeyLe(t[0], x) then [x] + t
    else
      assert t == [t[0]] + t[1..];
      [t[0]] + Insert(x, t[1..])
  }

  lemma {:induction false} InsertSorted(x: Item, t: seq<Item>)
    requires SortedByKey(t)
    ensures SortedByKey(Insert(x, t))
  {
    if t != [] {
      if !KeyLe(t[0], x) {
        KeyLeTotal(t[0], x);
        forall j | 0 < j < |t| ensures KeyLe(x, t[j]) {
          KeyLeTrans(x, t[0], t[j]);
        }
      } else {
        assert SortedByKey(t[1..]) by {
          forall i, j | 0 <= i < j < |t[1..]| ensures KeyLe(t[1..][i], t[1..][j]) {
            assert t[1..][i] == t[i + 1] && t[1..][j] == t[j + 1];
          }
        }
        InsertSorted(x, t[1..]);
        var r := Insert(x, t[1..]);
        forall j | 0 <= j < |r| ensures KeyLe(t[0], r[j]) {
          assert r[j] in multiset(r);
          assert r[j] == x || r[j] in multiset(t[1..]);
          if r[j] != x {
            var k :| 0 <= k < |t[1..]| && t[1..][k] == r[j];
            assert t[k + 1] == r[j];
          }
        }
      }
    }
  }

  /** `sorted(items, key=lambda x: (x.get('depth', 0), x.get('path', '')))`. */
  function SortPages(s: seq<Item>): (r: seq<Item>)
    ensures multiset(r) == multiset(s)
    ensures |r| == |s|
  {
    if s == [] then []
    else
      assert s == s[..|s| - 1] + [s[|s| - 1]];
      Insert(s[|s| - 1], SortPages(s[..|s| - 1]))
  }

  /** The order is by (depth, path). */
  lemma {:induction false} SortPagesSorted(s: seq<Item>)
    ensures SortedByKey(SortPages(s))
  {
    if s != [] {
      SortPagesSorted(s[..|s| - 1]);
      InsertSorted(s[|s| - 1], SortPages(s[..|s| - 1]));
    }
  }

  /** A page is rendered only when its content is not blank: `content.strip()` is empty
      exactly when the content is all whitespace (`StripEmpty`). */
  predicate Blank(it: Item) {
    AllSpace(it.content)
  }

  /** `f"Page {path}\n\n{content}"`. */
  function FormatPage(it: Item): (p: string)
    ensures StartsWith(p, "Page ")
  {
    "Page " + it.path + "\n\n" + it.content
  }

  /** The loop that renders each non-blank page, in the given order. */
  function FormatKept(s: seq<Item>): (r: seq<string>)
    ensures |r| <= |s|
  {
    if s == [] then []
    else FormatKept(s[..|s| - 1]) + (if Blank(s[|s| - 1]) then [] else [FormatPage(s[|s| - 1])])
  }

  /** A blank item leaves out its page. */
  lemma {:induction false} FormatKeptShorter(s: seq<Item>, k: nat)
    requires k < |s| && Blank(s[k])
    ensures |FormatKept(s)| < |s|
  {
    if k < |s| - 1 {
      FormatKeptShorter(s[..|s| - 1], k);
    }
  }

  /** Nothing is rendered exactly when every item is blank. */
  lemma {:induction false} FormatKeptEmpty(s: seq<Item>)
    ensures FormatKept(s) == [] <==> forall k :: 0 <= k < |s| ==> Blank(s[k])
  {
    if s != [] {
      var init := s[..|s| - 1];
      FormatKeptEmpty(init);
      assert forall k :: 0 <= k < |init| ==> init[k] == s[k];
    }
  }

  /** Every page rendered is the page of a non-blank item. */
  lemma {:induction false} FormatKeptSound(s: seq<Item>)
    ensures forall p :: p in FormatKept(s) ==> exists it :: it in s && !Blank(it) && p == FormatPage(it)
  {
    if s != [] {
      var init := s[..|s| - 1];
      FormatKeptSound(init);
      assert forall it :: it in init ==> it in s;
    }
  }

  /** Every non-blank item has its page rendered. */
  lemma {:induction false} FormatKeptComplete(s: seq<Item>)
    ensures forall it :: it in s && !Blank(it) ==> FormatPage(it) in FormatKept(s)
  {
    if s != [] {
      var init := s[..|s| - 1];
      FormatKeptComplete(init);
      assert s == init + [s[|s| - 1]];
      assert forall it :: it in s ==> it in init || it == s[|s| - 1];
    }
  }

  /** The pages both pipelines render: sorted, then each non-blank one formatted. */
  function Rendered(items: seq<Item>): seq<string> {
    FormatKept(SortPages(items))
  }

  /** `format_content_array` / the body of `format_scraped_content`: sort, then render each
      non-blank page in a loop. */
  method RenderPages(items: seq<Item>) returns (pages: seq<string>)
    ensures pages == Rendered(items)
  {
    var sorted := SortPages(items);
    pages := [];
    var i := 0;
    while i < |sorted|
      invariant 0 <= i <= |sorted|
      invariant pages == FormatKept(sorted[..i])
    {
      PrefixOfPrefix(sorted, i);
      StripEmpty(sorted[i].content);
      if Strip(sorted[i].content) != "" {
        pages := pages + [FormatPage(sorted[i])];
      }
      i := i + 1;
    }
    FullPrefix(sorted);
  }

  /** Sorting keeps exactly the same items. */
  lemma SortPagesSameItems(items: seq<Item>)
    ensures forall it :: it in items <==> it in SortPages(items)
  {
    var s := SortPages(items);
    forall it ensures it in items <==> it in s {
      assert it in items <==> it in multiset(items);
      assert it in s <==> it in multiset(s);
    }
  }

  /** No more pages than items, and fewer when any item is blank. */
  lemma RenderedCount(items: seq<Item>)
    ensures |Rendered(items)| <= |items|
    ensures (exists k :: 0 <= k < |items| && Blank(items[k])) ==> |Rendered(items)| < |items|
  {
    if exists k :: 0 <= k < |items| && Blank(items[k]) {
      SortPagesSameItems(items);
      var s := SortPages(items);
      var k :| 0 <= k < |items| && Blank(items[k]);
      assert items[k] in s;
      var j :| 0 <= j < |s| && s[j] == items[k];
      FormatKeptShorter(s, j);
    }
  }

  /** No pages at all exactly when every item is blank (or there are none). */
  lemma RenderedEmpty(items: seq<Item>)
    ensures Rendered(items) == [] <==> forall k :: 0 <= k < |items| ==> Blank(items[k])
  {
    SortPagesSameItems(items);
    var s := SortPages(items);
    FormatKeptEmpty(s);
    if forall k :: 0 <= k < |items| ==> Blank(items[k]) {
      forall k | 0 <= k < |s| ensures Blank(s[k]) {
        assert s[k] in items;
      }
    } else {
      var k :| 0 <= k < |items| && !Blank(items[k]);
      assert items[k] in s;
    }
  }

  /** The pages are exactly "Page <path>", a blank line and the content, one for each
      non-blank item. */
  lemma RenderedPages(items: seq<Item>)
    ensures forall p :: p in Rendered(items) ==> exists it :: it in items && !Blank(it) && p == FormatPage(it)
    ensures forall it :: it in items && !Blank(it) ==> FormatPage(it) in Rendered(items)
  {
    SortPagesSameItems(items);
    FormatKeptSound(SortPages(items));
    FormatKeptComplete(SortPages(items));
  }

  /** `extract_emails`: no addresses for empty content; otherwise the matches of the two
      e-mail patterns (`found`, computed by the regex engine), each listed once. */
  function ExtractEmails(text: string, found: string -> seq<string>): (r: seq<string>)
    ensures NoDuplicates(r)
    ensures text == "" ==> r == []
    ensures text != "" ==> forall e :: e in r <==> e in found(text)
  {
    if text == "" then [] else Dedup(found(text))
  }

  /** `set(xs)`. */
  function AsSet(xs: seq<string>): (r: set<string>)
    ensures forall e :: e in r <==> e in xs
  {
    set e | e in xs
  }

  /** The union of every item's addresses. */
  function EmailsOf(items: seq<Item>): (es: set<string>)
    ensures forall e :: e in es <==> exists k :: 0 <= k < |items| && e in items[k].emails
  {
    if items == [] then {}
    else
      var init := items[..|items| - 1];
      assert forall k :: 0 <= k < |init| ==> init[k] == items[k];
      EmailsOf(init) + AsSet(items[|items| - 1].emails)
  }

  lemma EmailsOfAppend(items: seq<Item>, it: Item)
    ensures EmailsOf(items + [it]) == EmailsOf(items) + AsSet(it.emails)
  {
    assert (items + [it])[..|items|] == items;
  }

  // ---------------------------------------------------------------------------------
  // What both spiders do with a URL and a fetched page.

  const UrlRequiredMessage: string := "URL parameter is required"

  /** `__init__`: a missing or empty URL raises; one that starts with neither `http://`
      nor `https://` gets `https://` in front. */
  function StartUrl(url: Option<string>): (r: Result<string>)
    ensures r.Err? <==> !Truthy(url)
    ensures r.Err? ==> r.message == UrlRequiredMessage
    ensures r.Ok? ==> StartsWith(r.value, "http://") || StartsWith(r.value, "https://")
    ensures r.Ok? && (StartsWith(url.value, "http://") || StartsWith(url.value, "https://")) ==> r.value == url.value
    ensures r.Ok? && !(StartsWith(url.value, "http://") || StartsWith(url.value, "https://")) ==>
      r.value == "https://" + url.value
  {
    if !Truthy(url) then Err(UrlRequiredMessage)
    else if StartsWith(url.value, "http://") || StartsWith(url.value, "https://") then Ok(url.value)
    else
      assert ("https://" + url.value)[..8] == "https://";
      Ok("https://" + url.value)
  }

  /** Normalising a normalised URL changes nothing. */
  lemma StartUrlTwice(url: string)
    requires url != ""
    ensures StartUrl(Some(StartUrl(Some(url)).value)) == StartUrl(Some(url))
  {
  }

  /** What `parse_page` reads from a response: its URL, the path `urlparse` finds in it,
      the crawl depth recorded in its meta data and the text of its `<title>`. */
  datatype Fetched = Fetched(url: string, urlPath: string, depth: Option<int>, title: Option<string>)

  /** The item `parse_page` yields for a page with the given extracted content: an empty
      path becomes "/", a missing depth 0, and a present title is stripped. */
  function PageItem(f: Fetched, content: string): (it: Item)
    ensures it.url == f.url && it.content == content && it.emails == []
    ensures it.path == if f.urlPath == "" then "/" else f.urlPath
    ensures it.depth == if f.depth.Some? then f.depth.value else 0
    ensures it.title.Some? <==> f.title.Some?
    ensures Truthy(f.title) ==> it.title == Some(Strip(f.title.value))
    ensures f.title == Some("") ==> it.title == Some("")
  {
    var title := if Truthy(f.title) then Some(Strip(f.title.value)) else f.title;
    Item(f.url, if f.urlPath == "" then "/" else f.urlPath, content, f.depth.GetOr(0), title, [])
  }
}
