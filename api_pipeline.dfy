/** The item pipeline of the scraper service (`scraper-api/scraper/pipelines.py`): it
    skips pages whose URL it has seen, cleans each page's text, maps typographic
    characters to ASCII, collects the e-mail addresses and renders the crawl summary. */
module ApiPipeline {
  import opened Base
  import opened Strings
  import opened PyText
  import opened ScrapedPages

  /** `text.replace(c, rep)` for a one-character pattern: every occurrence. */
  function ReplaceChar(s: string, c: char, rep: string): (r: string)
    ensures c !in s ==> r == s
  {
    if s == [] then [] else (if s[0] == c then rep else [s[0]]) + ReplaceChar(s[1..], c, rep)
  }

  lemma {:induction false} ReplaceCharConcat(a: string, b: string, c: char, rep: string)
    ensures ReplaceChar(a + b, c, rep) == ReplaceChar(a, c, rep) + ReplaceChar(b, c, rep)
  {
    if a != [] {
      assert (a + b)[1..] == a[1..] + b;
      ReplaceCharConcat(a[1..], b, c, rep);
    } else {
      assert a + b == b;
    }
  }

  /** The replacement table, in the order the loop applies it. */
  const Replacements: seq<(char, string)> := [
    ('\U{2022}', "*"), ('\U{2019}', "'"), ('\U{2018}', "'"), ('\U{201C}', "\""), ('\U{201D}', "\""),
    ('\U{2013}', "-"), ('\U{2014}', "--"), ('\U{2026}', "..."), ('\U{00A0}', " "), ('\U{2192}', "->"),
    ('\U{2190}', "<-")]

  /** The loop `for unicode_char, ascii_char in replacements.items()`, one entry at a time. */
  function ApplyTable(s: string, table: seq<(char, string)>): string
    decreases |table|
  {
    if table == [] then s else ApplyTable(ReplaceChar(s, table[0].0, table[0].1), table[1..])
  }

  lemma {:induction false} ApplyTableConcat(a: string, b: string, table: seq<(char, string)>)
    ensures ApplyTable(a + b, table) == ApplyTable(a, table) + ApplyTable(b, table)
    decreases |table|
  {
    if table != [] {
      ReplaceCharConcat(a, b, table[0].0, table[0].1);
      ApplyTableConcat(ReplaceChar(a, table[0].0, table[0].1), ReplaceChar(b, table[0].0, table[0].1), table[1..]);
    }
  }

  /** Every key is outside ASCII and every replacement inside it, so no replacement is
      touched by a later entry. */
  predicate AsciiTable(table: seq<(char, string)>) {
    forall i :: 0 <= i < |table| ==> table[i].0 as int >= 128 && forall k :: 0 <= k < |table[i].1| ==> table[i].1[k] as int < 128
  }

  lemma TableIsAscii()
    ensures AsciiTable(Replacements)
  {
  }

  /** The text one character stands for under the table: the first entry's replacement,
      or the character itself. */
  function TableLookup(table: seq<(char, string)>, c: char): string {
    if table == [] then [c] else if table[0].0 == c then table[0].1 else TableLookup(table[1..], c)
  }

  /** ASCII text passes through the table unchanged. */
  lemma {:induction false} ApplyTableAscii(s: string, table: seq<(char, string)>)
    requires AsciiTable(table)
    requires forall k :: 0 <= k < |s| ==> s[k] as int < 128
    ensures ApplyTable(s, table) == s
  {
    if table != [] {
      assert table[0].0 !in s;
      assert AsciiTable(table[1..]) by {
        forall i | 0 <= i < |table[1..]| ensures table[1..][i] == table[i + 1] {
        }
      }
      ApplyTableAscii(s, table[1..]);
    }
  }

  lemma {:induction false} ApplyTableChar(c: char, table: seq<(char, string)>)
    requires AsciiTable(table)
    ensures ApplyTable([c], table) == TableLookup(table, c)
  {
    if table != [] {
      assert AsciiTable(table[1..]) by {
        forall i | 0 <= i < |table[1..]| ensures table[1..][i] == table[i + 1] {
        }
      }
      assert ReplaceChar([c], table[0].0, table[0].1) == (if c == table[0].0 then table[0].1 else [c]) by {
        assert [c][1..] == [];
      }
      if c == table[0].0 {
        ApplyTableAscii(table[0].1, table[1..]);
      } else {
        ApplyTableChar(c, table[1..]);
      }
    }
  }

  /** Each character replaced by what the table gives it, in one pass. */
  function Translate(s: string, table: seq<(char, string)>): string {
    if s == [] then [] else TableLookup(table, s[0]) + Translate(s[1..], table)
  }

  /** Applying the table entry by entry is the one-pass translation: each listed
      character becomes its ASCII text and every other character stays. */
  lemma {:induction false} ApplyTableTranslates(s: string, table: seq<(char, string)>)
    requires AsciiTable(table)
    ensures ApplyTable(s, table) == Translate(s, table)
  {
    if s != [] {
      assert s == [s[0]] + s[1..];
      ApplyTableConcat([s[0]], s[1..], table);
      ApplyTableChar(s[0], table);
      ApplyTableTranslates(s[1..], table);
      calc {
        ApplyTable(s, table);
        ApplyTable([s[0]] + s[1..], table);
        ApplyTable([s[0]], table) + ApplyTable(s[1..], table);
        TableLookup(table, s[0]) + Translate(s[1..], table);
      }
    } else {
      ApplyTableAscii(s, table);
    }
  }

  /** `c for c in text if ord(c) < 128 or c in '\n\r\t'`. */
  predicate Kept(c: char) {
    c as int < 128 || c in "\n\r\t"
  }

  /** `handle_unicode` as a function: replacement table, NFKD (given as `nfkd`, the
      library's normalisation), then only the ASCII characters. */
  function Ascii(text: string, nfkd: string -> string): (r: string)
    ensures forall k :: 0 <= k < |r| ==> r[k] as int < 128
  {
    if text == "" then "" else Filter(nfkd(ApplyTable(text, Replacements)), Kept)
  }

  /** `handle_unicode`. */
  method HandleUnicode(text: string, nfkd: string -> string) returns (r: string)
    ensures r == Ascii(text, nfkd)
  {
    if text == "" {
      return "";
    }
    var t := text;
    var i := 0;
    while i < |Replacements|
      invariant 0 <= i <= |Replacements|
      invariant ApplyTable(t, Replacements[i..]) == ApplyTable(text, Replacements)
    {
      assert Replacements[i..][1..] == Replacements[i + 1..];
      t := ReplaceChar(t, Replacements[i].0, Replacements[i].1);
      i := i + 1;
    }
    r := Filter(nfkd(t), Kept);
  }

  /** The table step of `handle_unicode` is the one-pass translation. */
  lemma AsciiTranslates(text: string, nfkd: string -> string)
    requires text != ""
    ensures Ascii(text, nfkd) == Filter(nfkd(Translate(text, Replacements)), Kept)
  {
    TableIsAscii();
    ApplyTableTranslates(text, Replacements);
  }

  /** What `process_item` stores for a page it has not seen: the content cleaned and
      made ASCII when it is not empty, and the addresses found in it. */
  function Processed(it: Item, found: string -> seq<string>, nfkd: string -> string): (r: Item)
    ensures r.url == it.url && r.path == it.path && r.depth == it.depth && r.title == it.title
    ensures it.content != "" ==> r.content == Ascii(Cleaned(it.content, 0), nfkd)
    ensures forall k :: 0 <= k < |r.content| ==> r.content[k] as int < 128
    ensures it.content == "" ==> r.content == "" && r.emails == []
    ensures r.emails == ExtractEmails(r.content, found) && NoDuplicates(r.emails)
  {
    var c := if it.content != "" then Ascii(Cleaned(it.content, 0), nfkd) else it.content;
    it.(content := c, emails := ExtractEmails(c, found))
  }

  /** The URLs of the collected items. */
  function UrlsOf(items: seq<Item>): (r: set<string>)
    ensures forall u :: u in r <==> exists k :: 0 <= k < |items| && items[k].url == u
  {
    set k | 0 <= k < |items| :: items[k].url
  }

  predicate DistinctUrls(items: seq<Item>) {
    forall i, j :: 0 <= i < j < |items| ==> items[i].url != items[j].url
  }

  /** The summary `close_spider` prints. */
  datatype Summary = Summary(success: bool, content: seq<string>, emails: set<string>, links: seq<string>, pagesVisited: nat)

  class ScrapedDataPipeline {
    var items: seq<Item>
    var allEmails: set<string>
    var seenUrls: set<string>

    /** The seen URLs are those of the collected items, each collected once, and the
        address set is the union of the items' addresses. */
    predicate Valid()
      reads this
    {
      seenUrls == UrlsOf(items) && DistinctUrls(items) && allEmails == EmailsOf(items)
    }

    constructor()
      ensures Valid() && items == [] && allEmails == {} && seenUrls == {}
    {
      items := [];
      allEmails := {};
      seenUrls := {};
    }

    /** `process_item`: a page whose URL was seen is handed back as it is and changes
        nothing; any other is cleaned, collected and handed back cleaned. */
    method ProcessItem(it: Item, found: string -> seq<string>, nfkd: string -> string) returns (out: Item)
      requires Valid()
      modifies this
      ensures Valid()
      ensures it.url in old(seenUrls) ==>
        out == it && items == old(items) && allEmails == old(allEmails) && seenUrls == old(seenUrls)
      ensures it.url !in old(seenUrls) ==>
        out == Processed(it, found, nfkd) && items == old(items) + [out]
        && seenUrls == old(seenUrls) + {it.url} && allEmails == old(allEmails) + AsSet(out.emails)
    {
      if it.url in seenUrls {
        return it;
      }
      seenUrls := seenUrls + {it.url};
      var content := it.content;
      if content != "" {
        content := CleanLines(content, 0);
        content := HandleUnicode(content, nfkd);
      }
      var emails := ExtractEmails(content, found);
      out := it.(content := content, emails := emails);
      assert out == Processed(it, found, nfkd);
      CollectKeepsInvariant(items, old(seenUrls), allEmails, out);
      allEmails := allEmails + AsSet(emails);
      items := items + [out];
    }

    /** `format_content_array`. */
    method FormatContentArray() returns (pages: seq<string>)
      ensures pages == Rendered(items)
    {
      if items == [] {
        return [];
      }
      pages := RenderPages(items);
    }

    /** `close_spider`: the rendered pages, every address found, no links, and the
        number of pages collected (blank pages included). */
    method CloseSpider() returns (s: Summary)
      ensures s == Summary(true, Rendered(items), allEmails, [], |items|)
    {
      var content := FormatContentArray();
      s := Summary(true, content, allEmails, [], |items|);
    }
  }

  /** Collecting a page with a new URL keeps the seen set equal to the collected URLs,
      each URL once, and the address set equal to the union of the items' addresses. */
  lemma CollectKeepsInvariant(items: seq<Item>, seen: set<string>, emails: set<string>, out: Item)
    requires seen == UrlsOf(items) && DistinctUrls(items) && emails == EmailsOf(items)
    requires out.url !in seen
    ensures UrlsOf(items + [out]) == seen + {out.url}
    ensures DistinctUrls(items + [out])
    ensures EmailsOf(items + [out]) == emails + AsSet(out.emails)
  {
    UrlsOfAppend(items, out);
    DistinctUrlsAppend(items, out);
    EmailsOfAppend(items, out);
  }

  lemma UrlsOfAppend(items: seq<Item>, out: Item)
    ensures UrlsOf(items + [out]) == UrlsOf(items) + {out.url}
  {
    var s := items + [out];
    assert s[|items|] == out;
    assert forall k :: 0 <= k < |items| ==> s[k] == items[k];
  }

  lemma DistinctUrlsAppend(items: seq<Item>, out: Item)
    requires DistinctUrls(items) && out.url !in UrlsOf(items)
    ensures DistinctUrls(items + [out])
  {
    var s := items + [out];
    assert s[|items|] == out;
    assert forall k :: 0 <= k < |items| ==> s[k] == items[k];
  }
}
