/** The item pipeline of the command-line scraper (`scripts/scraper/scraper/pipelines.py`):
    it collects every page it is given (no URL check, no ASCII mapping), cleans the text,
    gathers the e-mail addresses and renders all pages as one text. */
module ScriptsPipeline {
  import opened Base
  import opened Strings
  import opened PyText
  import opened ScrapedPages

  const PageSeparator: string := "\n\n---\n\n"

  /** What `process_item` stores for a page: the content cleaned when it is not empty,
      and the addresses found in it. */
  function Processed(it: Item, found: string -> seq<string>): (r: Item)
    ensures r.url == it.url && r.path == it.path && r.depth == it.depth && r.title == it.title
    ensures it.content != "" ==> r.content == Cleaned(it.content, 0)
    ensures it.content == "" ==> r.content == "" && r.emails == []
    ensures r.emails == ExtractEmails(r.content, found) && NoDuplicates(r.emails)
  {
    var c := if it.content != "" then Cleaned(it.content, 0) else it.content;
    it.(content := c, emails := ExtractEmails(c, found))
  }

  /** The text `format_scraped_content` renders for the collected pages. */
  function ScrapedText(items: seq<Item>): string {
    if items == [] then "" else Join(Rendered(items), PageSeparator)
  }

  /** The rendered text is empty exactly when no page has non-blank content; otherwise it
      starts with the header of a page. */
  lemma ScrapedTextEmpty(items: seq<Item>)
    ensures ScrapedText(items) == "" <==> forall k :: 0 <= k < |items| ==> Blank(items[k])
    ensures ScrapedText(items) != "" ==> StartsWith(ScrapedText(items), "Page ")
  {
    RenderedEmpty(items);
    if items != [] && Rendered(items) != [] {
      var pages := Rendered(items);
      RenderedPages(items);
      assert pages[0] in pages;
      var it :| it in items && !Blank(it) && pages[0] == FormatPage(it);
      JoinStartsWith(pages, PageSeparator, "Page ");
    }
  }

  /** A join whose first part starts with `pre` starts with `pre`. */
  lemma JoinStartsWith(parts: seq<string>, sep: string, pre: string)
    requires |parts| >= 1 && StartsWith(parts[0], pre)
    ensures StartsWith(Join(parts, sep), pre)
  {
    if |parts| > 1 {
      var j := Join(parts, sep);
      assert j == parts[0] + sep + Join(parts[1..], sep);
      assert j[..|pre|] == parts[0][..|pre|];
    }
  }

  /** The summary `close_spider` prints. */
  datatype Summary = Summary(success: bool, content: string, emails: set<string>, links: seq<string>, pagesVisited: nat)

  class ScrapedDataPipeline {
    var items: seq<Item>
    var allEmails: set<string>

    /** The address set is the union of the items' addresses. */
    predicate Valid()
      reads this
    {
      allEmails == EmailsOf(items)
    }

    constructor()
      ensures Valid() && items == [] && allEmails == {}
    {
      items := [];
      allEmails := {};
    }

    /** `process_item`: every page is cleaned and collected, a repeated URL included. */
    method ProcessItem(it: Item, found: string -> seq<string>) returns (out: Item)
      requires Valid()
      modifies this
      ensures Valid()
      ensures out == Processed(it, found)
      ensures items == old(items) + [out] && allEmails == old(allEmails) + AsSet(out.emails)
    {
      var content := it.content;
      if content != "" {
        content := CleanLines(content, 0);
      }
      var emails := ExtractEmails(content, found);
      out := it.(content := content, emails := emails);
      EmailsOfAppend(items, out);
      allEmails := allEmails + AsSet(emails);
      items := items + [out];
    }

    /** `format_scraped_content`. */
    method FormatScrapedContent() returns (text: string)
      ensures text == ScrapedText(items)
    {
      if items == [] {
        return "";
      }
      var pages := RenderPages(items);
      text := Join(pages, PageSeparator);
    }

    /** `close_spider`: the rendered text, every address found, no links, and the number
        of pages collected. */
    method CloseSpider() returns (s: Summary)
      ensures s == Summary(true, ScrapedText(items), allEmails, [], |items|)
    {
      var content := FormatScrapedContent();
      s := Summary(true, content, allEmails, [], |items|);
    }
  }
}
