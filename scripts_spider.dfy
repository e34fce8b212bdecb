/** The crawler of the command-line scraper (`scripts/scraper/scraper/spiders/website_spider.py`):
    the start URL, the choice of the first main area with substantial text, the body
    fallback, the line-structure rule for contact details, and the final cleanup. */
module ScriptsSpider {
  import opened Base
  import opened Strings
  import opened PyText
  import opened ScrapedPages

  /** One element a selector matched, given by its `::text` nodes in document order. */
  datatype Node = Node(texts: seq<string>)

  /** A fetched page: for each main selector, in order, the elements it matches (an empty
      list when none); the HTML of the first body, if any; and the body elements. */
  datatype Page = Page(fetched: Fetched, selected: seq<seq<Node>>, bodyHtml: Option<string>, body: seq<Node>)

  /** `[t.strip() for t in element_text if t.strip()]`. */
  function KeptTexts(texts: seq<string>): (r: seq<string>)
    ensures forall k :: 0 <= k < |r| ==> r[k] != "" && Stripped(r[k])
    ensures |r| <= |texts|
  {
    if texts == [] then []
    else (if Strip(texts[0]) != "" then [Strip(texts[0])] else []) + KeptTexts(texts[1..])
  }

  predicate NonEmptyText(t: string) {
    t != ""
  }

  /** The kept texts are exactly the stripped text nodes that are not empty, in order. */
  lemma {:induction false} KeptTextsFilter(texts: seq<string>)
    ensures KeptTexts(texts) == Filter(Map(texts, Strip), NonEmptyText)
  {
    if texts != [] {
      var m := Map(texts, Strip);
      assert m[1..] == Map(texts[1..], Strip);
      KeptTextsFilter(texts[1..]);
    }
  }

  /** The text of one element: its kept text nodes joined by newlines when the
      contact-detail patterns (`contact`, the regex search) match their space-joined form,
      and by spaces otherwise. */
  function ElementText(n: Node, contact: string -> bool): string {
    var kept := KeptTexts(n.texts);
    if contact(Join(kept, " ")) then Join(kept, "\n") else Join(kept, " ")
  }

  /** The per-element texts, in order. */
  function ElementTexts(ns: seq<Node>, contact: string -> bool): (r: seq<string>)
    ensures |r| == |ns|
    ensures forall k :: 0 <= k < |ns| ==> r[k] == ElementText(ns[k], contact)
  {
    if ns == [] then []
    else
      var init := ns[..|ns| - 1];
      assert forall k :: 0 <= k < |init| ==> init[k] == ns[k];
      ElementTexts(init, contact) + [ElementText(ns[|ns| - 1], contact)]
  }

  /** `extract_text_with_structure` as a function: the element texts joined by newlines. */
  function StructuredText(ns: seq<Node>, contact: string -> bool): string {
    if ns == [] then "" else Join(ElementTexts(ns, contact), "\n")
  }

  /** `extract_text_with_structure`. */
  method ExtractTextWithStructure(ns: seq<Node>, contact: string -> bool) returns (text: string)
    ensures text == StructuredText(ns, contact)
  {
    if ns == [] {
      return "";
    }
    var parts: seq<string> := [];
    var i := 0;
    while i < |ns|
      invariant 0 <= i <= |ns|
      invariant parts == ElementTexts(ns[..i], contact)
    {
      PrefixOfPrefix(ns, i);
      var kept := KeptTexts(ns[i].texts);
      var cleaned := Join(kept, " ");
      if contact(cleaned) {
        parts := parts + [Join(kept, "\n")];
      } else {
        parts := parts + [cleaned];
      }
      i := i + 1;
    }
    FullPrefix(ns);
    text := Join(parts, "\n");
  }

  /** With contact details, each kept text node that holds no newline of its own becomes
      a line of its own. */
  lemma ContactNodesAreLines(n: Node, contact: string -> bool)
    requires contact(Join(KeptTexts(n.texts), " ")) && KeptTexts(n.texts) != []
    requires forall k :: 0 <= k < |KeptTexts(n.texts)| ==> '\n' !in KeptTexts(n.texts)[k]
    ensures Split(ElementText(n, contact), '\n') == KeptTexts(n.texts)
  {
    SplitJoin(KeptTexts(n.texts), '\n');
  }

  /** `if text and len(text.strip()) > 50`. */
  predicate Substantial(t: string) {
    t != "" && |Strip(t)| > 50
  }

  /** `if elements:` followed by the length test on the elements' text. */
  predicate Qualifies(ns: seq<Node>, contact: string -> bool) {
    ns != [] && Substantial(StructuredText(ns, contact))
  }

  /** The first main selector that matched something whose text is substantial. */
  function FirstSubstantial(sel: seq<seq<Node>>, contact: string -> bool): (r: Option<string>)
    ensures r.Some? ==>
      exists i :: 0 <= i < |sel| && Qualifies(sel[i], contact)
        && r.value == StructuredText(sel[i], contact)
        && forall j :: 0 <= j < i ==> !Qualifies(sel[j], contact)
    ensures r.None? ==> forall i :: 0 <= i < |sel| ==> !Qualifies(sel[i], contact)
  {
    match FirstIndex(sel, ns => Qualifies(ns, contact))
    case Some(i) => Some(StructuredText(sel[i], contact))
    case None => None
  }

  /** `content_parts` after both stages: the first substantial main text; failing that
      the text of the whole body (nothing is filtered out of it: the loop over the
      unwanted selectors does nothing) when the page has a body and that text is
      not empty; otherwise nothing. */
  function ContentParts(p: Page, contact: string -> bool): (parts: seq<string>)
    ensures |parts| <= 1
  {
    match FirstSubstantial(p.selected, contact)
    case Some(t) => [t]
    case None =>
      if Truthy(p.bodyHtml) && StructuredText(p.body, contact) != "" then [StructuredText(p.body, contact)] else []
  }

  /** `extract_content` as a function. */
  function ExtractedContent(p: Page, contact: string -> bool): string {
    Cleaned(Join(ContentParts(p, contact), "\n\n"), 2)
  }

  /** `extract_content`: the selector loop with its `break`, the body fallback, the join
      and the cleanup. */
  method ExtractContent(p: Page, contact: string -> bool) returns (content: string)
    ensures content == ExtractedContent(p, contact)
  {
    var parts: seq<string> := [];
    var i := 0;
    while i < |p.selected|
      invariant 0 <= i <= |p.selected|
      invariant parts == [] ==> NoneQualifies(p.selected, contact, i)
      invariant |parts| <= 1
      invariant forall t :: t in parts ==> FirstSubstantial(p.selected, contact) == Some(t)
    {
      if p.selected[i] != [] {
        var text := ExtractTextWithStructure(p.selected[i], contact);
        if text != "" && |Strip(text)| > 50 {
          FirstSubstantialAt(p.selected, contact, i);
          parts := parts + [text];
          break;
        }
        assert !Substantial(text);
      }
      NoneQualifiesStep(p.selected, contact, i);
      i := i + 1;
    }
    if parts == [] {
      assert FirstSubstantial(p.selected, contact).None?;
      if Truthy(p.bodyHtml) {
        var text := ExtractTextWithStructure(p.body, contact);
        if text != "" {
          parts := parts + [text];
        }
      }
    }
    assert parts == ContentParts(p, contact);
    content := CleanLines(Join(parts, "\n\n"), 2);
  }

  /** When no main area has substantial text, the content is the cleaned text of the
      whole body, or nothing when there is no body. */
  lemma BodyFallback(p: Page, contact: string -> bool)
    requires forall i :: 0 <= i < |p.selected| ==> !Qualifies(p.selected[i], contact)
    ensures Truthy(p.bodyHtml) ==> ExtractedContent(p, contact) == Cleaned(StructuredText(p.body, contact), 2)
    ensures !Truthy(p.bodyHtml) ==> ExtractedContent(p, contact) == ""
  {
    assert FirstSubstantial(p.selected, contact).None?;
  }

  /** When a main area has substantial text, the content is that text cleaned: the
      body is not looked at. */
  lemma MainAreaChosen(p: Page, contact: string -> bool, i: nat)
    requires i < |p.selected| && Qualifies(p.selected[i], contact)
    requires forall j :: 0 <= j < i ==> !Qualifies(p.selected[j], contact)
    ensures ExtractedContent(p, contact) == Cleaned(StructuredText(p.selected[i], contact), 2)
  {
    FirstSubstantialAt(p.selected, contact, i);
  }

  /** No main area among the first `n` qualifies. */
  predicate NoneQualifies(sel: seq<seq<Node>>, contact: string -> bool, n: nat)
    requires n <= |sel|
  {
    forall j :: 0 <= j < n ==> !Qualifies(sel[j], contact)
  }

  lemma NoneQualifiesStep(sel: seq<seq<Node>>, contact: string -> bool, i: nat)
    requires i < |sel| && NoneQualifies(sel, contact, i) && !Qualifies(sel[i], contact)
    ensures NoneQualifies(sel, contact, i + 1)
  {
  }

  /** The first main area that qualifies is the one chosen. */
  lemma FirstSubstantialAt(sel: seq<seq<Node>>, contact: string -> bool, i: nat)
    requires i < |sel| && Qualifies(sel[i], contact)
    requires forall j :: 0 <= j < i ==> !Qualifies(sel[j], contact)
    ensures FirstSubstantial(sel, contact) == Some(StructuredText(sel[i], contact))
  {
    var r := FirstSubstantial(sel, contact);
    assert r.Some?;
    var k :| 0 <= k < |sel| && Qualifies(sel[k], contact)
      && r.value == StructuredText(sel[k], contact)
      && forall j :: 0 <= j < k ==> !Qualifies(sel[j], contact);
    assert k == i;
  }

  class WebsiteSpider {
    var startUrls: seq<string>
    var depthLimit: int

    /** The spider for a start URL already normalised by `StartUrl`. */
    constructor(start: string, maxDepth: int)
      ensures startUrls == [start] && depthLimit == maxDepth
    {
      startUrls := [start];
      depthLimit := maxDepth;
    }

    /** `parse_page` (and `parse_start_url`, which calls it): the page's item with its
        extracted content; the spider keeps no count. */
    method ParsePage(p: Page, contact: string -> bool) returns (item: Item)
      ensures item == PageItem(p.fetched, ExtractedContent(p, contact))
    {
      var content := ExtractContent(p, contact);
      item := PageItem(p.fetched, content);
    }
  }

  /** `__init__`: a missing or empty URL raises; otherwise the spider starts at the
      normalised URL with the given depth limit. */
  method NewSpider(url: Option<string>, maxDepth: int) returns (r: Result<WebsiteSpider>)
    ensures r.Err? <==> !Truthy(url)
    ensures r.Err? ==> r.message == UrlRequiredMessage
    ensures r.Ok? ==> fresh(r.value) && r.value.startUrls == [StartUrl(url).value] && r.value.depthLimit == maxDepth
  {
    var start := StartUrl(url);
    if start.Err? {
      return Err(start.message);
    }
    var spider := new WebsiteSpider(start.value, maxDepth);
    r := Ok(spider);
  }
}
