/** The Claude AI service (`src/services/ai/claudeAI.ts`): the prompt template and its
    placeholders, the reply's JSON extraction and shape check, and the fall-back to mock
    data.  The API call itself is an oracle: `ApiReply` is what it answered. */
module ClaudeService {
  import opened Base
  import opened Strings
  import opened JsonValues
  import opened AiAnalysis
  import opened JobStore

  // ---------------------------------------------------------------- prompt

  // The two long lines of the fallback template, each written as a concatenation of
  // short literals so that the character checks on them stay small.
  const PromptHead: string :=
    "Analyze the following company website " + "content and extract structured " + "information.\n\nCompany: "
  const PromptWebsite: string := "\nWebsite: "
  const PromptContent: string := "\n\nContent:\n"
  const PromptTail: string :=
    "\n\nReturn a JSON object with company " + "information, notes, contacts, and " + "extracted data."

  /** The template used when the prompt file cannot be read. */
  const FallbackPrompt: string :=
    PromptHead + ("{{company_id}}" + (PromptWebsite + ("{{website_url}}" + (PromptContent + ("{{content}}" + PromptTail)))))

  /** `preparePrompt` as written: four `String.replace` calls with string replacements,
      so `$$`, `$&`, `` $` `` and `$'` in a value are expanded. */
  function PromptAsWritten(template: string, content: string, c: Company): string {
    JsReplace(JsReplace(JsReplace(JsReplace(template, "{{company_id}}", c.company_id),
                                  "{{website_url}}", c.website_url),
                        "{{source_url}}", c.source_url),
              "{{content}}", content)
  }

  /** `preparePrompt` with each value inserted verbatim at the first occurrence of its
      placeholder. */
  function Prompt(template: string, content: string, c: Company): string {
    ReplaceFirst(ReplaceFirst(ReplaceFirst(ReplaceFirst(template, "{{company_id}}", c.company_id),
                                           "{{website_url}}", c.website_url),
                              "{{source_url}}", c.source_url),
                 "{{content}}", content)
  }

  /** Without a `$` in any value, the two readings agree. */
  lemma PromptsAgreeWithoutDollar(template: string, content: string, c: Company)
    requires '$' !in c.company_id && '$' !in c.website_url && '$' !in c.source_url && '$' !in content
    ensures PromptAsWritten(template, content, c) == Prompt(template, content, c)
  {
  }

  /** A pattern whose first character does not occur before it is found right there. */
  lemma IndexOfAfterFree(a: string, pat: string, b: string)
    requires pat != [] && pat[0] !in a
    ensures IndexOf(a + pat + b, pat) == Some(|a|)
  {
    var s := a + pat + b;
    assert s[|a|..|a| + |pat|] == pat;
    assert OccursAt(s, pat, |a|);
  }

  lemma ReplaceAfterFree(a: string, pat: string, b: string, rep: string)
    requires pat != [] && pat[0] !in a
    ensures ReplaceFirst(a + (pat + b), pat, rep) == a + rep + b
  {
    assert a + (pat + b) == a + pat + b;
    IndexOfAfterFree(a, pat, b);
    var s := a + pat + b;
    assert s[..|a|] == a && s[|a| + |pat|..] == b;
  }

  lemma JsReplaceAfterFree(a: string, pat: string, b: string, rep: string)
    requires pat != [] && pat[0] !in a
    ensures JsReplace(a + (pat + b), pat, rep) == a + Substitution(rep, pat, a, b) + b
  {
    assert a + (pat + b) == a + pat + b;
    IndexOfAfterFree(a, pat, b);
    var s := a + pat + b;
    assert s[..|a|] == a && s[|a| + |pat|..] == b;
  }

  /** Between two brace-free texts, `{{content}}` does not hold `{{source_url}}`. */
  lemma NoSourcePlaceholder(a: string, b: string)
    requires '{' !in a && '{' !in b
    ensures IndexOf(a + ("{{content}}" + b), "{{source_url}}") == None
  {
    var s := a + ("{{content}}" + b);
    var pat := "{{source_url}}";
    forall i | 0 <= i <= |s| ensures !OccursAt(s, pat, i) {
      if i + |pat| <= |s| {
        var w := s[i..i + |pat|];
        if i < |a| {
          assert w[0] == s[i] == a[i];
        } else if i == |a| {
          assert w[2] == s[i + 2] == 'c';
        } else if i == |a| + 1 {
          assert w[1] == s[i + 1] == 'c';
        } else if i < |a| + 11 {
          assert w[0] == s[i] == "{{content}}"[i - |a|];
        } else {
          assert w[0] == s[i] == b[i - |a| - 11];
        }
      }
    }
  }

  lemma PromptHeadBraceFree()
    ensures '{' !in PromptHead
  {
  }

  lemma PromptTailBraceFree()
    ensures '{' !in PromptTail
  {
  }

  lemma PromptPiecesBraceFree()
    ensures '{' !in PromptHead && '{' !in PromptWebsite && '{' !in PromptContent && '{' !in PromptTail
  {
    PromptHeadBraceFree();
    PromptTailBraceFree();
  }

  /** A template laid out like the fallback one, around the pieces `h`, `w`, `m`, `t`. */
  function Layout(h: string, w: string, m: string, t: string): string {
    h + ("{{company_id}}" + (w + ("{{website_url}}" + (m + ("{{content}}" + t)))))
  }

  lemma Assoc(a: string, b: string, c: string)
    ensures (a + b) + c == a + (b + c)
  {
  }

  /** Such a template, with brace-free pieces, once the key and the URL are in. */
  lemma FirstTwoFilled(h: string, w: string, m: string, t: string, c: Company)
    requires '{' !in h && '{' !in w && '{' !in c.company_id
    ensures ReplaceFirst(ReplaceFirst(Layout(h, w, m, t), "{{company_id}}", c.company_id), "{{website_url}}", c.website_url)
            == (h + c.company_id + w + c.website_url + m) + ("{{content}}" + t)
  {
    var id, url := c.company_id, c.website_url;
    var b2 := m + ("{{content}}" + t);
    ReplaceAfterFree(h, "{{company_id}}", w + ("{{website_url}}" + b2), id);
    Assoc(h + id, w, "{{website_url}}" + b2);
    ReplaceAfterFree(h + id + w, "{{website_url}}", b2, url);
    Assoc(h + id + w + url, m, "{{content}}" + t);
  }

  /** The same template, filled: each value in its place, the missing source
      placeholder changing nothing. */
  lemma TemplateFilled(h: string, w: string, m: string, t: string, content: string, c: Company)
    requires '{' !in h && '{' !in w && '{' !in m && '{' !in t
    requires '{' !in c.company_id && '{' !in c.website_url
    ensures Prompt(Layout(h, w, m, t), content, c) == h + c.company_id + w + c.website_url + m + content + t
  {
    FirstTwoFilled(h, w, m, t, c);
    var a3 := h + c.company_id + w + c.website_url + m;
    NoSourcePlaceholder(a3, t);
    ReplaceAfterFree(a3, "{{content}}", t, content);
  }

  /** With brace-free company key and URL, the fallback prompt carries the key, the URL
      and the content in their places. */
  lemma FallbackPromptFilled(content: string, c: Company)
    requires '{' !in c.company_id && '{' !in c.website_url
    ensures Prompt(FallbackPrompt, content, c) ==
      PromptHead + c.company_id + PromptWebsite + c.website_url + PromptContent + content + PromptTail
  {
    PromptPiecesBraceFree();
    assert FallbackPrompt == Layout(PromptHead, PromptWebsite, PromptContent, PromptTail);
    TemplateFilled(PromptHead, PromptWebsite, PromptContent, PromptTail, content, c);
  }

  /** The template as written with content `$$`: the `$$` becomes a single `$`. */
  lemma TemplateDollarAsWritten(h: string, w: string, m: string, t: string, c: Company)
    requires '{' !in h && '{' !in w && '{' !in m && '{' !in t
    requires '{' !in c.company_id && '{' !in c.website_url
    requires '$' !in c.company_id && '$' !in c.website_url
    ensures PromptAsWritten(Layout(h, w, m, t), "$$", c) == h + c.company_id + w + c.website_url + m + "$" + t
  {
    var tpl := Layout(h, w, m, t);
    var s1 := ReplaceFirst(tpl, "{{company_id}}", c.company_id);
    FirstTwoFilled(h, w, m, t, c);
    var a3 := h + c.company_id + w + c.website_url + m;
    NoSourcePlaceholder(a3, t);
    JsReplaceAfterFree(a3, "{{content}}", t, "$$");
    assert Substitution("$$", "{{content}}", a3, t) == "$";
  }

  /** Content `$$` comes out as `$` in the fallback prompt as written, but stays `$$`
      when it is inserted verbatim. */
  lemma DollarContentCollapses(c: Company)
    requires '{' !in c.company_id && '{' !in c.website_url
    requires '$' !in c.company_id && '$' !in c.website_url
    ensures PromptAsWritten(FallbackPrompt, "$$", c) ==
      PromptHead + c.company_id + PromptWebsite + c.website_url + PromptContent + "$" + PromptTail
    ensures PromptAsWritten(FallbackPrompt, "$$", c) != Prompt(FallbackPrompt, "$$", c)
  {
    PromptPiecesBraceFree();
    assert FallbackPrompt == Layout(PromptHead, PromptWebsite, PromptContent, PromptTail);
    TemplateDollarAsWritten(PromptHead, PromptWebsite, PromptContent, PromptTail, c);
    TemplateFilled(PromptHead, PromptWebsite, PromptContent, PromptTail, "$$", c);
    var x := PromptAsWritten(FallbackPrompt, "$$", c);
    var y := Prompt(FallbackPrompt, "$$", c);
    assert |x| < |y|;
  }

  // ---------------------------------------------------------------- reply

  /** A content block of the API's reply. */
  datatype Block = TextBlock(text: string) | OtherBlock

  /** What the messages API did: it threw, or it answered with content blocks. */
  datatype ApiReply = ApiFailed(error: string) | Answered(blocks: seq<Block>)

  const InvalidFormatMessage: string := "Invalid AI response format"
  const NoBlockMessage: string := "Cannot read properties of undefined (reading 'type')"

  /** The first position of `c`. */
  function FirstPos(s: string, c: char): (r: Option<nat>)
    ensures r.Some? ==> r.value < |s| && s[r.value] == c && forall k :: 0 <= k < r.value ==> s[k] != c
    ensures r.None? ==> forall k :: 0 <= k < |s| ==> s[k] != c
  {
    if s == [] then None
    else if s[0] == c then Some(0)
    else match FirstPos(s[1..], c)
      case None => None
      case Some(i) => Some(i + 1)
  }

  /** The last position of `c`. */
  function LastPos(s: string, c: char): (r: Option<nat>)
    ensures r.Some? ==> r.value < |s| && s[r.value] == c && forall k :: r.value < k < |s| ==> s[k] != c
    ensures r.None? ==> forall k :: 0 <= k < |s| ==> s[k] != c
  {
    if s == [] then None
    else if s[|s| - 1] == c then Some(|s| - 1)
    else LastPos(s[..|s| - 1], c)
  }

  /** The match of the greedy pattern `\{[\s\S]*\}`: from the first `{` to the last `}`
      after it, or nothing when no `}` follows any `{`. */
  function JsonSpan(text: string): Option<string> {
    match (FirstPos(text, '{'), LastPos(text, '}'))
    case (Some(i), Some(j)) => if i < j then Some(text[i..j + 1]) else None
    case _ => None
  }

  /** The span is missing exactly when no `}` follows a `{`; otherwise it runs from the
      first `{` of the text to its last `}`. */
  lemma JsonSpanBounds(text: string)
    ensures JsonSpan(text).None? <==> forall i, j :: 0 <= i < j < |text| ==> !(text[i] == '{' && text[j] == '}')
    ensures JsonSpan(text).Some? ==>
      exists i, j :: (0 <= i < j < |text| && JsonSpan(text).value == text[i..j + 1]
                      && text[i] == '{' && text[j] == '}'
                      && (forall k :: 0 <= k < i ==> text[k] != '{')
                      && (forall k :: j < k < |text| ==> text[k] != '}'))
  {
  }

  /** The shape check: `company_data`, `people` and `services` must all be truthy. */
  predicate HasRequiredParts(v: Json) {
    JTruthy(Prop(Some(v), "company_data")) && JTruthy(Prop(Some(v), "people")) && JTruthy(Prop(Some(v), "services"))
  }

  /** `parseAIResponse`; `decode` is `JSON.parse` (None for a syntax error).  Every
      failure is reported with the same message. */
  function ParseAIResponse(text: string, decode: string -> Option<Json>): (r: Result<Json>)
    ensures r.Ok? <==> JsonSpan(text).Some? && decode(JsonSpan(text).value).Some?
                       && HasRequiredParts(decode(JsonSpan(text).value).value)
    ensures r.Ok? ==> r.value == decode(JsonSpan(text).value).value && HasRequiredParts(r.value)
    ensures r.Err? ==> r.message == InvalidFormatMessage
  {
    match JsonSpan(text)
    case None => Err(InvalidFormatMessage)
    case Some(span) =>
      match decode(span)
      case None => Err(InvalidFormatMessage)
      case Some(v) => if HasRequiredParts(v) then Ok(v) else Err(InvalidFormatMessage)
  }

  /** A reply with no braces can never pass. */
  lemma NoBraceNoAnalysis(text: string, decode: string -> Option<Json>)
    requires '{' !in text
    ensures ParseAIResponse(text, decode) == Err(InvalidFormatMessage)
  {
  }

  /** The text taken from the reply: the first block's text, `''` when that block is of
      another kind, and a TypeError when there is no block. */
  function ReplyText(reply: ApiReply): (r: Result<string>)
    ensures reply.ApiFailed? ==> r == Err(reply.error)
    ensures reply.Answered? && reply.blocks == [] ==> r == Err(NoBlockMessage)
    ensures reply.Answered? && reply.blocks != [] ==>
      r == Ok(if reply.blocks[0].TextBlock? then reply.blocks[0].text else "")
  {
    match reply
    case ApiFailed(e) => Err(e)
    case Answered(bs) =>
      if bs == [] then Err(NoBlockMessage)
      else Ok(match bs[0] case TextBlock(t) => t case OtherBlock => "")
  }

  /** The API path up to the parsed result; any failure sends the caller to mock data.
      A thrown call keeps its error, a reply without blocks fails on the missing block,
      a first block of another kind gives `''` and so the format error, and a text block
      is parsed. */
  function ReplyAnalysis(reply: ApiReply, decode: string -> Option<Json>): (r: Result<Json>)
    ensures r.Ok? ==> reply.Answered? && reply.blocks != [] && reply.blocks[0].TextBlock?
                      && r == ParseAIResponse(reply.blocks[0].text, decode)
    ensures reply.ApiFailed? ==> r == Err(reply.error)
    ensures reply.Answered? && reply.blocks == [] ==> r == Err(NoBlockMessage)
    ensures reply.Answered? && reply.blocks != [] && reply.blocks[0].TextBlock? ==>
      r == ParseAIResponse(reply.blocks[0].text, decode)
    ensures reply.Answered? && reply.blocks != [] && reply.blocks[0].OtherBlock? ==>
      r == Err(InvalidFormatMessage)
  {
    match ReplyText(reply)
    case Err(m) => Err(m)
    case Ok(t) => ParseAIResponse(t, decode)
  }

  // ---------------------------------------------------------------- mock data

  /** The company key up to its second hyphen. */
  function MockNameTail(companyId: string): string {
    var parts := Split(companyId, '-');
    Join(parts[..Min(2, |parts|)], "-")
  }

  /** The mock name keeps the first two hyphen-separated words of the key: it is a prefix
      of the key, and the whole key exactly when the key has at most one hyphen. */
  lemma MockNameTailPrefix(companyId: string)
    ensures StartsWith(companyId, MockNameTail(companyId))
    ensures MockNameTail(companyId) == companyId <==> |Split(companyId, '-')| <= 2
  {
    var p := Split(companyId, '-');
    JoinSplit(companyId, '-');
    var tail := MockNameTail(companyId);
    if |p| <= 2 {
      assert p[..Min(2, |p|)] == p;
    } else {
      var q := p[..2];
      assert Min(2, |p|) == 2;
      assert q[0] == p[0] && q[1..] == [p[1]];
      assert Join(q[1..], "-") == p[1];
      assert tail == p[0] + "-" + p[1];
      assert p[1..][1..] == p[2..];
      assert companyId == p[0] + "-" + (p[1] + "-" + Join(p[2..], "-"));
      assert companyId == tail + ("-" + Join(p[2..], "-"));
      assert companyId[..|tail|] == tail;
    }
  }

  const MockPeople: seq<Person> := [
    Person(Some("mock.person1@example.com"), Some("[MOCK] CEO"), Some("Mock"), None, Some("Person1"),
           Some("+1-000-000-0001"), Some("https://example.com/mock-person1"), None, None, None),
    Person(Some("mock.person2@example.com"), Some("[MOCK] CTO"), Some("Mock"), None, Some("Person2"),
           None, Some("https://example.com/mock-person2"), None, None, None)
  ]

  const MockServices: Services := Services(
    Some("[MOCK] This is mock/test data - no real company analysis was performed. Real AI would analyze the actual scraped website content."),
    Some("[MOCK] Mock services - real analysis would extract actual offerings from website content."),
    None,
    Some("[MOCK] Mock target market - real analysis would identify actual customer segments."),
    None,
    Some("[MOCK] Mock recent activity - real analysis would identify current company news/developments."),
    Some("[MOCK] Mock technology stack"),
    Some("[MOCK] Mock competitive information - real analysis would extract actual differentiators."))

  const MockNotes: string := "\U{26A0}\U{FE0F} MOCK DATA WARNING: This entire analysis is mock/test data because AI processing was not available (likely due to invalid API key or service unavailability). Real analysis would extract actual company information, contacts, and insights from the scraped website content. The scraped content was available but could not be processed by Claude AI."

  /** The mock company record, named after the key's first two words. */
  function MockCompanyData(companyId: string): CompanyData {
    CompanyData(
      Some("[MOCK DATA] " + MockNameTail(companyId)),
      Some("\U{26A0}\U{FE0F} MOCK DATA: This is mock/test data - AI processing was not available. Real analysis would extract actual company information from the scraped website content."),
      Some("[MOCK] Technology"),
      Some("mock"),
      Some(0),
      Some("MOCK: 0-0"),
      Some(1900),
      Some("MOCK: Test City, XX"),
      Some(["MOCK: Test Location 1", "MOCK: Test Location 2"]),
      Some("+1-000-000-0000"),
      Some("https://example.com/mock-linkedin"),
      Some("https://example.com/mock-twitter"),
      Some("https://example.com/mock-facebook"),
      Some("https://example.com/mock-instagram"))
  }

  /** The mock name is the marker followed by the key up to its second hyphen. */
  lemma MockCompanyName(companyId: string)
    ensures MockCompanyData(companyId).name == Some("[MOCK DATA] " + MockNameTail(companyId))
    ensures StartsWith(companyId, MockNameTail(companyId))
  {
    MockNameTailPrefix(companyId);
  }

  const MockQualitySignals: seq<string> := [
    "[MOCK] Mock quality signal 1 - real analysis would identify actual company achievements",
    "[MOCK] Mock quality signal 2 - real analysis would extract credibility indicators",
    "[MOCK] Mock quality signal 3 - this is test data only"]

  const MockGrowthIndicators: seq<string> := [
    "[MOCK] Mock growth indicator 1 - real analysis would identify expansion signals",
    "[MOCK] Mock growth indicator 2 - this is test data only",
    "[MOCK] Mock growth indicator 3 - real analysis would extract growth metrics"]

  const MockIndustryMetrics: seq<string> := [
    "[MOCK] Mock metric 1: This is test data",
    "[MOCK] Mock metric 2: Real analysis would extract industry-specific KPIs",
    "[MOCK] Mock metric 3: No real metrics available"]

  /** `getMockAnalysis`: fixed placeholder data, named after the company key. */
  function MockAnalysis(company: Company): Analysis {
    Analysis(
      Some(MockCompanyData(company.company_id)),
      Some(MockPeople),
      Some(MockServices),
      Some(MockQualitySignals),
      Some(MockGrowthIndicators),
      Some(MockIndustryMetrics),
      Some(MockNotes))
  }

  // ---------------------------------------------------------------- service

  datatype DataSource = ClaudeAi | MockSource

  /** The analysis handed back: the parsed reply, passed on as it is (the cast to the
      analysis type checks nothing), or the mock analysis `MockAnalysis(company)` made for
      that company. */
  datatype AiResult = Parsed(value: Json) | MockFor(company: Company)

  /** The mock analysis a result stands for, if it is the mock. */
  function MockOf(r: AiResult): Option<Analysis> {
    match r
    case Parsed(_) => None
    case MockFor(c) => Some(MockAnalysis(c))
  }

  datatype Outcome = Outcome(result: AiResult, prompt: string, data_source: DataSource)

  class ClaudeAI {
    /** Whether a client was created (`this.anthropic` is not null). */
    var clientReady: bool
    var promptTemplate: string

    /** `apiKey` is the environment's key, `clientOk` whether the client constructor
        returned, and `promptFile` the prompt file's text when it could be read. */
    constructor (apiKey: Option<string>, clientOk: bool, promptFile: Option<string>)
      ensures clientReady == (Truthy(apiKey) && clientOk)
      ensures promptTemplate == promptFile.GetOr(FallbackPrompt)
    {
      clientReady := Truthy(apiKey) && clientOk;
      promptTemplate := promptFile.GetOr(FallbackPrompt);
    }

    /** `loadPrompt` (and `reloadPrompt`): the file's text, or the fallback template. */
    method LoadPrompt(promptFile: Option<string>)
      modifies this
      ensures promptTemplate == promptFile.GetOr(FallbackPrompt)
      ensures clientReady == old(clientReady)
    {
      promptTemplate := promptFile.GetOr(FallbackPrompt);
    }

    /** `processContent`: the prompt is built first; without a client, or when the call
        or its parsing fails, the result is the mock analysis. */
    method ProcessContent(content: string, company: Company, reply: ApiReply, decode: string -> Option<Json>)
      returns (o: Outcome)
      ensures o.prompt == Prompt(promptTemplate, content, company)
      ensures o.data_source == ClaudeAi <==> clientReady && ReplyAnalysis(reply, decode).Ok?
      ensures o.data_source == ClaudeAi ==>
        o.result == Parsed(ReplyAnalysis(reply, decode).value) && HasRequiredParts(o.result.value)
      ensures o.data_source == MockSource ==> o.result == MockFor(company)
    {
      var prompt := Prompt(promptTemplate, content, company);
      if !clientReady {
        return Outcome(MockFor(company), prompt, MockSource);
      }
      var parsed := ReplyAnalysis(reply, decode);
      if parsed.Err? {
        return Outcome(MockFor(company), prompt, MockSource);
      }
      o := Outcome(Parsed(parsed.value), prompt, ClaudeAi);
    }
  }
}
