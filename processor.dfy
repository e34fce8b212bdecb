/** The background processor (`src/services/processor.ts`): a timer handle, a guard
    flag, and a tick that drives every pending company through crawling and the AI
    step, writing its progress to the job store. */
module Processor {
  import opened Base
  import opened Strings
  import opened JobStore

  /** What the scraping service answers (`src/services/websiteScraper.ts`): the page
      texts come as a list of strings. */
  datatype ScrapeResult = ScrapeResult(
    success: bool,
    content: seq<string>,
    emails: seq<string>,
    links: seq<string>,
    pagesVisited: nat,
    error: Option<string>)

  const DefaultCrawlError: string := "Failed to scrape website content"

  /** The TypeError a JavaScript engine raises when `trim` is called on an array. */
  const TrimTypeError: string := "result.content.trim is not a function"

  /** The crawl check as written: `content` is an array, so a successful result reaches
      `content.trim()` and throws; an unsuccessful one throws its own error. */
  function CrawlAsWritten(r: ScrapeResult): (res: Result<string>)
    ensures res.Err?
    ensures r.success ==> res.message == TrimTypeError
    ensures !r.success && r.error.Some? && r.error.value != "" ==> res.message == r.error.value
    ensures !r.success && (r.error.None? || r.error.value == "") ==> res.message == DefaultCrawlError
  {
    if r.success then Err(TrimTypeError) else Err(NullIfFalsy(r.error).GetOr(DefaultCrawlError))
  }

  /** The page texts as one string, pages separated by a blank line. */
  function PagesText(r: ScrapeResult): string {
    Join(r.content, "\n\n")
  }

  /** The crawl check as intended: the crawl succeeds when the service reports success
      and its text is not blank, and yields that text. */
  function SimulateWebsiteCrawl(r: ScrapeResult): (res: Result<string>)
    ensures res.Ok? <==> r.success && exists k :: 0 <= k < |PagesText(r)| && !JsSpace(PagesText(r)[k])
    ensures res.Ok? ==> res.value == PagesText(r)
    ensures !r.success ==> res == CrawlAsWritten(r)
  {
    TrimEmpty(PagesText(r), JsSpace);
    if r.success && Trim(PagesText(r), JsSpace) != "" then Ok(PagesText(r))
    else Err(NullIfFalsy(r.error).GetOr(DefaultCrawlError))
  }

  // The log entries the processor writes.

  function CrawlStarted(companyId: string): NewLog {
    NewLog(companyId, Crawling, LogStarted, Some("Starting website crawl"), None)
  }

  function CrawlCompleted(companyId: string, raw: string): NewLog {
    NewLog(companyId, Crawling, LogCompleted, Some("Website crawl completed"),
           Some(NatToString(|raw|) + " characters extracted"))
  }

  function AiStarted(companyId: string): NewLog {
    NewLog(companyId, AiProcessing, LogStarted, Some("Starting AI processing"), None)
  }

  function AiCompleted(companyId: string): NewLog {
    NewLog(companyId, AiProcessing, LogCompleted, Some("AI processing completed"), Some("Structured data extracted"))
  }

  /** The single entry of a failure: always filed under `crawling`, whichever stage threw. */
  function FailedEntry(companyId: string, message: string): NewLog {
    NewLog(companyId, Crawling, LogFailed, Some("Processing failed: " + message), None)
  }

  /** The fields a caller gives for a stored entry. */
  function View(l: ProcessLog): NewLog {
    NewLog(l.company_id, l.step, l.status, l.message, l.data)
  }

  function Views(logs: seq<ProcessLog>): (r: seq<NewLog>)
    ensures |r| == |logs|
    ensures forall k :: 0 <= k < |logs| ==> r[k] == View(logs[k])
  {
    if logs == [] then [] else [View(logs[0])] + Views(logs[1..])
  }

  /** The parts of the store a tick changes. */
  datatype Tables = Tables(companies: seq<Company>, logs: seq<ProcessLog>, lastLogRowId: nat)

  function UpdateT(t: Tables, companyId: string, change: RowChange, now: Timestamp): Tables {
    t.(companies := UpdateRows(t.companies, companyId, change, now))
  }

  /** The entry `addProcessLog` stores for `e`. */
  function Stored(e: NewLog, id: nat, now: Timestamp): ProcessLog {
    ProcessLog(id, e.company_id, e.step, e.status, NullIfFalsy(e.message), NullIfFalsy(e.data), now)
  }

  function AppendT(t: Tables, e: NewLog, now: Timestamp): Tables {
    t.(logs := t.logs + [Stored(e, t.lastLogRowId + 1, now)], lastLogRowId := t.lastLogRowId + 1)
  }

  /** The catch block: status `failed` and one failure entry. */
  function FailT(t: Tables, companyId: string, message: string, now: Timestamp): Tables {
    AppendT(UpdateT(t, companyId, SetStatus(Failed), now), FailedEntry(companyId, message), now)
  }

  /** The first two writes of `processCompany`: status `processing`, crawl started. */
  function BeginT(t: Tables, companyId: string, now: Timestamp): Tables {
    AppendT(UpdateT(t, companyId, SetStatus(Processing), now), CrawlStarted(companyId), now)
  }

  /** The writes after a successful crawl yielding `raw`. */
  function AfterCrawlT(t: Tables, c: Company, raw: string, ai: (string, Company) -> Result<string>, now: Timestamp): Tables {
    var id := c.company_id;
    AiStepT(AppendT(AppendT(UpdateT(t, id, SetRawData(raw), now), CrawlCompleted(id, raw), now), AiStarted(id), now),
            c, raw, ai, now)
  }

  /** The writes once the AI step has started: its result and status `completed`, or the catch block. */
  function AiStepT(t: Tables, c: Company, raw: string, ai: (string, Company) -> Result<string>, now: Timestamp): Tables {
    var id := c.company_id;
    match ai(raw, c)
    case Err(m) => FailT(t, id, m, now)
    case Ok(p) => UpdateT(AppendT(UpdateT(t, id, SetProcessedData(p), now), AiCompleted(id), now), id, SetStatus(Completed), now)
  }

  /** What `processCompany` does to the tables, given the crawl outcome and the AI step. */
  function ProcessOne(t: Tables, c: Company, crawled: Result<string>, ai: (string, Company) -> Result<string>,
                      now: Timestamp): Tables
  {
    var t2 := BeginT(t, c.company_id, now);
    match crawled
    case Err(m) => FailT(t2, c.company_id, m, now)
    case Ok(raw) => AfterCrawlT(t2, c, raw, ai, now)
  }

  /** The pending rows in table order, which is ascending `created_at` (see `PendingOldestFirst`). */
  function PendingOf(rows: seq<Company>): (r: seq<Company>)
    ensures forall k :: 0 <= k < |r| ==> r[k].status == Pending && r[k] in rows
    ensures forall i :: 0 <= i < |rows| && rows[i].status == Pending ==> rows[i] in r
  {
    if rows == [] then []
    else (if rows[0].status == Pending then [rows[0]] else []) + PendingOf(rows[1..])
  }

  /** The whole loop of a tick: every company of `ps`, one after another. */
  function ProcessAll(t: Tables, ps: seq<Company>, scrape: string -> ScrapeResult,
                      ai: (string, Company) -> Result<string>, now: Timestamp): Tables
  {
    if ps == [] then t
    else
      var c := ps[|ps| - 1];
      ProcessOne(ProcessAll(t, ps[..|ps| - 1], scrape, ai, now), c, SimulateWebsiteCrawl(scrape(c.website_url)), ai, now)
  }

  lemma ProcessAllStep(t: Tables, ps: seq<Company>, i: nat, scrape: string -> ScrapeResult,
                       ai: (string, Company) -> Result<string>, now: Timestamp)
    requires i < |ps|
    ensures ProcessAll(t, ps[..i + 1], scrape, ai, now)
         == ProcessOne(ProcessAll(t, ps[..i], scrape, ai, now), ps[i], SimulateWebsiteCrawl(scrape(ps[i].website_url)), ai, now)
  {
    PrefixOfPrefix(ps, i);
  }

  lemma PendingPresent(rows: seq<Company>, c: Company)
    requires c in PendingOf(rows)
    ensures HasCompany(rows, c.company_id)
  {
    var k :| 0 <= k < |PendingOf(rows)| && PendingOf(rows)[k] == c;
    var i :| 0 <= i < |rows| && rows[i] == c;
  }

  /** Same rows, same keys: what the processor's updates leave alone. */
  predicate SameKeys(a: seq<Company>, b: seq<Company>) {
    |a| == |b| && forall i :: 0 <= i < |a| ==> a[i].company_id == b[i].company_id
  }

  lemma HasCompanySameKeys(a: seq<Company>, b: seq<Company>, companyId: string)
    requires SameKeys(a, b)
    ensures HasCompany(a, companyId) <==> HasCompany(b, companyId)
  {
    if HasCompany(a, companyId) {
      var i :| 0 <= i < |a| && a[i].company_id == companyId;
      assert b[i].company_id == companyId;
    }
    if HasCompany(b, companyId) {
      var i :| 0 <= i < |b| && b[i].company_id == companyId;
      assert a[i].company_id == companyId;
    }
  }

  /** The processor never adds or removes a company and never changes a key. */
  lemma ProcessOneKeys(t: Tables, c: Company, crawled: Result<string>, ai: (string, Company) -> Result<string>, now: Timestamp)
    ensures SameKeys(t.companies, ProcessOne(t, c, crawled, ai, now).companies)
  {
    var id := c.company_id;
    var t2 := BeginT(t, id, now);
    UpdateTKeys(t, id, SetStatus(Processing), now);
    match crawled
    case Err(m) =>
      FailTKeys(t2, id, m, now);
      SameKeysTrans(t.companies, t2.companies, FailT(t2, id, m, now).companies);
    case Ok(raw) =>
      var t5 := AppendT(AppendT(UpdateT(t2, id, SetRawData(raw), now), CrawlCompleted(id, raw), now), AiStarted(id), now);
      UpdateTKeys(t2, id, SetRawData(raw), now);
      SameKeysTrans(t.companies, t2.companies, t5.companies);
      AiStepTKeys(t5, c, raw, ai, now);
      SameKeysTrans(t.companies, t5.companies, AiStepT(t5, c, raw, ai, now).companies);
  }

  lemma SameKeysTrans(a: seq<Company>, b: seq<Company>, c: seq<Company>)
    requires SameKeys(a, b) && SameKeys(b, c)
    ensures SameKeys(a, c)
  {
  }

  lemma UpdateTKeys(t: Tables, companyId: string, change: RowChange, now: Timestamp)
    ensures SameKeys(t.companies, UpdateT(t, companyId, change, now).companies)
  {
  }

  lemma FailTKeys(t: Tables, companyId: string, message: string, now: Timestamp)
    ensures SameKeys(t.companies, FailT(t, companyId, message, now).companies)
  {
    UpdateTKeys(t, companyId, SetStatus(Failed), now);
  }

  lemma AiStepTKeys(t: Tables, c: Company, raw: string, ai: (string, Company) -> Result<string>, now: Timestamp)
    ensures SameKeys(t.companies, AiStepT(t, c, raw, ai, now).companies)
  {
    var id := c.company_id;
    match ai(raw, c)
    case Err(m) => FailTKeys(t, id, m, now);
    case Ok(p) =>
      var t6 := UpdateT(t, id, SetProcessedData(p), now);
      var t7 := AppendT(t6, AiCompleted(id), now);
      UpdateTKeys(t, id, SetProcessedData(p), now);
      UpdateTKeys(t7, id, SetStatus(Completed), now);
      SameKeysTrans(t.companies, t7.companies, UpdateT(t7, id, SetStatus(Completed), now).companies);
  }

  lemma {:induction false} ProcessAllKeys(t: Tables, ps: seq<Company>, scrape: string -> ScrapeResult,
                                          ai: (string, Company) -> Result<string>, now: Timestamp)
    ensures SameKeys(t.companies, ProcessAll(t, ps, scrape, ai, now).companies)
  {
    if ps != [] {
      var c := ps[|ps| - 1];
      var mid := ProcessAll(t, ps[..|ps| - 1], scrape, ai, now);
      ProcessAllKeys(t, ps[..|ps| - 1], scrape, ai, now);
      ProcessOneKeys(mid, c, SimulateWebsiteCrawl(scrape(c.website_url)), ai, now);
    }
  }

  /** A successful run: the row is `completed` with both data columns set, nothing else
      changes, and the four progress entries are appended in order. */
  lemma ProcessOneSucceeds(t: Tables, c: Company, raw: string, ai: (string, Company) -> Result<string>, now: Timestamp)
    requires ai(raw, c).Ok?
    ensures var r := ProcessOne(t, c, Ok(raw), ai, now);
      |r.companies| == |t.companies|
      && (forall i :: 0 <= i < |t.companies| ==>
            r.companies[i] == if t.companies[i].company_id == c.company_id
                              then t.companies[i].(status := Completed, raw_data := Some(raw),
                                                   processed_data := Some(ai(raw, c).value), updated_at := now)
                              else t.companies[i])
      && r.logs[..|t.logs|] == t.logs
      && Views(r.logs[|t.logs|..]) == [CrawlStarted(c.company_id), CrawlCompleted(c.company_id, raw),
                                       AiStarted(c.company_id), AiCompleted(c.company_id)]
      && r.lastLogRowId == t.lastLogRowId + 4
  {
    var id := c.company_id;
    SucceedsRows(t, c, raw, ai, now);
    SucceedsLogs(t, c, raw, ai, now);
    var r := ProcessOne(t, c, Ok(raw), ai, now);
    var added := [Stored(CrawlStarted(id), t.lastLogRowId + 1, now), Stored(CrawlCompleted(id, raw), t.lastLogRowId + 2, now),
                  Stored(AiStarted(id), t.lastLogRowId + 3, now), Stored(AiCompleted(id), t.lastLogRowId + 4, now)];
    assert r.logs[|t.logs|..] == added;
  }

  lemma SucceedsLogs(t: Tables, c: Company, raw: string, ai: (string, Company) -> Result<string>, now: Timestamp)
    requires ai(raw, c).Ok?
    ensures var r := ProcessOne(t, c, Ok(raw), ai, now);
      r.logs == t.logs + [Stored(CrawlStarted(c.company_id), t.lastLogRowId + 1, now),
                          Stored(CrawlCompleted(c.company_id, raw), t.lastLogRowId + 2, now),
                          Stored(AiStarted(c.company_id), t.lastLogRowId + 3, now),
                          Stored(AiCompleted(c.company_id), t.lastLogRowId + 4, now)]
      && r.lastLogRowId == t.lastLogRowId + 4
  {
    var id := c.company_id;
    var n := t.lastLogRowId;
    var e1, e2 := Stored(CrawlStarted(id), n + 1, now), Stored(CrawlCompleted(id, raw), n + 2, now);
    var e3, e4 := Stored(AiStarted(id), n + 3, now), Stored(AiCompleted(id), n + 4, now);
    var t2 := BeginT(t, id, now);
    assert t2.logs == t.logs + [e1] && t2.lastLogRowId == n + 1;
    var t5 := AppendT(AppendT(UpdateT(t2, id, SetRawData(raw), now), CrawlCompleted(id, raw), now), AiStarted(id), now);
    assert t5.logs == t.logs + [e1] + [e2] + [e3] && t5.lastLogRowId == n + 3;
    var t7 := AppendT(UpdateT(t5, id, SetProcessedData(ai(raw, c).value), now), AiCompleted(id), now);
    assert t7.logs == t.logs + [e1] + [e2] + [e3] + [e4] && t7.lastLogRowId == n + 4;
    assert t.logs + [e1] + [e2] + [e3] + [e4] == t.logs + [e1, e2, e3, e4];
  }

  lemma SucceedsRows(t: Tables, c: Company, raw: string, ai: (string, Company) -> Result<string>, now: Timestamp)
    requires ai(raw, c).Ok?
    ensures var r := ProcessOne(t, c, Ok(raw), ai, now);
      |r.companies| == |t.companies|
      && forall i :: 0 <= i < |t.companies| ==>
           r.companies[i] == if t.companies[i].company_id == c.company_id
                             then t.companies[i].(status := Completed, raw_data := Some(raw),
                                                  processed_data := Some(ai(raw, c).value), updated_at := now)
                             else t.companies[i]
  {
    var id := c.company_id;
    var p := ai(raw, c).value;
    var t1 := UpdateT(t, id, SetStatus(Processing), now);
    var t2 := AppendT(t1, CrawlStarted(id), now);
    var t3 := UpdateT(t2, id, SetRawData(raw), now);
    var t5 := AppendT(AppendT(t3, CrawlCompleted(id, raw), now), AiStarted(id), now);
    var t6 := UpdateT(t5, id, SetProcessedData(p), now);
    var t7 := AppendT(t6, AiCompleted(id), now);
    var r := UpdateT(t7, id, SetStatus(Completed), now);
    assert ProcessOne(t, c, Ok(raw), ai, now) == r;
    forall i | 0 <= i < |t.companies|
      ensures r.companies[i] == if t.companies[i].company_id == id
                                then t.companies[i].(status := Completed, raw_data := Some(raw),
                                                     processed_data := Some(p), updated_at := now)
                                else t.companies[i]
    {
      if t.companies[i].company_id == id {
        assert t1.companies[i] == ApplyChange(t.companies[i], SetStatus(Processing), now);
        assert t3.companies[i] == ApplyChange(t1.companies[i], SetRawData(raw), now);
        assert t6.companies[i] == ApplyChange(t5.companies[i], SetProcessedData(p), now);
        assert r.companies[i] == ApplyChange(t7.companies[i], SetStatus(Completed), now);
      } else {
        assert t1.companies[i] == t.companies[i] && t3.companies[i] == t2.companies[i];
        assert t6.companies[i] == t5.companies[i] && r.companies[i] == t7.companies[i];
      }
    }
  }

  /** A crawl that fails: the row is `failed`, its data columns are untouched, and the
      entries are the crawl start and one failure entry. */
  lemma ProcessOneCrawlFails(t: Tables, c: Company, m: string, ai: (string, Company) -> Result<string>, now: Timestamp)
    ensures var r := ProcessOne(t, c, Err(m), ai, now);
      |r.companies| == |t.companies|
      && (forall i :: 0 <= i < |t.companies| ==>
            r.companies[i] == if t.companies[i].company_id == c.company_id
                              then t.companies[i].(status := Failed, updated_at := now)
                              else t.companies[i])
      && r.logs[..|t.logs|] == t.logs
      && Views(r.logs[|t.logs|..]) == [CrawlStarted(c.company_id), FailedEntry(c.company_id, m)]
      && r.lastLogRowId == t.lastLogRowId + 2
  {
    var r := ProcessOne(t, c, Err(m), ai, now);
    var added := r.logs[|t.logs|..];
    assert |added| == 2;
    assert added[0] == Stored(CrawlStarted(c.company_id), t.lastLogRowId + 1, now);
    assert added[1] == Stored(FailedEntry(c.company_id, m), t.lastLogRowId + 2, now);
  }

  /** An AI step that fails: the row is `failed` with its raw data kept, and the failure
      entry is still filed under `crawling`. */
  lemma ProcessOneAiFails(t: Tables, c: Company, raw: string, ai: (string, Company) -> Result<string>, now: Timestamp)
    requires ai(raw, c).Err?
    ensures var r := ProcessOne(t, c, Ok(raw), ai, now);
      |r.companies| == |t.companies|
      && (forall i :: 0 <= i < |t.companies| ==>
            r.companies[i] == if t.companies[i].company_id == c.company_id
                              then t.companies[i].(status := Failed, raw_data := Some(raw), updated_at := now)
                              else t.companies[i])
      && r.logs[..|t.logs|] == t.logs
      && Views(r.logs[|t.logs|..]) == [CrawlStarted(c.company_id), CrawlCompleted(c.company_id, raw),
                                       AiStarted(c.company_id), FailedEntry(c.company_id, ai(raw, c).message)]
      && r.lastLogRowId == t.lastLogRowId + 4
  {
    var id := c.company_id;
    AiFailsRows(t, c, raw, ai, now);
    var r := ProcessOne(t, c, Ok(raw), ai, now);
    var added := [Stored(CrawlStarted(id), t.lastLogRowId + 1, now), Stored(CrawlCompleted(id, raw), t.lastLogRowId + 2, now),
                  Stored(AiStarted(id), t.lastLogRowId + 3, now), Stored(FailedEntry(id, ai(raw, c).message), t.lastLogRowId + 4, now)];
    assert r.logs == t.logs + added;
    assert r.logs[|t.logs|..] == added;
  }

  lemma AiFailsRows(t: Tables, c: Company, raw: string, ai: (string, Company) -> Result<string>, now: Timestamp)
    requires ai(raw, c).Err?
    ensures var r := ProcessOne(t, c, Ok(raw), ai, now);
      |r.companies| == |t.companies|
      && forall i :: 0 <= i < |t.companies| ==>
           r.companies[i] == if t.companies[i].company_id == c.company_id
                             then t.companies[i].(status := Failed, raw_data := Some(raw), updated_at := now)
                             else t.companies[i]
  {
    var id := c.company_id;
    var t1 := UpdateT(t, id, SetStatus(Processing), now);
    var t2 := AppendT(t1, CrawlStarted(id), now);
    var t3 := UpdateT(t2, id, SetRawData(raw), now);
    var t5 := AppendT(AppendT(t3, CrawlCompleted(id, raw), now), AiStarted(id), now);
    var r := FailT(t5, id, ai(raw, c).message, now);
    assert ProcessOne(t, c, Ok(raw), ai, now) == r;
    forall i | 0 <= i < |t.companies|
      ensures r.companies[i] == if t.companies[i].company_id == id
                                then t.companies[i].(status := Failed, raw_data := Some(raw), updated_at := now)
                                else t.companies[i]
    {
      if t.companies[i].company_id == id {
        assert t1.companies[i] == ApplyChange(t.companies[i], SetStatus(Processing), now);
        assert t3.companies[i] == ApplyChange(t1.companies[i], SetRawData(raw), now);
        assert r.companies[i] == ApplyChange(t5.companies[i], SetStatus(Failed), now);
      } else {
        assert t1.companies[i] == t.companies[i] && t3.companies[i] == t2.companies[i];
        assert r.companies[i] == t5.companies[i];
      }
    }
  }

  /** With the crawl check as written no company ever completes: every run ends in the
      failure branch, with the TypeError whenever the scrape itself succeeded. */
  lemma AsWrittenNeverCompletes(t: Tables, c: Company, r: ScrapeResult, ai: (string, Company) -> Result<string>, now: Timestamp)
    ensures var out := ProcessOne(t, c, CrawlAsWritten(r), ai, now);
      (forall i :: 0 <= i < |t.companies| && t.companies[i].company_id == c.company_id ==>
         out.companies[i].status == Failed)
      && Views(out.logs[|t.logs|..]) == [CrawlStarted(c.company_id), FailedEntry(c.company_id, CrawlAsWritten(r).message)]
      && (r.success ==> CrawlAsWritten(r).message == TrimTypeError)
  {
    ProcessOneCrawlFails(t, c, CrawlAsWritten(r).message, ai, now);
  }

  /** The intended check lets a successful scrape with some visible text through. */
  lemma CrawlSucceedsOnText(r: ScrapeResult, k: nat)
    requires r.success && k < |PagesText(r)| && !JsSpace(PagesText(r)[k])
    ensures SimulateWebsiteCrawl(r) == Ok(PagesText(r))
  {
  }

  predicate Finished(s: CompanyStatus) {
    s == Completed || s == Failed
  }

  /** `after` is `before` with the rows keyed by one of `ids` finished and the others untouched. */
  predicate FinishedOn(before: seq<Company>, after: seq<Company>, ids: seq<string>) {
    |after| == |before|
    && forall i :: 0 <= i < |before| ==>
         if before[i].company_id in ids then Finished(after[i].status) else after[i] == before[i]
  }

  /** A run leaves every other row alone and ends the company's row in a final state. */
  lemma ProcessOneFinal(t: Tables, c: Company, crawled: Result<string>, ai: (string, Company) -> Result<string>, now: Timestamp)
    ensures FinishedOn(t.companies, ProcessOne(t, c, crawled, ai, now).companies, [c.company_id])
  {
    match crawled
    case Err(m) => ProcessOneCrawlFails(t, c, m, ai, now);
    case Ok(raw) =>
      if ai(raw, c).Ok? { ProcessOneSucceeds(t, c, raw, ai, now); } else { ProcessOneAiFails(t, c, raw, ai, now); }
  }

  lemma FinishedOnStep(a: seq<Company>, b: seq<Company>, c: seq<Company>, ids: seq<string>, id: string)
    requires FinishedOn(a, b, ids) && SameKeys(a, b) && FinishedOn(b, c, [id])
    ensures FinishedOn(a, c, ids + [id])
  {
    forall i | 0 <= i < |a|
      ensures if a[i].company_id in ids + [id] then Finished(c[i].status) else c[i] == a[i]
    {
      assert a[i].company_id == b[i].company_id;
      if a[i].company_id in ids && a[i].company_id != id {
        assert c[i] == b[i];
      }
    }
  }

  /** The keys of the given rows, in order. */
  function Ids(ps: seq<Company>): seq<string> {
    seq(|ps|, k requires 0 <= k < |ps| => ps[k].company_id)
  }

  lemma IdsSnoc(ps: seq<Company>)
    requires ps != []
    ensures Ids(ps) == Ids(ps[..|ps| - 1]) + [ps[|ps| - 1].company_id]
  {
    var front := ps[..|ps| - 1];
    var r := Ids(front) + [ps[|ps| - 1].company_id];
    forall k | 0 <= k < |ps| ensures Ids(ps)[k] == r[k] {
      if k < |front| {
        assert r[k] == Ids(front)[k] == front[k].company_id;
      }
    }
  }

  /** After the loop, each row whose key was in the list is `completed` or `failed`;
      the other rows are as before. */
  lemma {:induction false} ProcessAllFinal(t: Tables, ps: seq<Company>, scrape: string -> ScrapeResult,
                                           ai: (string, Company) -> Result<string>, now: Timestamp)
    ensures FinishedOn(t.companies, ProcessAll(t, ps, scrape, ai, now).companies, Ids(ps))
  {
    if ps != [] {
      var init := ps[..|ps| - 1];
      var c := ps[|ps| - 1];
      var mid := ProcessAll(t, init, scrape, ai, now);
      ProcessAllFinal(t, init, scrape, ai, now);
      ProcessAllKeys(t, init, scrape, ai, now);
      ProcessOneFinal(mid, c, SimulateWebsiteCrawl(scrape(c.website_url)), ai, now);
      IdsSnoc(ps);
      FinishedOnStep(t.companies, mid.companies, ProcessAll(t, ps, scrape, ai, now).companies, Ids(init), c.company_id);
    }
  }

  /** A row's key is listed among the pending keys exactly when the row is pending. */
  lemma PendingIds(rows: seq<Company>, i: nat)
    requires UniqueCompanyIds(rows) && i < |rows|
    ensures rows[i].company_id in Ids(PendingOf(rows)) <==> rows[i].status == Pending
  {
    var ps := PendingOf(rows);
    var ids := Ids(ps);
    if rows[i].status == Pending {
      assert rows[i] in ps;
      var k :| 0 <= k < |ps| && ps[k] == rows[i];
      assert ids[k] == rows[i].company_id;
    }
    if rows[i].company_id in ids {
      var k :| 0 <= k < |ids| && ids[k] == rows[i].company_id;
      assert ps[k].company_id == rows[i].company_id && ps[k].status == Pending;
      assert ps[k] in rows;
      var j :| 0 <= j < |rows| && rows[j] == ps[k];
      SameIdSameRow(rows, i, j);
    }
  }

  lemma SameIdSameRow(rows: seq<Company>, i: nat, j: nat)
    requires UniqueCompanyIds(rows) && i < |rows| && j < |rows| && rows[i].company_id == rows[j].company_id
    ensures i == j
  {
  }

  /** A tick over the pending rows of a table with unique keys: the pending rows are all
      finished and the others are untouched. */
  lemma TickFinishesPending(t: Tables, scrape: string -> ScrapeResult, ai: (string, Company) -> Result<string>, now: Timestamp)
    requires UniqueCompanyIds(t.companies)
    ensures var r := ProcessAll(t, PendingOf(t.companies), scrape, ai, now);
      |r.companies| == |t.companies|
      && forall i :: 0 <= i < |t.companies| ==>
           if t.companies[i].status == Pending then Finished(r.companies[i].status) else r.companies[i] == t.companies[i]
  {
    var ps := PendingOf(t.companies);
    ProcessAllFinal(t, ps, scrape, ai, now);
    forall i | 0 <= i < |t.companies|
      ensures t.companies[i].company_id in Ids(ps) <==> t.companies[i].status == Pending
    {
      PendingIds(t.companies, i);
    }
  }

  /** Discovery returns the pending rows oldest first. */
  lemma PendingOldestFirst(rows: seq<Company>)
    requires forall i, j :: 0 <= i < j < |rows| ==> rows[i].created_at <= rows[j].created_at
    ensures var r := PendingOf(rows);
      forall k, l :: 0 <= k < l < |r| ==> r[k].created_at <= r[l].created_at
  {
    if rows != [] {
      PendingOldestFirst(rows[1..]);
    }
  }

  /** `company_id.split('-')`, each word with its first character upper-cased, joined by
      spaces: the mock AI result's company name. */
  function MockCompanyName(companyId: string): string {
    Join(CapitalizeAll(Split(companyId, '-')), " ")
  }

  function Capitalize(w: string): string {
    if w == [] then [] else [UpperChar(w[0])] + w[1..]
  }

  function CapitalizeAll(ws: seq<string>): (r: seq<string>)
    ensures |r| == |ws| && forall k :: 0 <= k < |ws| ==> r[k] == Capitalize(ws[k])
  {
    if ws == [] then [] else [Capitalize(ws[0])] + CapitalizeAll(ws[1..])
  }

  /** The same name described character by character: a hyphen becomes a space and the
      character at the start of a word is upper-cased. */
  function TitleFrom(s: string, atStart: bool): (r: string)
    ensures |r| == |s|
  {
    if s == [] then []
    else if s[0] == '-' then [' '] + TitleFrom(s[1..], true)
    else [if atStart then UpperChar(s[0]) else s[0]] + TitleFrom(s[1..], false)
  }

  /** `TitleFrom` position by position. */
  lemma {:induction false} TitleFromChars(s: string, atStart: bool, k: nat)
    requires k < |s|
    ensures TitleFrom(s, atStart)[k] == if s[k] == '-' then ' '
                                        else if (if k == 0 then atStart else s[k - 1] == '-') then UpperChar(s[k])
                                        else s[k]
  {
    if k > 0 {
      TitleFromChars(s[1..], s[0] == '-', k - 1);
      assert s[1..][k - 1] == s[k];
      if k > 1 { assert s[1..][k - 2] == s[k - 1]; }
    }
  }

  lemma {:induction false} TitleSplit(s: string, atStart: bool)
    ensures var ps := Split(s, '-');
      Join([if atStart then Capitalize(ps[0]) else ps[0]] + CapitalizeAll(ps[1..]), " ") == TitleFrom(s, atStart)
  {
    if s != [] {
      var rest := Split(s[1..], '-');
      TitleSplit(s[1..], s[0] == '-');
      var tail := CapitalizeAll(rest[1..]);
      if s[0] == '-' {
        TitleSplitHyphen(s, atStart);
      } else {
        var first := [s[0]] + rest[0];
        var ch := if atStart then UpperChar(s[0]) else s[0];
        assert Split(s, '-') == [first] + rest[1..];
        assert Split(s, '-')[1..] == rest[1..];
        assert (if atStart then Capitalize(first) else first) == [ch] + rest[0];
        JoinConsChar(ch, rest[0], tail, " ");
      }
    }
  }

  lemma TitleSplitHyphen(s: string, atStart: bool)
    requires s != [] && s[0] == '-'
    requires var rest := Split(s[1..], '-');
      Join([Capitalize(rest[0])] + CapitalizeAll(rest[1..]), " ") == TitleFrom(s[1..], true)
    ensures var ps := Split(s, '-');
      Join([if atStart then Capitalize(ps[0]) else ps[0]] + CapitalizeAll(ps[1..]), " ") == TitleFrom(s, atStart)
  {
    var rest := Split(s[1..], '-');
    var ps := Split(s, '-');
    assert ps == [""] + rest;
    assert ps[1..] == rest;
    var caps := CapitalizeAll(rest);
    assert caps == [Capitalize(rest[0])] + CapitalizeAll(rest[1..]);
    JoinConsEmpty(caps, " ");
  }

  lemma JoinConsEmpty(rest: seq<string>, sep: string)
    requires rest != []
    ensures Join([""] + rest, sep) == sep + Join(rest, sep)
  {
    assert ([""] + rest)[1..] == rest;
  }

  lemma JoinConsChar(ch: char, w: string, rest: seq<string>, sep: string)
    ensures Join([[ch] + w] + rest, sep) == [ch] + Join([w] + rest, sep)
  {
    if rest != [] {
      assert ([[ch] + w] + rest)[1..] == rest;
      assert ([w] + rest)[1..] == rest;
    }
  }

  /** The mock name, character by character. */
  lemma MockCompanyNameChars(companyId: string)
    ensures MockCompanyName(companyId) == TitleFrom(companyId, true)
  {
    var ps := Split(companyId, '-');
    TitleSplit(companyId, true);
    assert CapitalizeAll(ps) == [Capitalize(ps[0])] + CapitalizeAll(ps[1..]);
  }

  /** The service object: `intervalId` is the timer handle while started, and
      `isProcessing` the guard a tick checks. */
  class ProcessorService {
    var isProcessing: bool
    var intervalId: Option<nat>
    const store: Store

    ghost predicate Valid()
      reads this, store
    {
      store.Valid()
    }

    /** The tables as the processor sees them. */
    function Snapshot(): Tables
      reads store
    {
      Tables(store.companies, store.logs, store.lastLogRowId)
    }

    constructor (store: Store)
      ensures this.store == store && !isProcessing && intervalId == None
    {
      this.store := store;
      isProcessing := false;
      intervalId := None;
    }

    /** `start`: installs the timer unless one is installed; `handle` is what
        `setInterval` returns. */
    method Start(handle: nat)
      modifies this
      ensures old(intervalId).Some? ==> intervalId == old(intervalId)
      ensures old(intervalId).None? ==> intervalId == Some(handle)
      ensures isProcessing == old(isProcessing)
    {
      if intervalId.Some? {
        return;
      }
      intervalId := Some(handle);
    }

    /** `stop`: clears the timer if there is one. */
    method Stop()
      modifies this
      ensures intervalId == None && isProcessing == old(isProcessing)
    {
      if intervalId.Some? {
        intervalId := None;
      }
    }

    /** `getPendingCompanies`: the pending rows oldest first, or nothing when the query throws. */
    function GetPendingCompanies(queryOk: bool): (r: seq<Company>)
      reads store
      ensures !queryOk ==> r == []
      ensures queryOk ==> r == PendingOf(store.companies)
    {
      if queryOk then PendingOf(store.companies) else []
    }

    method SetColumn(companyId: string, change: RowChange, now: Timestamp)
      requires Valid() && store.clock <= now && HasCompany(store.companies, companyId)
      modifies store
      ensures Valid() && store.clock == now && HasCompany(store.companies, companyId)
      ensures Snapshot() == UpdateT(old(Snapshot()), companyId, change, now)
      ensures store.lastCompanyRowId == old(store.lastCompanyRowId)
    {
      HasCompanyUpdate(store.companies, companyId, change, now, companyId);
      store.UpdateRow(companyId, change, now);
    }

    method Log(e: NewLog, now: Timestamp)
      requires Valid() && store.clock <= now && HasCompany(store.companies, e.company_id)
      modifies store
      ensures Valid() && store.clock == now && HasCompany(store.companies, e.company_id)
      ensures Snapshot() == AppendT(old(Snapshot()), e, now)
      ensures store.lastCompanyRowId == old(store.lastCompanyRowId)
    {
      var _ := store.AddProcessLog(e, now);
    }

    method RecordFailure(companyId: string, message: string, now: Timestamp)
      requires Valid() && store.clock <= now && HasCompany(store.companies, companyId)
      modifies store
      ensures Valid() && store.clock == now
      ensures Snapshot() == FailT(old(Snapshot()), companyId, message, now)
      ensures store.lastCompanyRowId == old(store.lastCompanyRowId)
    {
      SetColumn(companyId, SetStatus(Failed), now);
      Log(FailedEntry(companyId, message), now);
    }

    /** `processCompany` for a row of the store, given what the scraping service and the
        AI step answer. */
    method ProcessCompany(c: Company, scrape: ScrapeResult, ai: (string, Company) -> Result<string>, now: Timestamp)
      requires Valid() && store.clock <= now && HasCompany(store.companies, c.company_id)
      modifies this, store
      ensures Valid() && store.clock == now && !isProcessing && intervalId == old(intervalId)
      ensures Snapshot() == ProcessOne(old(Snapshot()), c, SimulateWebsiteCrawl(scrape), ai, now)
      ensures store.lastCompanyRowId == old(store.lastCompanyRowId)
    {
      isProcessing := true;
      RunCompany(c, scrape, ai, now);
      isProcessing := false;
    }

    /** The body of the `try` and `catch` blocks of `processCompany`: the writes to the store. */
    method RunCompany(c: Company, scrape: ScrapeResult, ai: (string, Company) -> Result<string>, now: Timestamp)
      requires Valid() && store.clock <= now && HasCompany(store.companies, c.company_id)
      modifies store
      ensures Valid() && store.clock == now
      ensures Snapshot() == ProcessOne(old(Snapshot()), c, SimulateWebsiteCrawl(scrape), ai, now)
      ensures store.lastCompanyRowId == old(store.lastCompanyRowId)
    {
      var id := c.company_id;
      SetColumn(id, SetStatus(Processing), now);
      Log(CrawlStarted(id), now);
      var crawled := SimulateWebsiteCrawl(scrape);
      if crawled.Err? {
        RecordFailure(id, crawled.message, now);
      } else {
        AfterCrawl(c, crawled.value, ai, now);
      }
    }

    /** The part of `processCompany` after the crawl returned `raw`. */
    method AfterCrawl(c: Company, raw: string, ai: (string, Company) -> Result<string>, now: Timestamp)
      requires Valid() && store.clock <= now && HasCompany(store.companies, c.company_id)
      modifies store
      ensures Valid() && store.clock == now
      ensures Snapshot() == AfterCrawlT(old(Snapshot()), c, raw, ai, now)
      ensures store.lastCompanyRowId == old(store.lastCompanyRowId)
    {
      var id := c.company_id;
      SetColumn(id, SetRawData(raw), now);
      Log(CrawlCompleted(id, raw), now);
      Log(AiStarted(id), now);
      AiStep(c, raw, ai, now);
    }

    /** The AI step of `processCompany` and what follows it. */
    method AiStep(c: Company, raw: string, ai: (string, Company) -> Result<string>, now: Timestamp)
      requires Valid() && store.clock <= now && HasCompany(store.companies, c.company_id)
      modifies store
      ensures Valid() && store.clock == now
      ensures Snapshot() == AiStepT(old(Snapshot()), c, raw, ai, now)
      ensures store.lastCompanyRowId == old(store.lastCompanyRowId)
    {
      var id := c.company_id;
      var processed := ai(raw, c);
      if processed.Err? {
        RecordFailure(id, processed.message, now);
      } else {
        SetColumn(id, SetProcessedData(processed.value), now);
        Log(AiCompleted(id), now);
        SetColumn(id, SetStatus(Completed), now);
      }
    }

    /** One timer tick: skipped while a company is being processed; otherwise every
        pending company, oldest first. */
    method ProcessPendingCompanies(queryOk: bool, scrape: string -> ScrapeResult,
                                   ai: (string, Company) -> Result<string>, now: Timestamp)
      requires Valid() && store.clock <= now
      modifies this, store
      ensures Valid() && store.clock <= now && intervalId == old(intervalId)
      ensures old(isProcessing) ==> isProcessing && Snapshot() == old(Snapshot())
      ensures !old(isProcessing) ==>
        !isProcessing && Snapshot() == ProcessAll(old(Snapshot()), old(GetPendingCompanies(queryOk)), scrape, ai, now)
      ensures store.lastCompanyRowId == old(store.lastCompanyRowId)
    {
      if isProcessing {
        return;
      }
      var pending := GetPendingCompanies(queryOk);
      ghost var t0 := Snapshot();
      var i := 0;
      while i < |pending|
        invariant 0 <= i <= |pending|
        invariant Valid() && store.clock <= now && !isProcessing && intervalId == old(intervalId)
        invariant store.lastCompanyRowId == old(store.lastCompanyRowId)
        invariant Snapshot() == ProcessAll(t0, pending[..i], scrape, ai, now)
        invariant SameKeys(t0.companies, store.companies)
      {
        PendingPresent(t0.companies, pending[i]);
        HasCompanySameKeys(t0.companies, store.companies, pending[i].company_id);
        ProcessCompany(pending[i], scrape(pending[i].website_url), ai, now);
        ProcessAllStep(t0, pending, i, scrape, ai, now);
        ProcessAllKeys(t0, pending[..i + 1], scrape, ai, now);
        i := i + 1;
      }
      FullPrefix(pending);
    }
  }
}
