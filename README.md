# as-decoder, modelled in Dafny

as-decoder is a small company-enrichment service. A client posts a company key, its
website and a source URL. The HTTP controller validates the request and queues the company
in an SQLite job store, together with a `received` log entry. A background processor then
picks up the pending companies, oldest first. For each one it crawls the website through a
scraper service, runs a mock AI step, and records the outcome as the company's status and as
log entries. Around that pipeline sit the following parts:
- an access check on the API and on the status page;
- a CRM stepper that runs four sub-steps, each guarded by a progress flag;
- a Twenty CRM client that builds payloads and note text;
- a Claude AI service that fills a prompt template, parses the reply and falls back to mock data;
- two Scrapy crawlers;
- two item pipelines, which clean, deduplicate and render the scraped pages.

The model has one module per core source file, plus shared modules:
- `Base`: the Option and Result types, filtering and deduplication.
- `Strings`: split/join, search, first-occurrence replacement and JavaScript's `String.replace` substitution patterns.
- `JsonValues`, `AiAnalysis`: parsed JSON and the analysis record.
- `PyText`: Python's `str.strip`, `re.sub(r'\s+', ' ', ·)`, the `\n{3,}` rule and the shared `clean_text`/`clean_content` logic.
- `ScrapedPages`: the page item, the ordering by (depth, path), page rendering, e-mail sets, URL normalisation and the `parse_page` item rules.

Code that changes state becomes classes with `modifies` clauses and loops with invariants:
- the processor service;
- the job store;
- the CRM progress object;
- the AI service;
- both pipelines;
- both spiders.

Each such class or loop is proved against a state function or a specification function. The
lemmas about those functions state what the source promises.

The source's own declarations promise more than the processor does:
- `src/types/index.ts:13` declares a `current_step` field with the steps `crawling`, `ai_processing` and `crm_sending`. `src/services/processor.ts` never writes it.
- `src/types/index.ts:23` and `src/db/index.ts:30` allow the log step `crm_sending`. The processor never calls the CRM stage, so it never logs that step.
- `src/services/processor.ts:127` logs every failure under the step `crawling`, whichever stage threw.

The model follows the code in each case.

Three places where the code does not do what it evidently means are listed under Findings.
Each is modelled twice: once as written, and once as intended. The rest of the model uses the
intended version.

## Model

| member | source | states |
|---|---|---|
| Processor.CrawlAsWritten | src/services/processor.ts:136-151 | the crawl check as written always fails: a successful scrape throws the TypeError of calling `trim` on an array, and an unsuccessful one throws its own error or the default message |
| Processor.SimulateWebsiteCrawl | src/services/processor.ts:136-151 | the intended check: the crawl succeeds exactly when the scrape succeeded and its text has a non-whitespace character, and then yields that text; an unsuccessful scrape fails as written |
| Processor.CrawlSucceedsOnText | src/services/processor.ts:142-143 | a successful scrape with a visible character passes the intended check, with its text |
| Processor.AsWrittenNeverCompletes | src/services/processor.ts:121-130 | with the check as written, every run marks the company `failed` and appends only the crawl-start and one failure entry; a successful scrape leaves the TypeError message |
| Processor.PendingOf | src/services/processor.ts:51-58 | the selected rows are exactly the pending ones of the table |
| Processor.PendingOldestFirst | src/services/processor.ts:53-57 | in a table ordered by creation time, the pending rows come out in ascending `created_at` |
| Processor.ProcessOneSucceeds | src/services/processor.ts:65-119 | a run whose crawl and AI step succeed leaves the row `completed` with `raw_data` and `processed_data` set, changes no other row, and appends exactly crawling/started, crawling/completed, ai_processing/started, ai_processing/completed |
| Processor.SucceedsRows | src/services/processor.ts:72-117 | on success only the rows with the company's key change: status `completed`, the crawl text in `raw_data`, the AI result in `processed_data`, `updated_at` the current time |
| Processor.SucceedsLogs | src/services/processor.ts:75-114 | on success exactly four entries are appended, in order crawl started, crawl completed, AI started, AI completed, with consecutive row ids |
| Processor.ProcessOneCrawlFails | src/services/processor.ts:121-130 | a failed crawl leaves the row `failed`, with its data columns untouched, and appends the crawl-start entry and one `failed` entry filed under `crawling` |
| Processor.ProcessOneAiFails | src/services/processor.ts:104-130 | a failed AI step keeps the raw data, marks the row `failed`, and the failure entry is still filed under `crawling` |
| Processor.AiFailsRows | src/services/processor.ts:86-124 | when the AI step throws, the company's row is `failed` and keeps the crawl text in `raw_data`; no other row changes |
| Processor.ProcessOneKeys | src/services/processor.ts:65-134 | a run never adds or removes a company and never changes a key |
| Processor.UpdateTKeys | src/services/processor.ts:72 | a status or data-column update keeps the rows and their keys |
| Processor.FailTKeys | src/services/processor.ts:121-130 | the catch block keeps the rows and their keys |
| Processor.AiStepTKeys | src/services/processor.ts:104-117 | the AI step and what follows keep the rows and their keys |
| Processor.ProcessAllKeys | src/services/processor.ts:43-45 | the whole loop keeps the same rows and keys |
| Processor.ProcessOneFinal | src/services/processor.ts:65-134 | a run leaves every other row alone and ends the company's row `completed` or `failed` |
| Processor.ProcessAllFinal | src/services/processor.ts:43-45 | after the loop every listed company is `completed` or `failed` and every other row is unchanged |
| Processor.PendingIds | src/services/processor.ts:53-57 | with unique keys, a row's key is listed among the pending ones exactly when the row is pending |
| Processor.SameIdSameRow | src/db/index.ts:17 | with unique company ids, two rows with the same key are the same row |
| Processor.TickFinishesPending | src/services/processor.ts:30-63 | one tick over a table with unique keys finishes every pending row and leaves every other row unchanged |
| Processor.ProcessAllStep | src/services/processor.ts:43-45 | the loop over a prefix one longer is one more `processCompany` |
| Processor.PendingPresent | src/services/processor.ts:51-58 | a selected company is in the table |
| Processor.HasCompanySameKeys | src/services/processor.ts:72 | updates that keep the keys keep the existence of every key |
| Processor.MockCompanyNameChars | src/services/processor.ts:160-162 | the mock name `company_id.split('-').map(capitalise).join(' ')` is the key with each hyphen turned into a space and each word's first character upper-cased |
| Processor.TitleFromChars | src/services/processor.ts:160-162 | that name, character by character |
| Processor.TitleSplit | src/services/processor.ts:160-162 | splitting at hyphens, capitalising the words and joining them with spaces is the same as replacing each hyphen by a space and upper-casing each word's first character |
| Processor.ProcessorService.constructor | src/services/processor.ts:6-8 | a new service is not processing and has no timer |
| Processor.ProcessorService.Start | src/services/processor.ts:10-20 | starting twice keeps the first timer; otherwise the new handle is installed |
| Processor.ProcessorService.Stop | src/services/processor.ts:22-28 | after `stop` there is no timer, whether or not one was running |
| Processor.ProcessorService.GetPendingCompanies | src/services/processor.ts:51-63 | the pending rows, or no rows when the query throws |
| Processor.ProcessorService.ProcessCompany | src/services/processor.ts:65-134 | the store's tables change as `ProcessOne` says for the crawl outcome, the store invariant holds, and `isProcessing` is false afterwards on both paths |
| Processor.ProcessorService.AfterCrawl | src/services/processor.ts:86-117 | the writes after a successful crawl, matching `AfterCrawlT` |
| Processor.ProcessorService.RunCompany | src/services/processor.ts:68-130 | the `try` and `catch` blocks of `processCompany` change the store exactly as `ProcessOne` says |
| Processor.ProcessorService.AiStep | src/services/processor.ts:103-130 | the AI call and what follows it change the store exactly as `AiStepT` says: the result, its entry and status `completed`, or the catch block |
| Processor.ProcessorService.RecordFailure | src/services/processor.ts:121-130 | status `failed` and one failure entry |
| Processor.ProcessorService.SetColumn | src/services/processor.ts:196-222 | one UPDATE of the company's row, with the store invariant kept |
| Processor.ProcessorService.Log | src/services/processor.ts:75-80 | one entry appended through `addProcessLog` |
| Processor.ProcessorService.ProcessPendingCompanies | src/services/processor.ts:30-49 | a tick while processing changes nothing; otherwise it runs every pending company of the table as it was at the start, in order, and ends not processing |
| CrmSync.Rank | src/services/crmService.ts:10-31 | each sub-step has one position in the fixed table |
| CrmSync.RankOf | src/services/crmService.ts:10-31 | the position of the i-th table entry is i |
| CrmSync.RunAllRaisesOnly | src/services/crmService.ts:46 | the loop only ever sets flags to true: every flag that was set stays set |
| CrmSync.RunAllSkipsDone | src/services/crmService.ts:39-57 | a sub-step whose flag was already set is never executed |
| CrmSync.ErrorIsFinal | src/services/crmService.ts:51-54 | once a sub-step has thrown, no later sub-step runs and nothing changes |
| CrmSync.RunAllSuccess | src/services/crmService.ts:38-58 | a run that returns normally leaves every sub-step of the list done |
| CrmSync.RunAllFailure | src/services/crmService.ts:51-54 | an aborted run ends with the sub-step that threw as the last one executed, and that sub-step's flag is still down |
| CrmSync.RunAllInOrder | src/services/crmService.ts:38 | the executed sub-steps appear in table order, each at most once |
| CrmSync.RanksSnoc | src/services/crmService.ts:38 | appending the next sub-step keeps the order |
| CrmSync.RunAllConcat | src/services/crmService.ts:38 | the loop over two lists is the loop over the first, then the second |
| CrmSync.StepCases | src/services/crmService.ts:39-57 | one sub-step: a finished one is skipped, one that succeeds is marked done, one that throws records its error and nothing else |
| CrmSync.RunAllPrefix | src/services/crmService.ts:38 | the sub-steps are run one after another, in list order |
| CrmSync.ErrorStops | src/services/crmService.ts:51-54 | once a sub-step has thrown, the later sub-steps do not change the outcome |
| CrmSync.StubsComplete | src/services/crmService.ts:63-79 | with the stub sub-steps, which never throw, every run sets all four flags |
| CrmSync.NoErrorWithStubs | src/services/crmService.ts:63-79 | sub-steps that never throw give no error |
| CrmSync.SendToCrmGuarantees | src/services/crmService.ts:33-61 | for any starting flags, flags only rise, set steps are skipped, and a normal return leaves all four flags true |
| CrmSync.CrmProgress.constructor | src/services/crmService.ts:36 | a progress object holds the given flags |
| CrmSync.SendToCrm | src/services/crmService.ts:33-61 | the object's flags end as the loop function says; a missing `crm_progress` starts from all-false, and a present one is updated in place |
| JobStore.ApplyChange | src/db/index.ts:42-46 | an UPDATE changes only the named column and the trigger sets `updated_at` to now; the key, id, URLs, step and creation time stay |
| JobStore.UpdateRows | src/services/queueService.ts:57-64 | each row with the given key gets the change and the new `updated_at`; every row with another key is left as it was |
| JobStore.UpdateRowsKeeps | src/services/queueService.ts:57-64 | an update keeps the table's length and every row's id and key, hence the set of keys and their uniqueness; an update for an unknown key changes nothing |
| JobStore.NullIfFalsy | src/services/queueService.ts:76-77 | an absent or empty text is stored as NULL, any other unchanged |
| JobStore.FindCompany | src/services/queueService.ts:43-46 | the row with the key if there is one, and none exactly when no row has it |
| JobStore.LogsOf | src/services/queueService.ts:48-55 | exactly the log entries of that company |
| JobStore.HasCompanyAppend | src/db/index.ts:15-25 | after an insert a key exists exactly when it existed or is the new row's |
| JobStore.HasCompanyUpdate | src/db/index.ts:42-46 | an update keeps the set of keys |
| JobStore.CompaniesOkAppend | src/db/index.ts:16-24 | inserting a row with a new key, the next row id and the current time keeps uniqueness, the id sequence and the time bounds |
| JobStore.CompaniesOkUpdate | src/db/index.ts:42-46 | an update keeps the company-table invariant |
| JobStore.CompaniesOkKeep | src/db/index.ts:42-46 | a change that keeps each row's id, key and creation time, and moves `updated_at` no later than now, keeps the company-table invariant |
| JobStore.CompaniesOkClock | src/db/index.ts:23-24 | the company-table invariant survives the clock moving forward |
| JobStore.LogsOkUpdate | src/db/index.ts:35 | an update of the companies keeps every log entry's foreign key valid |
| JobStore.LogsOkNewCompany | src/db/index.ts:35 | a new company keeps every log entry's foreign key valid |
| JobStore.LogsOkAppend | src/db/index.ts:27-35 | appending an entry for an existing company, with the next row id and the current time, keeps the log-table invariant |
| JobStore.LogsOkClock | src/db/index.ts:34 | a later clock keeps the log-table invariant |
| JobStore.Store.constructor | src/db/index.ts:13-48 | a freshly initialised database has both tables empty and satisfies the invariant |
| JobStore.Store.CreateCompany | src/services/queueService.ts:5-41 | a duplicate key gives "Company with ID X already exists" and leaves both tables unchanged; otherwise the row (status and step `pending`) and its received/completed/'Company queued successfully' entry are both added in one step |
| JobStore.Store.InsertCompany | src/services/queueService.ts:20-31 | the transaction body appends exactly the new row and its one log entry, with the next row ids |
| JobStore.Store.GetCompanyById | src/services/queueService.ts:43-46 | the row with that key, or none exactly when there is none |
| JobStore.Store.GetCompanyLogs | src/services/queueService.ts:48-55 | exactly that company's entries |
| JobStore.Store.GetRecentCompanies | src/services/queueService.ts:86-93 | the newest `limit` rows (default 10), newest first; a negative limit means no limit in SQLite, so then every row |
| JobStore.Store.UpdateRow | src/db/index.ts:42-46 | one UPDATE with the trigger, the invariant kept and the log untouched |
| JobStore.Store.UpdateCompanyStatus | src/services/queueService.ts:57-64 | only the status (and `updated_at`) of the matching row changes; the log is untouched |
| JobStore.Store.AddProcessLog | src/services/queueService.ts:66-84 | appends exactly one entry, empty message or data stored as NULL, and returns it as stored; an entry for an unknown company is refused by the foreign key and changes nothing |
| JobStore.CompanyLogsNewestFirst | src/services/queueService.ts:48-55 | a company's entries come newest first, by row id and by creation time |
| JobStore.ReversedNewestFirst | src/services/queueService.ts:48-55 | a company's entries in table order, read backwards, come newest first by id and by creation time |
| JobStore.LogsOfKeepsOrder | src/services/queueService.ts:48-55 | selecting one company's entries keeps the table order |
| JobStore.HeadPrecedes | src/db/index.ts:28 | the first entry precedes every later one |
| JobStore.PrependOrder | src/db/index.ts:28 | an entry earlier than all of an ordered list keeps it ordered in front |
| JobStore.RecentNewestFirst | src/services/queueService.ts:86-93 | the recent-companies listing is ordered newest first |
| Schema.MissingColumn | src/db/index.ts:15-25 | the first INSERT column the table does not declare, or none exactly when all are declared |
| Schema.CreateInsertFailsOnDeclaredSchema | src/services/queueService.ts:6-9 | against the declared `companies` table, the create statement names `current_step`, which the table lacks |
| Schema.CreateInsertPreparesWithStep | src/types/index.ts:7-18 | with the `current_step` column the `Company` type declares, every column of the create statement exists |
| QueueController.CreateResponse | src/controllers/queueController.ts:19-47 | 201 with the new row's id, key, status and creation time; 409 'Conflict' with the message when it mentions 'already exists'; 500 otherwise |
| QueueController.DuplicateIsConflict | src/controllers/queueController.ts:32 | the store's duplicate-key message contains 'already exists' |
| QueueController.MissingCharNotContained | src/controllers/queueController.ts:32 | a text lacking a character of the pattern does not contain it |
| QueueController.SchemaErrorIsInternal | src/controllers/queueController.ts:41-46 | with the declared schema, the create error is answered with 500 |
| QueueController.AddToQueue | src/controllers/queueController.ts:6-48 | a rejected request gets 400 with the details and leaves the store alone; a duplicate gets 409 and leaves the store alone; a new company gets 201 with the new row's id, key, status `pending` and time, and exactly that `pending` row and its `received`/`completed` entry are appended after the unchanged old rows and entries |
| QueueController.StatusResponse | src/controllers/queueController.ts:50-82 | an unknown key gets 404 "Company with ID X not found"; a known one gets 200 with its row and exactly its log entries; a database error gets 500 |
| QueueController.StatusLogsNewestFirst | src/controllers/queueController.ts:65-73 | the entries in a status reply are newest first |
| TwentyCrm.UuidShapes | src/services/twenty/twentyApi.ts:48-51 | the anchored pattern accepts exactly five hyphen-separated hex groups of lengths 8-4-4-4-12, in either case |
| TwentyCrm.UuidAsJoin | src/services/twenty/twentyApi.ts:48-51 | an accepted id is its five groups joined by hyphens |
| TwentyCrm.GroupsValid | src/services/twenty/twentyApi.ts:48-51 | five hex groups of the right lengths, joined by hyphens, are accepted |
| TwentyCrm.HexNoDash | src/services/twenty/twentyApi.ts:49 | a hex group holds no hyphen |
| TwentyCrm.Present | src/services/twenty/twentyApi.ts:69-126 | the spread `...(cond && {k: v})` keeps only present candidates, so the payload has no more keys than candidates |
| TwentyCrm.LookupHead | src/services/twenty/twentyApi.ts:69-126 | a key found first in the payload is the first entry's |
| TwentyCrm.LookupPresentHere | src/services/twenty/twentyApi.ts:69-126 | looking up a key in the spread of a list of candidates |
| TwentyCrm.Tabulate | src/services/twenty/twentyApi.ts:69-126 | one candidate per key, in source order |
| TwentyCrm.LookupTabulate | src/services/twenty/twentyApi.ts:69-126 | a listed key is in the payload exactly when its value is present, with that value |
| TwentyCrm.StrVal | src/services/twenty/twentyApi.ts:71-77 | a text field contributes exactly when it is truthy |
| TwentyCrm.IntVal | src/services/twenty/twentyApi.ts:73-74 | a number contributes exactly when it is truthy (present and not 0) |
| TwentyCrm.LinkVal | src/services/twenty/twentyApi.ts:80-103 | a link contributes exactly when its URL is truthy |
| TwentyCrm.ListVal | src/services/twenty/twentyApi.ts:114-125 | a list contributes exactly when it is present and not empty |
| TwentyCrm.AllCompanyKeys | src/services/twenty/twentyApi.ts:69-126 | every payload key is one of the listed spreads |
| TwentyCrm.UpdateValueFacts | src/services/twenty/twentyApi.ts:69-126 | each spread contributes exactly when its source field is set; a link key holds `{primaryLinkUrl: url, primaryLinkLabel: ''}` |
| TwentyCrm.UpdatePayloadKeys | src/services/twenty/twentyApi.ts:69-126 | the payload has a key exactly when its source field is set, with that spread's value |
| TwentyCrm.UpdatePayloadAllKeys | src/services/twenty/twentyApi.ts:69-126 | the same for all keys at once |
| TwentyCrm.UpdateLookup | src/services/twenty/twentyApi.ts:69-126 | the payload's value for a key is the spread's value |
| TwentyCrm.UpdateCompany | src/services/twenty/twentyApi.ts:53-131 | a non-UUID id fails with its message before anything else; then an empty API key fails; otherwise the request body is the payload |
| TwentyCrm.PersonPayloadFields | src/services/twenty/twentyApi.ts:148-177 | a person record always has `companyId`; it has `name` exactly when `first_name` is truthy, with `lastName` defaulting to ''; e-mail, title and phone appear exactly when set |
| TwentyCrm.PersonLookup | src/services/twenty/twentyApi.ts:148-177 | every field of the person record holds the value its part of the spread gives |
| TwentyCrm.CreatePeople | src/services/twenty/twentyApi.ts:133-188 | a missing or empty list returns before the id check, with no request; a bad id fails with no request; otherwise one POST per person, in order, whatever each POST's fate |
| TwentyCrm.NoteIdOf | src/services/twenty/twentyApi.ts:207-217 | the id is the first truthy of `data.createNote.id`, `data.notes[0].id`, `data.id`, `id`, or none when all are falsy; a null response throws |
| TwentyCrm.LinkRequest | src/services/twenty/twentyApi.ts:219-230 | a link request for the company is made exactly when some candidate id is truthy; otherwise no request and no error |
| TwentyCrm.CreateNoteIdFirst | src/services/twenty/twentyApi.ts:209-210 | a truthy `data.createNote.id` wins whatever else the response holds |
| TwentyCrm.Bullets | src/services/twenty/twentyApi.ts:238 | each list item gets the "• " prefix |
| TwentyCrm.FormatNoteContent | src/services/twenty/twentyApi.ts:233-262 | the note is '' exactly when no section applies; otherwise it starts with the first applicable section in source order, and each applicable section is followed by a blank line and the next applicable one |
| TwentyCrm.NoteSectionsFacts | src/services/twenty/twentyApi.ts:233-262 | the applicable sections joined by blank lines: empty exactly when none of the five conditions holds, starting with the first, each followed by the next after a blank line |
| TwentyCrm.JoinNonEmpty | src/services/twenty/twentyApi.ts:261 | a join of non-empty sections is empty exactly when there are none |
| TwentyCrm.JoinHead | src/services/twenty/twentyApi.ts:261 | a join starts with its first part |
| JsonValues.Member | src/services/ai/claudeAI.ts:162 | `JSON.parse` keeps the last of duplicate keys: a member found is an entry of the object, and none exactly when no entry has the key |
| ClaudeService.PromptsAgreeWithoutDollar | src/services/ai/claudeAI.ts:98-104 | without a `$` in any value, the prompt as written equals verbatim insertion at each first occurrence |
| ClaudeService.IndexOfAfterFree | src/services/ai/claudeAI.ts:98-104 | a placeholder is found where its first character first occurs |
| ClaudeService.ReplaceAfterFree | src/services/ai/claudeAI.ts:98-104 | first-occurrence replacement at that place |
| ClaudeService.JsReplaceAfterFree | src/services/ai/claudeAI.ts:98-104 | `String.replace` at that place inserts the expanded replacement |
| ClaudeService.NoSourcePlaceholder | src/services/ai/claudeAI.ts:86-94 | the fallback template has no `{{source_url}}`, so that replacement does nothing |
| ClaudeService.PromptHeadBraceFree | src/services/ai/claudeAI.ts:86-88 | the fallback template's opening text has no brace |
| ClaudeService.PromptTailBraceFree | src/services/ai/claudeAI.ts:92-94 | its closing text has no brace |
| ClaudeService.PromptPiecesBraceFree | src/services/ai/claudeAI.ts:86-94 | none of its literal pieces has a brace |
| ClaudeService.FirstTwoFilled | src/services/ai/claudeAI.ts:100-101 | the key and URL land in their places |
| ClaudeService.TemplateFilled | src/services/ai/claudeAI.ts:98-104 | a template laid out like the fallback gets the key, the URL and the content in place, and the missing source placeholder changes nothing |
| ClaudeService.FallbackPromptFilled | src/services/ai/claudeAI.ts:86-104 | the filled fallback prompt is its text with the key, the URL and the content in place |
| ClaudeService.TemplateDollarAsWritten | src/services/ai/claudeAI.ts:103 | as written, content `$$` is inserted as `$` |
| ClaudeService.DollarContentCollapses | src/services/ai/claudeAI.ts:98-104 | as written, content `$$` in the fallback prompt comes out as `$`, which differs from verbatim insertion |
| ClaudeService.FirstPos | src/services/ai/claudeAI.ts:157 | the first position of the character, or none when it does not occur |
| ClaudeService.LastPos | src/services/ai/claudeAI.ts:157 | the last position of the character, or none when it does not occur |
| ClaudeService.JsonSpanBounds | src/services/ai/claudeAI.ts:157-160 | the greedy match is missing exactly when no `}` follows a `{`; otherwise it runs from the first `{` to the last `}` |
| ClaudeService.ParseAIResponse | src/services/ai/claudeAI.ts:154-174 | success exactly when there is a span, it parses and it has truthy `company_data`, `people` and `services`, yielding the parsed value; every failure is 'Invalid AI response format' |
| ClaudeService.NoBraceNoAnalysis | src/services/ai/claudeAI.ts:158-160 | a reply without a brace always fails |
| ClaudeService.ReplyText | src/services/ai/claudeAI.ts:121-131 | a failed call fails; otherwise the first block's text, or '' for a non-text block; no block throws |
| ClaudeService.ReplyAnalysis | src/services/ai/claudeAI.ts:118-142 | a thrown call keeps its error; an answer with no block fails on the missing block; a first block of another kind fails with the format error; a first text block gives exactly what parsing its text gives; an analysis comes only from such a text block |
| ClaudeService.MockNameTailPrefix | src/services/ai/claudeAI.ts:179 | the first two hyphen-separated words, re-joined, are a prefix of the key, and all of it when it has at most two words |
| ClaudeService.MockCompanyName | src/services/ai/claudeAI.ts:179 | the mock name is "[MOCK DATA] " followed by that prefix |
| ClaudeService.ClaudeAI.constructor | src/services/ai/claudeAI.ts:60-96 | a client exists exactly when the key is truthy and the client constructor returned; the template is the file's text or the fallback |
| ClaudeService.ClaudeAI.LoadPrompt | src/services/ai/claudeAI.ts:78-96 | the template is the file's text, or the fallback when the file cannot be read |
| ClaudeService.ClaudeAI.ProcessContent | src/services/ai/claudeAI.ts:106-152 | the prompt is always returned; the source is `claude_ai` exactly when there is a client and the reply parses, with the parsed analysis; otherwise the result is the mock for that company; it never throws |
| Auth.FirstTruthy | src/middleware/auth.ts:18-21 | `a || b || c` is one of the operands, truthy exactly when some operand is, and the last operand when none is |
| Auth.FirstTruthyEarliest | src/middleware/auth.ts:18-21 | it is the earliest truthy operand |
| Auth.StripBearer | src/middleware/auth.ts:20 | the optional chain keeps an absent header absent |
| Auth.BearerHeader | src/middleware/auth.ts:20 | `Bearer <t>` yields `t` |
| Auth.CandidateOrder | src/middleware/auth.ts:18-21 | the candidate is the `x-auth-token` header if non-empty, else the stripped authorization header if non-empty, else the query token |
| Auth.Authorize | src/middleware/auth.ts:7-32 | with AUTH_TOKEN unset, empty or the placeholder, every request passes; otherwise a request passes exactly when the candidate equals the token, and is refused with 401 'Unauthorized. Please provide a valid auth token.' |
| Auth.AuthorizePage | src/middleware/auth.ts:35-53 | the same bypass; otherwise a request passes exactly when the query token equals the token, and is refused with the login page |
| Auth.NoTokenRefused | src/middleware/auth.ts:23-31 | with the check on, a request with no token anywhere is refused by both checks |
| Auth.HeaderDecides | src/middleware/auth.ts:18-21 | a non-empty `x-auth-token` decides alone |
| Auth.PageIgnoresHeaders | src/middleware/auth.ts:46 | the page check ignores both headers |
| Auth.BearerAccepted | src/middleware/auth.ts:20-25 | a correct bearer header without `x-auth-token` passes the API check |
| PyText.Strip | scraper-api/scraper/pipelines.py:72 | `str.strip` leaves no whitespace at either end and never lengthens |
| PyText.StripVisible | scraper-api/scraper/pipelines.py:72 | `str.strip` removes whitespace only: the non-whitespace characters stay, in order |
| PyText.StripEmpty | scraper-api/scraper/pipelines.py:140 | `strip()` yields the empty string exactly when every character is Python whitespace |
| PyText.Collapse | scraper-api/scraper/pipelines.py:72 | `re.sub(r'\s+', ' ', ·)` leaves only single spaces as whitespace, is empty exactly for the empty text, and keeps whether the ends are whitespace |
| PyText.CollapseVisible | scraper-api/scraper/pipelines.py:72 | `re.sub(r'\s+', ' ', ·)` keeps every non-whitespace character, in order |
| PyText.CollapseFixed | scraper-api/scraper/pipelines.py:72 | a collapsed text is unchanged by collapsing |
| PyText.CollapseTwice | scraper-api/scraper/pipelines.py:72 | collapsing is idempotent |
| PyText.CollapsedNoNewline | scraper-api/scraper/pipelines.py:72 | a collapsed text holds no newline |
| PyText.LastOfSuffix | scraper-api/scraper/pipelines.py:72 | the last character of a non-empty suffix is the text's last |
| PyText.TrimStartNoop | scraper-api/scraper/pipelines.py:80 | stripping the front of a text that starts with a non-space changes nothing |
| PyText.CleanLine | scraper-api/scraper/pipelines.py:72 | a cleaned line is collapsed, stripped and holds no newline |
| PyText.CleanLineVisible | scraper-api/scraper/pipelines.py:72 | cleaning a line changes its whitespace only |
| PyText.CleanLineFixed | scraper-api/scraper/pipelines.py:72 | cleaning a cleaned line changes nothing |
| PyText.KeptLines | scraper-api/scraper/spiders/website_spider.py:198-202 | the loop keeps at most as many lines as the text has |
| PyText.KeptLinesKept | scraper-api/scraper/spiders/website_spider.py:198-202 | every line the loop keeps is longer than the minimum, has no run of whitespace and no whitespace at either end |
| PyText.KeptLinesFilter | scraper-api/scraper/spiders/website_spider.py:198-202 | the kept lines are exactly the cleaned lines longer than the minimum, in input order |
| PyText.KeptLineShape | scraper-api/scraper/spiders/website_spider.py:200-201 | a kept line is not empty, holds no newline, and cleaning it again changes nothing |
| PyText.JoinKept | scraper-api/scraper/spiders/website_spider.py:205-208 | the kept lines joined by newlines hold no blank line and no outer whitespace, so the `\n{3,}` substitution and the final strip leave them alone, and splitting at newlines gives the lines back |
| PyText.KeptLinesFixed | scraper-api/scraper/spiders/website_spider.py:198-202 | keeping the lines of kept lines keeps them all |
| PyText.Repeat | scraper-api/scraper/pipelines.py:78 | `n` copies of a character |
| PyText.CapRunsFixed | scraper-api/scraper/pipelines.py:78 | the run-limiting substitution does nothing to a text without two adjacent copies of the character |
| PyText.CapRunsVisible | scraper-api/scraper/pipelines.py:78 | limiting the runs of a whitespace character keeps every other character, in order |
| PyText.JoinNoBlankLine | scraper-api/scraper/pipelines.py:77 | joining non-empty newline-free lines gives no empty line, and the join starts and ends with a line's characters |
| PyText.CleanLines | scraper-api/scraper/spiders/website_spider.py:189-208 | the loop of `clean_text` and `clean_content` computes `Cleaned` |
| PyText.CleanedIsJoin | scraper-api/scraper/pipelines.py:76-80 | the newline limit and the final strip do nothing: the result is the kept lines joined by newlines |
| PyText.CleanedLinesShape | scraper-api/scraper/spiders/website_spider.py:189-208 | every output line is longer than the minimum, collapsed and stripped; the output has no empty line and is stripped |
| PyText.CleanedTwice | scraper-api/scraper/pipelines.py:61-80 | cleaning is idempotent |
| ScrapedPages.StrLeTotal | scraper-api/scraper/pipelines.py:134 | Python's string order is total |
| ScrapedPages.StrLeTrans | scraper-api/scraper/pipelines.py:134 | and transitive |
| ScrapedPages.KeyLeTotal | scraper-api/scraper/pipelines.py:134 | the (depth, path) order is total |
| ScrapedPages.KeyLeTrans | scraper-api/scraper/pipelines.py:134 | and transitive |
| ScrapedPages.Insert | scraper-api/scraper/pipelines.py:134 | insertion adds exactly the one item |
| ScrapedPages.InsertSorted | scraper-api/scraper/pipelines.py:134 | insertion keeps a sorted list sorted |
| ScrapedPages.SortPages | scraper-api/scraper/pipelines.py:134 | sorting is a permutation |
| ScrapedPages.SortPagesSorted | scraper-api/scraper/pipelines.py:134 | the result is ordered by (depth, path) |
| ScrapedPages.SortPagesSameItems | scraper-api/scraper/pipelines.py:134 | sorting keeps the same items |
| ScrapedPages.FormatPage | scraper-api/scraper/pipelines.py:142 | a rendered page starts with "Page " |
| ScrapedPages.FormatKept | scraper-api/scraper/pipelines.py:136-144 | no more pages than items |
| ScrapedPages.FormatKeptShorter | scraper-api/scraper/pipelines.py:140 | a blank item makes the list shorter |
| ScrapedPages.FormatKeptEmpty | scraper-api/scraper/pipelines.py:136-144 | no pages exactly when every item is blank |
| ScrapedPages.FormatKeptSound | scraper-api/scraper/pipelines.py:136-144 | every page renders a non-blank item |
| ScrapedPages.FormatKeptComplete | scraper-api/scraper/pipelines.py:136-144 | every non-blank item is rendered |
| ScrapedPages.RenderPages | scraper-api/scraper/pipelines.py:133-144 | the sort and the rendering loop compute `Rendered` |
| ScrapedPages.RenderedCount | scraper-api/scraper/pipelines.py:50-56 | there are no more pages than items, and fewer when some item is blank, so `pagesVisited` can exceed the content count |
| ScrapedPages.RenderedEmpty | scraper-api/scraper/pipelines.py:128-144 | no pages exactly when every item is blank |
| ScrapedPages.RenderedPages | scraper-api/scraper/pipelines.py:128-144 | the pages are exactly the renderings of the non-blank items |
| ScrapedPages.ExtractEmails | scraper-api/scraper/pipelines.py:112-126 | no duplicates, none for empty text, and exactly the addresses the patterns find |
| ScrapedPages.AsSet | scraper-api/scraper/pipelines.py:35 | the set of a list's elements |
| ScrapedPages.EmailsOf | scraper-api/scraper/pipelines.py:35 | the union of every item's addresses |
| ScrapedPages.EmailsOfAppend | scraper-api/scraper/pipelines.py:35 | one more item adds its addresses |
| ScrapedPages.StartUrl | scraper-api/scraper/spiders/website_spider.py:16-21 | a missing or empty URL raises "URL parameter is required"; a URL with `http://` or `https://` is kept; any other gets `https://` in front |
| ScrapedPages.StartUrlTwice | scraper-api/scraper/spiders/website_spider.py:19-21 | normalising twice is normalising once |
| ScrapedPages.PageItem | scraper-api/scraper/spiders/website_spider.py:84-110 | an empty path becomes "/", a missing depth 0, a truthy title is stripped, and no e-mails yet |
| ApiPipeline.ReplaceChar | scraper-api/scraper/pipelines.py:103 | a character that does not occur leaves the text unchanged |
| ApiPipeline.ReplaceCharConcat | scraper-api/scraper/pipelines.py:103 | replacement distributes over concatenation |
| ApiPipeline.ApplyTableConcat | scraper-api/scraper/pipelines.py:102-103 | the table loop distributes over concatenation |
| ApiPipeline.TableIsAscii | scraper-api/scraper/pipelines.py:88-100 | every key of the table is outside ASCII and every replacement inside it |
| ApiPipeline.ApplyTableAscii | scraper-api/scraper/pipelines.py:102-103 | ASCII text passes the table unchanged |
| ApiPipeline.ApplyTableChar | scraper-api/scraper/pipelines.py:102-103 | one character becomes its table entry or stays |
| ApiPipeline.ApplyTableTranslates | scraper-api/scraper/pipelines.py:102-103 | applying the table entry by entry is one pass mapping each listed character to its ASCII text |
| ApiPipeline.Ascii | scraper-api/scraper/pipelines.py:82-110 | the result is all ASCII |
| ApiPipeline.HandleUnicode | scraper-api/scraper/pipelines.py:82-110 | the replacement loop, normalisation and filter compute `Ascii` |
| ApiPipeline.AsciiTranslates | scraper-api/scraper/pipelines.py:88-108 | `handle_unicode` is the one-pass translation, normalisation, then the characters below 128 |
| ApiPipeline.Processed | scraper-api/scraper/pipelines.py:24-34 | only content and e-mails change; non-empty content is cleaned and then made ASCII; the stored content is ASCII; empty content stays empty with no e-mails; the e-mails are those found in the stored content, without duplicates |
| ApiPipeline.UrlsOf | scraper-api/scraper/pipelines.py:22 | the URLs of the collected items |
| ApiPipeline.CollectKeepsInvariant | scraper-api/scraper/pipelines.py:22-37 | collecting a page with a new URL keeps the seen set equal to the collected URLs, each once, and the address set equal to the union |
| ApiPipeline.UrlsOfAppend | scraper-api/scraper/pipelines.py:22 | storing a page adds exactly its URL to the set of seen URLs |
| ApiPipeline.DistinctUrlsAppend | scraper-api/scraper/pipelines.py:22-37 | a page whose URL was not seen keeps the stored URLs distinct |
| ApiPipeline.ScrapedDataPipeline.constructor | scraper-api/scraper/pipelines.py:8-12 | nothing collected, nothing seen |
| ApiPipeline.ScrapedDataPipeline.ProcessItem | scraper-api/scraper/pipelines.py:14-38 | a seen URL hands the item back unchanged and changes nothing; a new one is cleaned, collected once, its URL marked seen and its addresses added |
| ApiPipeline.ScrapedDataPipeline.FormatContentArray | scraper-api/scraper/pipelines.py:128-144 | the rendered pages of the collected items |
| ApiPipeline.ScrapedDataPipeline.CloseSpider | scraper-api/scraper/pipelines.py:40-59 | success, the rendered pages, every address, no links, and the number of items collected |
| ScriptsPipeline.Processed | scripts/scraper/scraper/pipelines.py:13-23 | only content and e-mails change; non-empty content is cleaned; empty content gives no e-mails; the e-mails are those found in the stored content, without duplicates |
| ScriptsPipeline.ScrapedTextEmpty | scripts/scraper/scraper/pipelines.py:80-95 | the text is '' exactly when every page is blank, and otherwise starts with a page header |
| ScriptsPipeline.JoinStartsWith | scripts/scraper/scraper/pipelines.py:95 | a join starts with its first part's prefix |
| ScriptsPipeline.ScrapedDataPipeline.constructor | scripts/scraper/scraper/pipelines.py:6-8 | nothing collected |
| ScriptsPipeline.ScrapedDataPipeline.ProcessItem | scripts/scraper/scraper/pipelines.py:10-26 | every item is cleaned and collected, a repeated URL included, and its addresses added |
| ScriptsPipeline.ScrapedDataPipeline.FormatScrapedContent | scripts/scraper/scraper/pipelines.py:80-95 | '' for no items; otherwise the rendered pages joined by "\n\n---\n\n" |
| ScriptsPipeline.ScrapedDataPipeline.CloseSpider | scripts/scraper/scraper/pipelines.py:28-41 | success, the text, every address, no links, and the number of items collected |
| ApiSpider.FirstFound | scraper-api/scraper/spiders/website_spider.py:137-141 | the first selector that matches anything, an empty tag included, with no match before it; none exactly when no selector matches |
| ApiSpider.ChooseMain | scraper-api/scraper/spiders/website_spider.py:129-144 | the selector loop with its `break`, then the body when there is one, else the whole document, picks `MainElement` |
| ApiSpider.SubAll | scraper-api/scraper/spiders/website_spider.py:184-185 | a pattern whose first character does not occur leaves the text unchanged |
| ApiSpider.SubAllVisible | scraper-api/scraper/spiders/website_spider.py:184-185 | replacing a whitespace pattern by whitespace keeps every other character, in order |
| ApiSpider.SoupStepsVisible | scraper-api/scraper/spiders/website_spider.py:182-187 | the chain of rewrites and the final strip keep the non-whitespace characters of the joined text, in order |
| ApiSpider.SoupText | scraper-api/scraper/spiders/website_spider.py:153-187 | the extracted text has the non-whitespace characters of the joined pieces, in order, no whitespace at its ends, no two spaces in a row, no space after a newline and no space before one |
| ApiSpider.CapRunsOne | scraper-api/scraper/spiders/website_spider.py:183 | squashing runs of spaces to one leaves no two spaces in a row |
| ApiSpider.CloseLineStarts | scraper-api/scraper/spiders/website_spider.py:184 | dropping the space after each newline, on a text without double spaces, leaves neither a double space nor a space after a newline |
| ApiSpider.CloseLineEnds | scraper-api/scraper/spiders/website_spider.py:185 | dropping the space before each newline then also leaves no space before a newline, and keeps the other two properties |
| ApiSpider.StripKeepsNoPair | scraper-api/scraper/spiders/website_spider.py:187 | the final strip keeps every such pair out |
| ApiSpider.ThreeGapsUnlimited | scraper-api/scraper/spiders/website_spider.py:182-183 | the first two substitutions leave "a\n \n \nb" alone |
| ApiSpider.ThreeGapsClosed | scraper-api/scraper/spiders/website_spider.py:184 | dropping the spaces after newlines turns it into "a\n\n\nb" |
| ApiSpider.ThreeGapsSquashed | scraper-api/scraper/spiders/website_spider.py:179-184 | the first three steps on that text give "a\n\n\nb" |
| ApiSpider.ThreeNewlinesKept | scraper-api/scraper/spiders/website_spider.py:185-187 | the last step and the strip keep "a\n\n\nb" |
| ApiSpider.SoupTextKeepsThreeNewlines | scraper-api/scraper/spiders/website_spider.py:179-187 | the newline limit runs before the spaces are dropped, so the extracted text can hold three newlines in a row |
| ApiSpider.ExtractContent | scraper-api/scraper/spiders/website_spider.py:112-151 | the chosen element's text, cleaned with lines of at most two characters dropped; the content has no empty line and no whitespace at its ends |
| ApiSpider.ExtractedContentNoBlankLine | scraper-api/scraper/spiders/website_spider.py:189-207 | whatever newline runs the extracted text keeps, the cleaned content has no two newlines in a row and no whitespace at its ends |
| ApiSpider.EmptyMainElementChosen | scraper-api/scraper/spiders/website_spider.py:137-148 | an empty tag matched by the first selector is still the main element, so the content is empty whatever the body holds |
| ApiSpider.WebsiteSpider.constructor | scraper-api/scraper/spiders/website_spider.py:23-25 | the spider starts at the URL with nothing counted |
| ApiSpider.WebsiteSpider.ParsePage | scraper-api/scraper/spiders/website_spider.py:70-110 | every call counts one page; no item exactly when the count passes `max_pages`; otherwise the page's item with its extracted content |
| ApiSpider.NewSpider | scraper-api/scraper/spiders/website_spider.py:13-25 | a missing or empty URL raises with no spider; otherwise a new spider at the normalised URL with nothing counted |
| ScriptsSpider.KeptTexts | scripts/scraper/scraper/spiders/website_spider.py:155 | each kept text node is stripped and non-empty |
| ScriptsSpider.KeptTextsFilter | scripts/scraper/scraper/spiders/website_spider.py:155 | the kept texts are exactly the stripped text nodes that are not empty, in order |
| ScriptsSpider.ElementTexts | scripts/scraper/scraper/spiders/website_spider.py:152-174 | one text per element, in order, each joined by newlines when a contact pattern matches and by spaces otherwise |
| ScriptsSpider.ExtractTextWithStructure | scripts/scraper/scraper/spiders/website_spider.py:142-176 | the loop computes the element texts joined by newlines, '' for no elements |
| ScriptsSpider.ContactNodesAreLines | scripts/scraper/scraper/spiders/website_spider.py:169-172 | with contact details, each kept text node without its own newline becomes one line |
| ScriptsSpider.FirstSubstantial | scripts/scraper/scraper/spiders/website_spider.py:104-110 | the first selector that matched something whose text is longer than 50 characters after stripping, with none before it; none exactly when no selector qualifies |
| ScriptsSpider.ContentParts | scripts/scraper/scraper/spiders/website_spider.py:101-134 | at most one part |
| ScriptsSpider.ExtractContent | scripts/scraper/scraper/spiders/website_spider.py:91-140 | the selector loop with its `break`, the body fallback, the join and the cleanup compute `ExtractedContent` |
| ScriptsSpider.BodyFallback | scripts/scraper/scraper/spiders/website_spider.py:112-134 | with no substantial main area, the content is the cleaned, unfiltered body text, or '' without a body |
| ScriptsSpider.MainAreaChosen | scripts/scraper/scraper/spiders/website_spider.py:104-110 | with a substantial main area, the content is the first such area's text, cleaned |
| ScriptsSpider.FirstSubstantialAt | scripts/scraper/scraper/spiders/website_spider.py:104-110 | the selector loop stops at the first main area with substantial text and takes that text |
| ScriptsSpider.WebsiteSpider.constructor | scripts/scraper/scraper/spiders/website_spider.py:21-33 | the spider starts at the URL with the depth limit |
| ScriptsSpider.WebsiteSpider.ParsePage | scripts/scraper/scraper/spiders/website_spider.py:60-89 | the page's item with its extracted content |
| ScriptsSpider.NewSpider | scripts/scraper/scraper/spiders/website_spider.py:11-21 | a missing or empty URL raises with no spider; otherwise a new spider at the normalised URL |
| Strings.JoinSplit | scraper-api/scraper/pipelines.py:67-77 | joining the pieces of a split gives the text back |
| Strings.SplitJoin | scraper-api/scraper/pipelines.py:67-77 | splitting a join of separator-free pieces gives the pieces back |
| Strings.ReplaceFirstUndo | src/services/ai/claudeAI.ts:98-104 | replacing the first occurrence keeps the text before it, puts the replacement where the pattern stood, changes the length by the difference, and putting the pattern back gives the original text |
| Strings.JsReplace | src/services/ai/claudeAI.ts:98-104 | `String.replace` with a string pattern leaves a text without the pattern unchanged, and with a replacement free of `$` it is the verbatim replacement of the first occurrence |
| Strings.SubstitutionEscaped | src/services/ai/claudeAI.ts:98-104 | a replacement whose `$` are all doubled expands, in `String.replace`, back to the original replacement |
| Strings.JsReplaceEscaped | src/services/ai/claudeAI.ts:98-104 | `String.replace` with every `$` of the replacement doubled is the verbatim replacement of the first occurrence |
| Strings.JoinAdjacent | src/services/twenty/twentyApi.ts:261 | in a join, each part is followed by the separator and the next part |
| Strings.Trim | src/services/processor.ts:142 | `trim` leaves no whitespace at either end |
| Strings.TrimEmpty | src/services/processor.ts:142 | the trimmed text is empty exactly when every character is whitespace |

## Left out

- Network and SDK calls are left out: the scraper service, the Twenty CRM requests (`makeRequest`), `crmApi.ts` and the Anthropic call. Each becomes a parameter: the scrape result, `postOk`, the sub-step outcome `exec`, and the API reply.
- File and process I/O is left out. The prompt file becomes an optional text. The JSON printed to stdout becomes the `Summary` value. Subprocesses, timeouts and stdout capture are not modelled.
- Timers are left out. `setInterval` becomes a handle parameter of `Start`. One tick is a method guarded by `isProcessing`; how concurrent ticks interleave is a concurrency question and not modelled.
- JobStore.Store.GetRecentCompanies: rows with the same `created_at` are listed newest-inserted first. SQLite leaves the order of such ties to `ORDER BY created_at DESC` unspecified, so the model fixes one order where the source promises none.
- Clocks and dates become a `Timestamp` parameter. Every store method requires that the clock does not go back, so creation order is insertion order. The processing delay, the note title's date and the timing logs are not modelled.
- The mock structured data that `processWithAI` serialises with `JSON.stringify` is left out; only its name rule is kept. The AI step of the processor is a parameter that may fail, because the processor treats it as a stage that can throw.
- Failures of the database writes inside `processCompany` are left out: `SetColumn` and `Log` always succeed for an existing company.
- Library semantics become parameters:
  - the e-mail regular expressions (`found`);
  - the contact-detail patterns (`contact`);
  - `JSON.parse` (`decode`);
  - NFKD normalisation (`nfkd`).
- Page traversal is given as data rather than modelled:
  - `urlparse`: the path arrives in `Fetched`;
  - BeautifulSoup and the Scrapy selectors: `Element`, `Node` and `Page`.
- JSON numbers are integers.
- The Scrapy configuration is left out: `allowed_domains`, the link-extraction rules, `custom_settings` (depth limit, delay, page-count close) and `settings.py`. The crawl order is Scrapy's.
- `int(max_pages)` and `int(max_depth)` are not modelled: the model takes integers.
- Request validation (`src/utils/validation.ts`, a Joi schema) becomes the validator's verdict, an input of `AddToQueue`.
- The Express wiring, the JSON-detection middleware, the server, the routes, the CLI scripts and the tests are left out.
- `req.authenticated = true` is left out; `Pass` stands for setting it and calling `next`. The login page's HTML is the single value `LoginPage`.
- ScrapedPages.SortPages: proves the result is a permutation ordered by (depth, path). It does not prove that Python's `sorted` keeps items with equal keys in their original order.
- ScrapedPages.ExtractEmails: `list(set(emails))` has no specified order. The model keeps each first occurrence, and only the set of addresses and their distinctness are stated.
- JobStore.Store.GetCompanyLogs: `ORDER BY created_at DESC` leaves the order of entries with the same timestamp to SQLite. The model lists them newest insertion first, which is one of the orders SQLite may return.
- JobStore.Store.CreateCompany: models the table with the `current_step` column, so the insert succeeds (see Findings). Within one transaction, database errors other than the duplicate key are not modelled.
- ScriptsSpider.WebsiteSpider.constructor: the depth limit is stored but not enforced, because Scrapy enforces it.
- Processor.MockCompanyNameChars: `toUpperCase` is modelled by `UpperChar`, which maps only ASCII letters. JavaScript's full Unicode mapping (which can also lengthen a text, as 'ß' becomes "SS") is not modelled, so the modelled name agrees with the source's only when the first character of every word is ASCII or one that `toUpperCase` leaves as it is.
- Processor.TitleFromChars: the same ASCII-only `UpperChar` stands for `toUpperCase`.
- Processor.MockCompanyName: the same ASCII-only `UpperChar` stands for `toUpperCase`.
- Processor.ProcessorService.GetPendingCompanies: `ORDER BY created_at ASC` leaves the order of rows with the same timestamp to SQLite. The model keeps insertion order, one of the orders SQLite may return.
- ApiSpider.NewSpider: the defaults of `max_depth` (2) and `max_pages` (10) are not modelled; the caller always passes the page limit.
- TwentyCrm.CreatePeople: a `null` entry in the people list makes `person.email` throw; the model's people are always records, so that throw is not modelled.
- Processor.CrawlCompleted: the log text `${rawData.length} characters extracted` counts UTF-16 code units; the model counts characters, `|raw|`.
- The code of `website_spider.py` for cleanup is identical in both spiders, as is `clean_text` in both pipelines. Each is one definition in `PyText`, with the line minimum as a parameter (0 for `clean_text`, 2 for `clean_content`).

## Findings

| source | as written | input that shows it | evidently intended | confidence | as-written member | corrected member |
|---|---|---|---|---|---|---|
| src/services/processor.ts:142 | `result.content.trim()` is called on `content`, which the scraper declares as `string[]`; arrays have no `trim`, so every successful scrape throws a TypeError and the company ends `failed` | a scrape result with `success: true` and `content: ["Welcome"]` | the crawl succeeds when the pages hold some non-blank text, and yields that text | high, not executed | Processor.AsWrittenNeverCompletes | Processor.SimulateWebsiteCrawl |
| src/services/ai/claudeAI.ts:98-104 | `String.replace` with a string replacement expands `$$`, `$&`, `` $` `` and `$'`, so scraped content holding those sequences is altered in the prompt | content `$$` with the fallback template: the prompt holds `$` | each value is inserted verbatim at its placeholder | medium, not executed | ClaudeService.DollarContentCollapses | ClaudeService.FallbackPromptFilled |
| src/services/queueService.ts:7 | the create statement inserts `current_step`, a column the `companies` table in `src/db/index.ts` does not declare; the statement cannot be prepared and every create is answered with 500 | any create request against a freshly initialised database | the table has the `current_step` column that `src/types/index.ts:13` declares, and the create succeeds | high, not executed | Schema.CreateInsertFailsOnDeclaredSchema | Schema.CreateInsertPreparesWithStep |
