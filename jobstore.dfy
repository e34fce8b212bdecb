/** The job store: the `companies` and `process_logs` tables of the SQLite
    schema and the queue service that reads and writes them.  The table
    constraints (enumerated values, unique `company_id`, the foreign key from a
    log entry to its company, auto-incremented row ids, the trigger that
    refreshes `updated_at`) are the invariant `Valid()` of the store object. */
module JobStore {
  import opened Base
  import opened Strings

  datatype CompanyStatus = Pending | Processing | Completed | Failed
  datatype CurrentStep = StepPending | StepCrawling | StepAiProcessing | StepCrmSending | StepCompleted
  datatype LogStep = Received | Crawling | AiProcessing | CrmSending
  datatype LogStatus = LogStarted | LogCompleted | LogFailed

  /** Timestamps are the values of SQLite's CURRENT_TIMESTAMP, as a count of seconds. */
  type Timestamp = nat

  datatype QueueRequest = QueueRequest(company_id: string, website_url: string, source_url: string)

  datatype Company = Company(
    id: nat,
    company_id: string,
    website_url: string,
    source_url: string,
    status: CompanyStatus,
    current_step: CurrentStep,
    raw_data: Option<string>,
    processed_data: Option<string>,
    created_at: Timestamp,
    updated_at: Timestamp)

  datatype ProcessLog = ProcessLog(
    id: nat,
    company_id: string,
    step: LogStep,
    status: LogStatus,
    message: Option<string>,
    data: Option<string>,
    created_at: Timestamp)

  /** The argument of `addProcessLog`: a log entry without its id and time. */
  datatype NewLog = NewLog(
    company_id: string,
    step: LogStep,
    status: LogStatus,
    message: Option<string>,
    data: Option<string>)

  /** One `UPDATE companies SET ... WHERE company_id = ?` statement. */
  datatype RowChange = SetStatus(status: CompanyStatus) | SetRawData(raw: string) | SetProcessedData(processed: string)

  predicate HasCompany(rows: seq<Company>, companyId: string) {
    exists i :: 0 <= i < |rows| && rows[i].company_id == companyId
  }

  predicate UniqueCompanyIds(rows: seq<Company>) {
    forall i, j :: 0 <= i < j < |rows| ==> rows[i].company_id != rows[j].company_id
  }

  /** The row after one update: the changed column and the trigger's `updated_at`. */
  function ApplyChange(c: Company, change: RowChange, now: Timestamp): (r: Company)
    ensures r.updated_at == now
    ensures r.id == c.id && r.company_id == c.company_id && r.created_at == c.created_at
    ensures r.website_url == c.website_url && r.source_url == c.source_url && r.current_step == c.current_step
    ensures r.status == (if change.SetStatus? then change.status else c.status)
    ensures r.raw_data == (if change.SetRawData? then Some(change.raw) else c.raw_data)
    ensures r.processed_data == (if change.SetProcessedData? then Some(change.processed) else c.processed_data)
  {
    match change
    case SetStatus(s) => c.(status := s, updated_at := now)
    case SetRawData(d) => c.(raw_data := Some(d), updated_at := now)
    case SetProcessedData(d) => c.(processed_data := Some(d), updated_at := now)
  }

  /** The table after `UPDATE ... WHERE company_id = companyId`: only matching rows change. */
  function UpdateRows(rows: seq<Company>, companyId: string, change: RowChange, now: Timestamp): (r: seq<Company>)
    ensures |r| == |rows|
    ensures forall i :: 0 <= i < |rows| ==>
      r[i] == if rows[i].company_id == companyId then ApplyChange(rows[i], change, now) else rows[i]
  {
    seq(|rows|, i requires 0 <= i < |rows| =>
      if rows[i].company_id == companyId then ApplyChange(rows[i], change, now) else rows[i])
  }

  /** An update keeps every row's id and key (so the set of keys and their uniqueness),
      and one for an unknown key leaves the table as it was. */
  lemma UpdateRowsKeeps(rows: seq<Company>, companyId: string, change: RowChange, now: Timestamp)
    ensures var r := UpdateRows(rows, companyId, change, now);
      (forall i :: 0 <= i < |rows| ==> r[i].id == rows[i].id && r[i].company_id == rows[i].company_id)
      && (!HasCompany(rows, companyId) ==> r == rows)
      && (HasCompany(r, companyId) <==> HasCompany(rows, companyId))
      && (UniqueCompanyIds(rows) ==> UniqueCompanyIds(r))
  {
  }

  /** `log.message || null`: an absent or empty text is stored as NULL. */
  function NullIfFalsy(s: Option<string>): (r: Option<string>)
    ensures r.Some? <==> s.Some? && s.value != ""
    ensures r.Some? ==> r == s
  {
    if s.Some? && s.value != "" then s else None
  }

  const ReceivedMessage: string := "Company queued successfully"

  function DuplicateMessage(companyId: string): string {
    "Company with ID " + companyId + " already exists"
  }

  const ForeignKeyMessage: string := "FOREIGN KEY constraint failed"

  /** The first row with the given `company_id`. */
  function FindCompany(rows: seq<Company>, companyId: string): (r: Option<Company>)
    ensures r.Some? ==> r.value in rows && r.value.company_id == companyId
    ensures r.None? <==> !HasCompany(rows, companyId)
  {
    if rows == [] then None
    else if rows[0].company_id == companyId then Some(rows[0])
    else
      var r := FindCompany(rows[1..], companyId);
      assert HasCompany(rows[1..], companyId) ==> HasCompany(rows, companyId) by {
        if HasCompany(rows[1..], companyId) {
          var i :| 0 <= i < |rows[1..]| && rows[1..][i].company_id == companyId;
          assert rows[i + 1].company_id == companyId;
        }
      }
      assert HasCompany(rows, companyId) ==> HasCompany(rows[1..], companyId) by {
        if HasCompany(rows, companyId) {
          var i :| 0 <= i < |rows| && rows[i].company_id == companyId;
          assert i > 0 && rows[1..][i - 1].company_id == companyId;
        }
      }
      r
  }

  /** The log entries of one company, in table order. */
  function LogsOf(logs: seq<ProcessLog>, companyId: string): (r: seq<ProcessLog>)
    ensures forall k :: 0 <= k < |r| ==> r[k].company_id == companyId && r[k] in logs
    ensures forall k :: 0 <= k < |logs| && logs[k].company_id == companyId ==> logs[k] in r
  {
    if logs == [] then []
    else (if logs[0].company_id == companyId then [logs[0]] else []) + LogsOf(logs[1..], companyId)
  }

  /** The company-table part of the store invariant. */
  ghost predicate CompaniesOk(rows: seq<Company>, lastId: nat, clock: Timestamp) {
    UniqueCompanyIds(rows)
    && (forall i :: 0 <= i < |rows| ==> 0 < rows[i].id <= lastId)
    && (forall i, j :: 0 <= i < j < |rows| ==> rows[i].id < rows[j].id)
    && (forall i :: 0 <= i < |rows| ==> rows[i].created_at <= rows[i].updated_at <= clock)
    && (forall i, j :: 0 <= i < j < |rows| ==> rows[i].created_at <= rows[j].created_at)
  }

  /** Increasing ids and times, as AUTOINCREMENT and a monotone clock give them. */
  ghost predicate LogOrder(logs: seq<ProcessLog>) {
    forall k, l :: 0 <= k < l < |logs| ==> logs[k].id < logs[l].id && logs[k].created_at <= logs[l].created_at
  }

  /** The log-table part of the store invariant, with its foreign key into `rows`. */
  ghost predicate LogsOk(logs: seq<ProcessLog>, rows: seq<Company>, lastId: nat, clock: Timestamp) {
    (forall k :: 0 <= k < |logs| ==> HasCompany(rows, logs[k].company_id))
    && (forall k :: 0 <= k < |logs| ==> 0 < logs[k].id <= lastId && logs[k].created_at <= clock)
    && LogOrder(logs)
  }

  lemma HasCompanyAppend(rows: seq<Company>, c: Company, companyId: string)
    ensures HasCompany(rows + [c], companyId) <==> HasCompany(rows, companyId) || c.company_id == companyId
  {
    if HasCompany(rows, companyId) {
      var i :| 0 <= i < |rows| && rows[i].company_id == companyId;
      assert (rows + [c])[i] == rows[i];
    }
    if c.company_id == companyId {
      assert (rows + [c])[|rows|] == c;
    }
    if HasCompany(rows + [c], companyId) {
      var i :| 0 <= i < |rows + [c]| && (rows + [c])[i].company_id == companyId;
      if i < |rows| { assert rows[i] == (rows + [c])[i]; }
    }
  }

  lemma HasCompanyUpdate(rows: seq<Company>, target: string, change: RowChange, now: Timestamp, companyId: string)
    ensures HasCompany(UpdateRows(rows, target, change, now), companyId) <==> HasCompany(rows, companyId)
  {
    var upd := UpdateRows(rows, target, change, now);
    if HasCompany(rows, companyId) {
      var i :| 0 <= i < |rows| && rows[i].company_id == companyId;
      assert upd[i].company_id == companyId;
    }
    if HasCompany(upd, companyId) {
      var i :| 0 <= i < |upd| && upd[i].company_id == companyId;
      assert rows[i].company_id == companyId;
    }
  }

  /** Appending a new row with a fresh id, a fresh row id and the current time keeps the invariant. */
  lemma CompaniesOkAppend(rows: seq<Company>, lastId: nat, clock: Timestamp, c: Company, now: Timestamp)
    requires CompaniesOk(rows, lastId, clock) && clock <= now
    requires !HasCompany(rows, c.company_id)
    requires c.id == lastId + 1 && c.created_at == now && c.updated_at == now
    ensures CompaniesOk(rows + [c], lastId + 1, now)
  {
    var r := rows + [c];
    forall i, j | 0 <= i < j < |r| ensures r[i].company_id != r[j].company_id {
      if j == |rows| {
        assert r[i] == rows[i];
      }
    }
  }

  /** Row by row, `b` keeps the ids and creation times of `a` and has been touched by `now` at the latest. */
  ghost predicate SameIdentities(a: seq<Company>, b: seq<Company>, now: Timestamp) {
    |a| == |b|
    && forall i :: 0 <= i < |a| ==>
         b[i].id == a[i].id && b[i].company_id == a[i].company_id && b[i].created_at == a[i].created_at
         && b[i].created_at <= b[i].updated_at <= now
  }

  lemma CompaniesOkKeep(a: seq<Company>, b: seq<Company>, lastId: nat, clock: Timestamp, now: Timestamp)
    requires CompaniesOk(a, lastId, clock) && SameIdentities(a, b, now)
    ensures CompaniesOk(b, lastId, now)
  {
    forall i, j | 0 <= i < j < |b|
      ensures b[i].company_id != b[j].company_id && b[i].id < b[j].id && b[i].created_at <= b[j].created_at
    {
      assert a[i].company_id != a[j].company_id && a[i].id < a[j].id && a[i].created_at <= a[j].created_at;
    }
  }

  /** An UPDATE keeps every part of the company-table invariant. */
  lemma CompaniesOkUpdate(rows: seq<Company>, lastId: nat, clock: Timestamp, target: string, change: RowChange, now: Timestamp)
    requires CompaniesOk(rows, lastId, clock) && clock <= now
    ensures CompaniesOk(UpdateRows(rows, target, change, now), lastId, now)
  {
    var u := UpdateRows(rows, target, change, now);
    forall i | 0 <= i < |rows|
      ensures u[i].id == rows[i].id && u[i].company_id == rows[i].company_id && u[i].created_at == rows[i].created_at
      ensures u[i].created_at <= u[i].updated_at <= now
    {
      if rows[i].company_id == target {
        assert u[i] == ApplyChange(rows[i], change, now);
      } else {
        assert u[i] == rows[i];
      }
    }
    CompaniesOkKeep(rows, u, lastId, clock, now);
  }

  lemma LogsOkUpdate(logs: seq<ProcessLog>, rows: seq<Company>, lastId: nat, clock: Timestamp,
                     target: string, change: RowChange, now: Timestamp)
    requires LogsOk(logs, rows, lastId, clock) && clock <= now
    ensures LogsOk(logs, UpdateRows(rows, target, change, now), lastId, now)
  {
    forall k | 0 <= k < |logs| ensures HasCompany(UpdateRows(rows, target, change, now), logs[k].company_id) {
      HasCompanyUpdate(rows, target, change, now, logs[k].company_id);
    }
  }

  lemma LogsOkNewCompany(logs: seq<ProcessLog>, rows: seq<Company>, lastId: nat, clock: Timestamp, c: Company, now: Timestamp)
    requires LogsOk(logs, rows, lastId, clock) && clock <= now
    ensures LogsOk(logs, rows + [c], lastId, now)
  {
    forall k | 0 <= k < |logs| ensures HasCompany(rows + [c], logs[k].company_id) {
      HasCompanyAppend(rows, c, logs[k].company_id);
    }
  }

  lemma LogsOkAppend(logs: seq<ProcessLog>, rows: seq<Company>, lastId: nat, clock: Timestamp, e: ProcessLog, now: Timestamp)
    requires LogsOk(logs, rows, lastId, clock) && clock <= now
    requires HasCompany(rows, e.company_id) && e.id == lastId + 1 && e.created_at == now
    ensures LogsOk(logs + [e], rows, lastId + 1, now)
  {
    var r := logs + [e];
    forall k | 0 <= k < |r| ensures HasCompany(rows, r[k].company_id) {
      if k < |logs| { assert r[k] == logs[k]; }
    }
  }

  lemma CompaniesOkClock(rows: seq<Company>, lastId: nat, clock: Timestamp, now: Timestamp)
    requires CompaniesOk(rows, lastId, clock) && clock <= now
    ensures CompaniesOk(rows, lastId, now)
  {
  }

  lemma LogsOkClock(logs: seq<ProcessLog>, rows: seq<Company>, lastId: nat, clock: Timestamp, now: Timestamp)
    requires LogsOk(logs, rows, lastId, clock) && clock <= now
    ensures LogsOk(logs, rows, lastId, now)
  {
  }

  class Store {
    var companies: seq<Company>
    var logs: seq<ProcessLog>
    /** The AUTOINCREMENT sequences of the two tables. */
    var lastCompanyRowId: nat
    var lastLogRowId: nat
    /** The last CURRENT_TIMESTAMP the store has seen. */
    var clock: Timestamp

    ghost predicate Valid()
      reads this
    {
      CompaniesOk(companies, lastCompanyRowId, clock) && LogsOk(logs, companies, lastLogRowId, clock)
    }

    /** A freshly initialised database: both tables empty. */
    constructor ()
      ensures Valid()
      ensures companies == [] && logs == [] && lastCompanyRowId == 0 && lastLogRowId == 0 && clock == 0
    {
      companies, logs := [], [];
      lastCompanyRowId, lastLogRowId := 0, 0;
      clock := 0;
    }

    /** Inserts the company and its `received` log entry in one transaction. */
    method CreateCompany(req: QueueRequest, now: Timestamp) returns (r: Result<Company>)
      requires Valid() && clock <= now
      modifies this
      ensures Valid() && clock == now
      ensures HasCompany(old(companies), req.company_id) ==>
        r == Err(DuplicateMessage(req.company_id))
        && companies == old(companies) && logs == old(logs)
        && lastCompanyRowId == old(lastCompanyRowId) && lastLogRowId == old(lastLogRowId)
      ensures !HasCompany(old(companies), req.company_id) ==>
        r == Ok(Company(old(lastCompanyRowId) + 1, req.company_id, req.website_url, req.source_url,
                        Pending, StepPending, None, None, now, now))
        && companies == old(companies) + [r.value]
        && logs == old(logs) + [ProcessLog(old(lastLogRowId) + 1, req.company_id, Received, LogCompleted,
                                           Some(ReceivedMessage), None, now)]
        && lastCompanyRowId == old(lastCompanyRowId) + 1 && lastLogRowId == old(lastLogRowId) + 1
    {
      if FindCompany(companies, req.company_id).Some? {
        // SQLITE_CONSTRAINT_UNIQUE: the transaction is rolled back.
        LogsOkClock(logs, companies, lastLogRowId, clock, now);
        clock := now;
        return Err(DuplicateMessage(req.company_id));
      }
      var c := InsertCompany(req, now);
      r := Ok(c);
    }

    /** The body of the transaction, once the unique key admits the row. */
    method InsertCompany(req: QueueRequest, now: Timestamp) returns (c: Company)
      requires Valid() && clock <= now
      requires !HasCompany(companies, req.company_id)
      modifies this
      ensures Valid() && clock == now
      ensures c == Company(old(lastCompanyRowId) + 1, req.company_id, req.website_url, req.source_url,
                           Pending, StepPending, None, None, now, now)
      ensures companies == old(companies) + [c]
      ensures logs == old(logs) + [ProcessLog(old(lastLogRowId) + 1, req.company_id, Received, LogCompleted,
                                              Some(ReceivedMessage), None, now)]
      ensures lastCompanyRowId == old(lastCompanyRowId) + 1 && lastLogRowId == old(lastLogRowId) + 1
    {
      c := Company(lastCompanyRowId + 1, req.company_id, req.website_url, req.source_url,
                   Pending, StepPending, None, None, now, now);
      var entry := ProcessLog(lastLogRowId + 1, req.company_id, Received, LogCompleted,
                              Some(ReceivedMessage), None, now);
      CompaniesOkAppend(companies, lastCompanyRowId, clock, c, now);
      LogsOkNewCompany(logs, companies, lastLogRowId, clock, c, now);
      HasCompanyAppend(companies, c, req.company_id);
      LogsOkAppend(logs, companies + [c], lastLogRowId, now, entry, now);
      companies := companies + [c];
      logs := logs + [entry];
      lastCompanyRowId := lastCompanyRowId + 1;
      lastLogRowId := lastLogRowId + 1;
      clock := now;
    }

    /** `SELECT * FROM companies WHERE company_id = ?`. */
    function GetCompanyById(companyId: string): (r: Option<Company>)
      reads this
      ensures r.Some? ==> r.value in companies && r.value.company_id == companyId
      ensures r.None? <==> !HasCompany(companies, companyId)
    {
      FindCompany(companies, companyId)
    }

    /** `SELECT * FROM process_logs WHERE company_id = ? ORDER BY created_at DESC`,
        with rows of equal time in reverse insertion order. */
    function GetCompanyLogs(companyId: string): (r: seq<ProcessLog>)
      reads this
      ensures forall k :: 0 <= k < |r| ==> r[k].company_id == companyId && r[k] in logs
      ensures forall k :: 0 <= k < |logs| && logs[k].company_id == companyId ==> logs[k] in r
    {
      var own := LogsOf(logs, companyId);
      var r := Reverse(own);
      assert forall k :: 0 <= k < |r| ==> r[k] in own by {
        forall k | 0 <= k < |r| ensures r[k] in own { assert r[k] == own[|own| - 1 - k]; }
      }
      assert forall k :: 0 <= k < |own| ==> own[k] in r by {
        forall k | 0 <= k < |own| ensures own[k] in r { assert r[|own| - 1 - k] == own[k]; }
      }
      r
    }

    /** `getRecentCompanies(limit = 10)`: `ORDER BY created_at DESC LIMIT ?`; SQLite
        reads a negative limit as no limit. */
    function GetRecentCompanies(limit: int := 10): (r: seq<Company>)
      reads this
      ensures |r| == if limit < 0 then |companies| else Min(limit, |companies|)
      ensures forall k :: 0 <= k < |r| ==> r[k] == companies[|companies| - 1 - k]
    {
      var n := if limit < 0 then |companies| else Min(limit, |companies|);
      Reverse(companies)[..n]
    }

    /** One UPDATE of the company rows with the given id; the trigger refreshes `updated_at`. */
    method UpdateRow(companyId: string, change: RowChange, now: Timestamp)
      requires Valid() && clock <= now
      modifies this
      ensures Valid() && clock == now
      ensures companies == UpdateRows(old(companies), companyId, change, now)
      ensures logs == old(logs) && lastCompanyRowId == old(lastCompanyRowId) && lastLogRowId == old(lastLogRowId)
    {
      CompaniesOkUpdate(companies, lastCompanyRowId, clock, companyId, change, now);
      LogsOkUpdate(logs, companies, lastLogRowId, clock, companyId, change, now);
      companies := UpdateRows(companies, companyId, change, now);
      clock := now;
    }

    /** `updateCompanyStatus`: sets the status of the matching row; no row matches an unknown id. */
    method UpdateCompanyStatus(companyId: string, status: CompanyStatus, now: Timestamp)
      requires Valid() && clock <= now
      modifies this
      ensures Valid() && clock == now
      ensures companies == UpdateRows(old(companies), companyId, SetStatus(status), now)
      ensures logs == old(logs) && lastCompanyRowId == old(lastCompanyRowId) && lastLogRowId == old(lastLogRowId)
    {
      UpdateRow(companyId, SetStatus(status), now);
    }

    /** `addProcessLog`: appends one entry and returns it as stored.  The foreign key
        refuses an entry for a company that does not exist. */
    method AddProcessLog(entry: NewLog, now: Timestamp) returns (r: Result<ProcessLog>)
      requires Valid() && clock <= now
      modifies this
      ensures Valid() && clock == now && companies == old(companies) && lastCompanyRowId == old(lastCompanyRowId)
      ensures !HasCompany(companies, entry.company_id) ==>
        r == Err(ForeignKeyMessage) && logs == old(logs) && lastLogRowId == old(lastLogRowId)
      ensures HasCompany(companies, entry.company_id) ==>
        r == Ok(ProcessLog(old(lastLogRowId) + 1, entry.company_id, entry.step, entry.status,
                           NullIfFalsy(entry.message), NullIfFalsy(entry.data), now))
        && logs == old(logs) + [r.value] && lastLogRowId == old(lastLogRowId) + 1
    {
      CompaniesOkClock(companies, lastCompanyRowId, clock, now);
      if FindCompany(companies, entry.company_id).None? {
        LogsOkClock(logs, companies, lastLogRowId, clock, now);
        clock := now;
        return Err(ForeignKeyMessage);
      }
      var stored := ProcessLog(lastLogRowId + 1, entry.company_id, entry.step, entry.status,
                               NullIfFalsy(entry.message), NullIfFalsy(entry.data), now);
      LogsOkAppend(logs, companies, lastLogRowId, clock, stored, now);
      logs, lastLogRowId, clock := logs + [stored], lastLogRowId + 1, now;
      r := Ok(stored);
    }
  }

  /** The status query lists the company's entries newest first. */
  lemma CompanyLogsNewestFirst(s: Store, companyId: string)
    requires s.Valid()
    ensures var r := s.GetCompanyLogs(companyId);
      forall k, l :: 0 <= k < l < |r| ==> r[k].id > r[l].id && r[k].created_at >= r[l].created_at
  {
    assert LogOrder(s.logs);
    LogsOfKeepsOrder(s.logs, companyId);
    var own := LogsOf(s.logs, companyId);
    assert s.GetCompanyLogs(companyId) == Reverse(own);
    ReversedNewestFirst(own);
  }

  /** An ordered table read backwards is newest first. */
  lemma ReversedNewestFirst(own: seq<ProcessLog>)
    requires LogOrder(own)
    ensures var r := Reverse(own);
      forall k, l :: 0 <= k < l < |r| ==> r[k].id > r[l].id && r[k].created_at >= r[l].created_at
  {
    var r := Reverse(own);
    forall k, l | 0 <= k < l < |r| ensures r[k].id > r[l].id && r[k].created_at >= r[l].created_at {
      assert r[k] == own[|own| - 1 - k] && r[l] == own[|own| - 1 - l];
    }
  }

  /** Selecting one company's entries keeps the table's order. */
  lemma {:induction false} LogsOfKeepsOrder(logs: seq<ProcessLog>, companyId: string)
    requires LogOrder(logs)
    ensures LogOrder(LogsOf(logs, companyId))
  {
    if logs != [] {
      assert LogOrder(logs[1..]) by {
        forall k, l | 0 <= k < l < |logs[1..]|
          ensures logs[1..][k].id < logs[1..][l].id && logs[1..][k].created_at <= logs[1..][l].created_at
        {
          assert logs[1..][k] == logs[k + 1] && logs[1..][l] == logs[l + 1];
        }
      }
      LogsOfKeepsOrder(logs[1..], companyId);
      var tail := LogsOf(logs[1..], companyId);
      if logs[0].company_id == companyId {
        HeadPrecedes(logs, tail);
        PrependOrder(logs[0], tail);
      } else {
        assert LogsOf(logs, companyId) == tail;
      }
    }
  }

  lemma HeadPrecedes(logs: seq<ProcessLog>, tail: seq<ProcessLog>)
    requires logs != [] && LogOrder(logs)
    requires forall k :: 0 <= k < |tail| ==> tail[k] in logs[1..]
    ensures forall k :: 0 <= k < |tail| ==> logs[0].id < tail[k].id && logs[0].created_at <= tail[k].created_at
  {
    forall k | 0 <= k < |tail| ensures logs[0].id < tail[k].id && logs[0].created_at <= tail[k].created_at {
      var j :| 0 <= j < |logs[1..]| && logs[1..][j] == tail[k];
      assert logs[j + 1] == tail[k];
    }
  }

  lemma PrependOrder(h: ProcessLog, tail: seq<ProcessLog>)
    requires LogOrder(tail)
    requires forall k :: 0 <= k < |tail| ==> h.id < tail[k].id && h.created_at <= tail[k].created_at
    ensures LogOrder([h] + tail)
  {
    var own := [h] + tail;
    forall k, l | 0 <= k < l < |own| ensures own[k].id < own[l].id && own[k].created_at <= own[l].created_at {
      assert own[l] == tail[l - 1];
      if k > 0 { assert own[k] == tail[k - 1]; }
    }
  }

  /** The recent-companies listing is newest first. */
  lemma RecentNewestFirst(s: Store, limit: int)
    requires s.Valid()
    ensures var r := s.GetRecentCompanies(limit);
      forall k, l :: 0 <= k < l < |r| ==> r[k].created_at >= r[l].created_at && r[k].id > r[l].id
  {
  }
}

/** The column list of the `companies` table and of the INSERT that `createCompany`
    prepares.  The statement must resolve every column it names. */
module Schema {
  import opened Base

  datatype Column =
    Id | CompanyId | WebsiteUrl | SourceUrl | Status | RawData | ProcessedData | CreatedAt | UpdatedAt | CurrentStep

  function ColumnName(c: Column): string {
    match c
    case Id => "id"
    case CompanyId => "company_id"
    case WebsiteUrl => "website_url"
    case SourceUrl => "source_url"
    case Status => "status"
    case RawData => "raw_data"
    case ProcessedData => "processed_data"
    case CreatedAt => "created_at"
    case UpdatedAt => "updated_at"
    case CurrentStep => "current_step"
  }

  /** The columns `CREATE TABLE companies` declares. */
  const CompaniesColumns: seq<Column> :=
    [Id, CompanyId, WebsiteUrl, SourceUrl, Status, RawData, ProcessedData, CreatedAt, UpdatedAt]

  /** The columns of the INSERT in `createCompany`. */
  const CreateInsertColumns: seq<Column> := [CompanyId, WebsiteUrl, SourceUrl, CurrentStep]

  /** The table with the `current_step` column that the TypeScript `Company` type declares. */
  const CompaniesColumnsWithStep: seq<Column> := CompaniesColumns + [CurrentStep]

  /** The column that makes `INSERT INTO table (insert...)` fail to prepare: the first
      one the table lacks. */
  function MissingColumn(columns: seq<Column>, insert: seq<Column>): (r: Option<Column>)
    ensures r.None? <==> forall k :: 0 <= k < |insert| ==> insert[k] in columns
    ensures r.Some? ==> r.value in insert && r.value !in columns
    ensures r.Some? && insert != [] && insert[0] in columns ==> r == MissingColumn(columns, insert[1..])
  {
    if insert == [] then None
    else if insert[0] !in columns then Some(insert[0])
    else
      assert forall k :: 1 <= k < |insert| ==> insert[k] == insert[1..][k - 1];
      MissingColumn(columns, insert[1..])
  }

  /** SQLite's message for a statement naming a column the table lacks. */
  function NoColumnMessage(table: string, c: Column): string {
    "table " + table + " has no column named " + ColumnName(c)
  }

  /** Against the declared table, the statement cannot be prepared: every create fails
      with the error for `current_step`. */
  lemma CreateInsertFailsOnDeclaredSchema()
    ensures MissingColumn(CompaniesColumns, CreateInsertColumns) == Some(CurrentStep)
  {
    var ins, cols := CreateInsertColumns, CompaniesColumns;
    assert ins[0] == cols[1] && ins[1..][0] == cols[2] && ins[1..][1..][0] == cols[3];
    assert ins[1..][1..][1..] == [CurrentStep];
    assert CurrentStep !in cols;
  }

  /** With the `current_step` column the statement prepares. */
  lemma CreateInsertPreparesWithStep()
    ensures MissingColumn(CompaniesColumnsWithStep, CreateInsertColumns).None?
  {
    var ins, cols := CreateInsertColumns, CompaniesColumnsWithStep;
    forall k | 0 <= k < |ins| ensures ins[k] in cols {
      if k == 0 { assert ins[k] == cols[1]; }
      else if k == 1 { assert ins[k] == cols[2]; }
      else if k == 2 { assert ins[k] == cols[3]; }
      else { assert ins[k] == cols[9]; }
    }
  }
}
