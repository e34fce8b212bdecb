/** The queue controller (`src/controllers/queueController.ts`): how validation, create
    and lookup outcomes become HTTP status codes and bodies. */
module QueueController {
  import opened Base
  import opened Strings
  import opened JobStore
  import Schema

  datatype Body =
    | Created(id: nat, company_id: string, status: CompanyStatus, created_at: Timestamp)
    | Invalid(details: string)
    | Failure(error: string, message: string)
    | StatusData(company: Company, logs: seq<ProcessLog>)

  datatype Response = Response(code: nat, success: bool, body: Body)

  const ConflictMarker: string := "already exists"

  /** The reply to a create outcome: 201 with the new row's key fields; 409 for an error
      whose message mentions an existing company; 500 for any other error. */
  function CreateResponse(r: Result<Company>): (resp: Response)
    ensures resp.success <==> r.Ok?
    ensures r.Ok? ==> resp == Response(201, true, Created(r.value.id, r.value.company_id, r.value.status, r.value.created_at))
    ensures r.Err? && Contains(r.message, ConflictMarker) ==> resp == Response(409, false, Failure("Conflict", r.message))
    ensures r.Err? && !Contains(r.message, ConflictMarker) ==>
      resp == Response(500, false, Failure("Internal server error", "Failed to queue company"))
  {
    match r
    case Ok(c) => Response(201, true, Created(c.id, c.company_id, c.status, c.created_at))
    case Err(m) =>
      if Contains(m, ConflictMarker) then Response(409, false, Failure("Conflict", m))
      else Response(500, false, Failure("Internal server error", "Failed to queue company"))
  }

  /** The store's duplicate-key message is recognised as a conflict. */
  lemma DuplicateIsConflict(companyId: string)
    ensures Contains(DuplicateMessage(companyId), ConflictMarker)
  {
    var m := DuplicateMessage(companyId);
    var i := |"Company with ID "| + |companyId| + 1;
    assert m[i..i + |ConflictMarker|] == ConflictMarker;
    ContainsAt(m, ConflictMarker, i);
  }

  /** A text without some character of the pattern does not contain it. */
  lemma MissingCharNotContained(s: string, pat: string, c: char)
    requires c in pat && c !in s
    ensures !Contains(s, pat)
  {
  }

  /** With the declared schema every create fails to prepare, and the reply is a 500. */
  lemma SchemaErrorIsInternal()
    ensures CreateResponse(Err(Schema.NoColumnMessage("companies", Schema.CurrentStep))).code == 500
  {
    var m := Schema.NoColumnMessage("companies", Schema.CurrentStep);
    assert 'y' !in m;
    assert ConflictMarker[6] == 'y';
    MissingCharNotContained(m, ConflictMarker, 'y');
  }

  /** `addToQueue`: the validator's verdict is given as `validation`; a request it
      rejects gets a 400 and never reaches the store. */
  method AddToQueue(store: Store, validation: Result<QueueRequest>, now: Timestamp) returns (resp: Response)
    requires store.Valid() && store.clock <= now
    modifies store
    ensures store.Valid()
    ensures validation.Err? ==>
      resp == Response(400, false, Invalid(validation.message))
      && store.companies == old(store.companies) && store.logs == old(store.logs)
    ensures validation.Ok? && HasCompany(old(store.companies), validation.value.company_id) ==>
      resp == Response(409, false, Failure("Conflict", DuplicateMessage(validation.value.company_id)))
      && store.companies == old(store.companies) && store.logs == old(store.logs)
    ensures validation.Ok? && !HasCompany(old(store.companies), validation.value.company_id) ==>
      resp == Response(201, true, Created(old(store.lastCompanyRowId) + 1, validation.value.company_id, Pending, now))
      && store.companies == old(store.companies)
           + [Company(old(store.lastCompanyRowId) + 1, validation.value.company_id, validation.value.website_url,
                      validation.value.source_url, Pending, StepPending, None, None, now, now)]
      && store.logs == old(store.logs)
           + [ProcessLog(old(store.lastLogRowId) + 1, validation.value.company_id, Received, LogCompleted,
                         Some(ReceivedMessage), None, now)]
  {
    if validation.Err? {
      return Response(400, false, Invalid(validation.message));
    }
    var created := store.CreateCompany(validation.value, now);
    if created.Err? {
      DuplicateIsConflict(validation.value.company_id);
    }
    resp := CreateResponse(created);
  }

  function NotFoundMessage(companyId: string): string {
    "Company with ID " + companyId + " not found"
  }

  /** `getCompanyStatus`: 404 for an unknown key, otherwise the row with its log, newest
      first; `queryOk` is false when the database throws. */
  function StatusResponse(store: Store, companyId: string, queryOk: bool): (resp: Response)
    reads store
    ensures !queryOk ==> resp == Response(500, false, Failure("Internal server error", "Failed to get company status"))
    ensures queryOk && !HasCompany(store.companies, companyId) ==>
      resp == Response(404, false, Failure("Not found", NotFoundMessage(companyId)))
    ensures queryOk && HasCompany(store.companies, companyId) ==>
      resp.code == 200 && resp.success && resp.body.StatusData?
      && resp.body.company in store.companies && resp.body.company.company_id == companyId
      && (forall k :: 0 <= k < |resp.body.logs| ==> resp.body.logs[k].company_id == companyId && resp.body.logs[k] in store.logs)
      && (forall k :: 0 <= k < |store.logs| && store.logs[k].company_id == companyId ==> store.logs[k] in resp.body.logs)
  {
    if !queryOk then Response(500, false, Failure("Internal server error", "Failed to get company status"))
    else match store.GetCompanyById(companyId)
      case None => Response(404, false, Failure("Not found", NotFoundMessage(companyId)))
      case Some(c) => Response(200, true, StatusData(c, store.GetCompanyLogs(companyId)))
  }

  /** The log in a status reply is newest first. */
  lemma StatusLogsNewestFirst(store: Store, companyId: string)
    requires store.Valid() && HasCompany(store.companies, companyId)
    ensures var logs := StatusResponse(store, companyId, true).body.logs;
      forall k, l :: 0 <= k < l < |logs| ==> logs[k].id > logs[l].id && logs[k].created_at >= logs[l].created_at
  {
    CompanyLogsNewestFirst(store, companyId);
  }
}
