/** The Twenty CRM client's decision logic (`src/services/twenty/twentyApi.ts`): the UUID
    check, the partial-update payload, the per-person payloads and their loop, the
    note body, and where the new note's id is looked for. */
module TwentyCrm {
  import opened Base
  import opened Strings
  import opened AiAnalysis
  import opened JsonValues

  // ---------------------------------------------------------------- UUID check

  predicate IsHex(c: char) {
    '0' <= c <= '9' || 'a' <= c <= 'f' || 'A' <= c <= 'F'
  }

  predicate AllHex(s: string) {
    forall k :: 0 <= k < |s| ==> IsHex(s[k])
  }

  predicate DashAt(k: int) {
    k == 8 || k == 13 || k == 18 || k == 23
  }

  /** The case-insensitive, anchored UUID pattern, read position by position. */
  predicate IsValidUUID(s: string) {
    |s| == 36 && forall k :: 0 <= k < 36 ==> if DashAt(k) then s[k] == '-' else IsHex(s[k])
  }

  /** The same pattern read as five hyphen-separated hex groups of lengths 8-4-4-4-12. */
  predicate UuidGroups(s: string) {
    var g := Split(s, '-');
    |g| == 5 && |g[0]| == 8 && |g[1]| == 4 && |g[2]| == 4 && |g[3]| == 4 && |g[4]| == 12
    && forall i :: 0 <= i < 5 ==> AllHex(g[i])
  }

  lemma CutAt(s: string, i: nat)
    requires i < |s| && s[i] == '-'
    ensures s == s[..i] + "-" + s[i + 1..]
  {
    assert s == s[..i] + [s[i]] + s[i + 1..];
  }

  /** A string of the right shape is the five groups joined by hyphens. */
  lemma UuidAsJoin(s: string)
    requires IsValidUUID(s)
    ensures Join([s[..8], s[9..13], s[14..18], s[19..23], s[24..]], "-") == s
  {
    var a, b, c, d, e := s[..8], s[9..13], s[14..18], s[19..23], s[24..];
    var g := [a, b, c, d, e];
    var t1, t2, t3 := s[9..], s[14..], s[19..];
    CutAt(s, 8);
    CutAt(t1, 4);
    CutAt(t2, 4);
    CutAt(t3, 4);
    assert t1[..4] == b && t1[5..] == t2;
    assert t2[..4] == c && t2[5..] == t3;
    assert t3[..4] == d && t3[5..] == e;
    assert t3 == d + "-" + e;
    assert t2 == c + "-" + t3;
    assert t1 == b + "-" + t2;
    assert s == a + "-" + t1;
    var g1 := g[1..];
    var g2 := g1[1..];
    var g3 := g2[1..];
    var g4 := g3[1..];
    assert g1 == [b, c, d, e] && g2 == [c, d, e] && g3 == [d, e] && g4 == [e];
    assert Join(g4, "-") == e;
    assert Join(g3, "-") == t3;
    assert Join(g2, "-") == c + "-" + Join(g3, "-");
    assert Join(g1, "-") == b + "-" + Join(g2, "-");
    assert Join(g, "-") == a + "-" + Join(g1, "-");
  }

  lemma HexNoDash(s: string)
    requires AllHex(s)
    ensures '-' !in s
  {
  }

  /** The two readings of the UUID pattern agree. */
  lemma UuidShapes(s: string)
    ensures IsValidUUID(s) <==> UuidGroups(s)
  {
    if IsValidUUID(s) {
      var g := [s[..8], s[9..13], s[14..18], s[19..23], s[24..]];
      UuidAsJoin(s);
      forall i | 0 <= i < |g| ensures '-' !in g[i] {
        assert AllHex(g[i]) by {
          forall k | 0 <= k < |g[i]| ensures IsHex(g[i][k]) {
            var off := [0, 9, 14, 19, 24][i];
            assert g[i][k] == s[off + k];
          }
        }
        HexNoDash(g[i]);
      }
      SplitJoin(g, '-');
      assert forall i :: 0 <= i < 5 ==> AllHex(g[i]) by {
        forall i | 0 <= i < 5 ensures AllHex(g[i]) {
          forall k | 0 <= k < |g[i]| ensures IsHex(g[i][k]) {
            var off := [0, 9, 14, 19, 24][i];
            assert g[i][k] == s[off + k];
          }
        }
      }
    }
    if UuidGroups(s) {
      GroupsValid(s);
    }
  }

  lemma GroupsValid(s: string)
    requires UuidGroups(s)
    ensures IsValidUUID(s)
  {
    var g := Split(s, '-');
    JoinSplit(s, '-');
    var a, b, c, d, e := g[0], g[1], g[2], g[3], g[4];
    var g1 := g[1..];
    var g2 := g1[1..];
    var g3 := g2[1..];
    var g4 := g3[1..];
    assert g1 == [b, c, d, e] && g2 == [c, d, e] && g3 == [d, e] && g4 == [e];
    assert Join(g4, "-") == e;
    assert Join(g3, "-") == d + "-" + e;
    assert Join(g2, "-") == c + "-" + Join(g3, "-");
    assert Join(g1, "-") == b + "-" + Join(g2, "-");
    assert Join(g, "-") == a + "-" + Join(g1, "-");
    assert s == a + "-" + (b + "-" + (c + "-" + (d + "-" + e)));
    assert AllHex(a) && AllHex(b) && AllHex(c) && AllHex(d) && AllHex(e);
    forall k | 0 <= k < 36 ensures if DashAt(k) then s[k] == '-' else IsHex(s[k]) {
      if k < 8 { assert s[k] == a[k]; }
      else if 8 < k < 13 { assert s[k] == b[k - 9]; }
      else if 13 < k < 18 { assert s[k] == c[k - 14]; }
      else if 18 < k < 23 { assert s[k] == d[k - 19]; }
      else if 23 < k { assert s[k] == e[k - 24]; }
    }
  }

  // ---------------------------------------------------------------- payloads

  /** A payload value: text, number, list of texts, or a flat object of texts. */
  datatype PVal = PStr(s: string) | PInt(n: int) | PList(items: seq<string>) | PObj(fields: seq<(string, string)>)

  /** The first value under key `k`. */
  function Lookup<K(==)>(p: seq<(K, PVal)>, k: K): Option<PVal> {
    if p == [] then None else if p[0].0 == k then Some(p[0].1) else Lookup(p[1..], k)
  }

  /** The spread `...(cond && { key: value })`: each candidate that is present becomes
      one entry, in order. */
  function Present<K>(cands: seq<(K, Option<PVal>)>): (p: seq<(K, PVal)>)
    ensures |p| <= |cands|
  {
    if cands == [] then []
    else (if cands[0].1.Some? then [(cands[0].0, cands[0].1.value)] else []) + Present(cands[1..])
  }

  lemma LookupHead<K>(e: (K, PVal), q: seq<(K, PVal)>, k: K)
    ensures Lookup([e] + q, k) == if e.0 == k then Some(e.1) else Lookup(q, k)
  {
    assert ([e] + q)[1..] == q;
  }

  lemma {:induction false} LookupPresentHere<K>(cands: seq<(K, Option<PVal>)>, k: K)
    requires cands != []
    ensures Lookup(Present(cands), k) ==
      if cands[0].1.Some? && cands[0].0 == k then cands[0].1 else Lookup(Present(cands[1..]), k)
  {
    if cands[0].1.Some? {
      LookupHead((cands[0].0, cands[0].1.value), Present(cands[1..]), k);
    } else {
      assert Present(cands) == Present(cands[1..]);
    }
  }

  /** One candidate per key, in the order of `ks`. */
  function Tabulate<K>(ks: seq<K>, f: K -> Option<PVal>): (c: seq<(K, Option<PVal>)>)
    ensures |c| == |ks| && forall i :: 0 <= i < |ks| ==> c[i] == (ks[i], f(ks[i]))
  {
    if ks == [] then [] else [(ks[0], f(ks[0]))] + Tabulate(ks[1..], f)
  }

  /** A listed key is in the payload exactly when its value is present, with that value;
      an unlisted key never is. */
  lemma {:induction false} LookupTabulate<K>(ks: seq<K>, f: K -> Option<PVal>, k: K)
    ensures Lookup(Present(Tabulate(ks, f)), k) == if k in ks then f(k) else None
  {
    if ks != [] {
      var c := Tabulate(ks, f);
      assert c[1..] == Tabulate(ks[1..], f);
      LookupTabulate(ks[1..], f, k);
      LookupPresentHere(c, k);
      assert k in ks <==> k == ks[0] || k in ks[1..];
    }
  }

  function StrVal(s: Option<string>): (r: Option<PVal>)
    ensures r.Some? <==> Truthy(s)
  {
    if Truthy(s) then Some(PStr(s.value)) else None
  }

  function IntVal(n: Option<int>): (r: Option<PVal>)
    ensures r.Some? <==> TruthyInt(n)
  {
    if TruthyInt(n) then Some(PInt(n.value)) else None
  }

  /** A social link: `{ primaryLinkUrl: url, primaryLinkLabel: '' }`. */
  function LinkVal(s: Option<string>): (r: Option<PVal>)
    ensures r.Some? <==> Truthy(s)
  {
    if Truthy(s) then Some(PObj([("primaryLinkUrl", s.value), ("primaryLinkLabel", "")])) else None
  }

  function ListVal(xs: Option<seq<string>>): (r: Option<PVal>)
    ensures r.Some? <==> NonEmptyList(xs)
  {
    if NonEmptyList(xs) then Some(PList(xs.value)) else None
  }

  datatype CompanyKey =
    | Name | Industry | Employees | FoundedYear | Headquarters
    | LinkedinLink | XLink | Facebook | Instagram
    | Overview | Offerings | TargetMarket | TechStack | CompetitiveIntel | RecentActivity
    | QualitySignals | GrowthSignals | IndustryMetrics | Locations

  /** The JSON property name of each key. */
  function CompanyKeyName(k: CompanyKey): string {
    match k
    case Name => "name"
    case Industry => "industry"
    case Employees => "employees"
    case FoundedYear => "foundedYear"
    case Headquarters => "headquarters"
    case LinkedinLink => "linkedinLink"
    case XLink => "xLink"
    case Facebook => "facebook"
    case Instagram => "instagram"
    case Overview => "overview"
    case Offerings => "offerings"
    case TargetMarket => "targetMarket"
    case TechStack => "techStack"
    case CompetitiveIntel => "competitiveIntel"
    case RecentActivity => "recentActivity"
    case QualitySignals => "qualitySignals"
    case GrowthSignals => "growthSignals"
    case IndustryMetrics => "industryMetrics"
    case Locations => "locations"
  }

  /** The keys of `updateCompany`'s spreads, in source order. */
  const CompanyKeys: seq<CompanyKey> :=
    [ Name, Industry, Employees, FoundedYear, Headquarters, LinkedinLink, XLink, Facebook, Instagram,
      Overview, Offerings, TargetMarket, TechStack, CompetitiveIntel, RecentActivity,
      QualitySignals, GrowthSignals, IndustryMetrics, Locations ]

  lemma AllCompanyKeys(k: CompanyKey)
    ensures k in CompanyKeys
  {
  }

  /** What each spread contributes, if anything. */
  function UpdateValue(a: Analysis, k: CompanyKey): Option<PVal> {
    var cd := CompanyOf(a);
    var sv := ServicesOf(a);
    match k
    case Name => StrVal(cd.name)
    case Industry => StrVal(cd.industry)
    case Employees => IntVal(cd.employee_count)
    case FoundedYear => IntVal(cd.founded_year)
    case Headquarters => StrVal(cd.headquarters)
    case LinkedinLink => LinkVal(cd.linkedin)
    case XLink => LinkVal(cd.twitter)
    case Facebook => LinkVal(cd.facebook)
    case Instagram => LinkVal(cd.instagram)
    case Overview => StrVal(sv.company_overview)
    case Offerings => StrVal(sv.offerings)
    case TargetMarket => StrVal(sv.target_market)
    case TechStack => StrVal(sv.tech_stack)
    case CompetitiveIntel => StrVal(sv.competitive_intel)
    case RecentActivity => StrVal(sv.recent_activity)
    case QualitySignals => ListVal(a.quality_signals)
    case GrowthSignals => ListVal(a.growth_signals)
    case IndustryMetrics => ListVal(a.industry_metrics)
    case Locations => ListVal(cd.other_locations)
  }

  /** The PATCH body: the present spreads, in source order. */
  function UpdatePayload(a: Analysis): seq<(CompanyKey, PVal)> {
    Present(Tabulate(CompanyKeys, k => UpdateValue(a, k)))
  }

  /** Which source field each key comes from, and when it counts as set. */
  predicate SourceSet(a: Analysis, k: CompanyKey) {
    var cd := CompanyOf(a);
    var sv := ServicesOf(a);
    match k
    case Name => Truthy(cd.name)
    case Industry => Truthy(cd.industry)
    case Employees => TruthyInt(cd.employee_count)
    case FoundedYear => TruthyInt(cd.founded_year)
    case Headquarters => Truthy(cd.headquarters)
    case LinkedinLink => Truthy(cd.linkedin)
    case XLink => Truthy(cd.twitter)
    case Facebook => Truthy(cd.facebook)
    case Instagram => Truthy(cd.instagram)
    case Overview => Truthy(sv.company_overview)
    case Offerings => Truthy(sv.offerings)
    case TargetMarket => Truthy(sv.target_market)
    case TechStack => Truthy(sv.tech_stack)
    case CompetitiveIntel => Truthy(sv.competitive_intel)
    case RecentActivity => Truthy(sv.recent_activity)
    case QualitySignals => NonEmptyList(a.quality_signals)
    case GrowthSignals => NonEmptyList(a.growth_signals)
    case IndustryMetrics => NonEmptyList(a.industry_metrics)
    case Locations => NonEmptyList(cd.other_locations)
  }

  predicate IsLinkKey(k: CompanyKey) {
    k == LinkedinLink || k == XLink || k == Facebook || k == Instagram
  }

  /** Each spread contributes exactly when its source field is set; a link key wraps
      the URL with an empty label, a list key carries a non-empty list, and the name is
      the company name itself. */
  lemma UpdateValueFacts(a: Analysis, k: CompanyKey)
    ensures var v := UpdateValue(a, k);
      (v.Some? <==> SourceSet(a, k))
      && (v.Some? && IsLinkKey(k) ==>
            v.value.PObj? && |v.value.fields| == 2
            && v.value.fields[0].0 == "primaryLinkUrl" && v.value.fields[1] == ("primaryLinkLabel", ""))
      && (v.Some? && (k == QualitySignals || k == GrowthSignals || k == IndustryMetrics || k == Locations) ==>
            v.value.PList? && |v.value.items| > 0)
      && (k == Name && v.Some? ==> v == Some(PStr(CompanyOf(a).name.value)))
  {
  }

  /** The update payload has a key exactly when its source field is set, with the
      value that spread contributes. */
  lemma UpdatePayloadKeys(a: Analysis, k: CompanyKey)
    ensures Lookup(UpdatePayload(a), k) == UpdateValue(a, k)
    ensures Lookup(UpdatePayload(a), k).Some? <==> SourceSet(a, k)
  {
    UpdateLookup(a, k);
    UpdateValueFacts(a, k);
  }

  lemma UpdatePayloadAllKeys(a: Analysis)
    ensures forall k :: Lookup(UpdatePayload(a), k).Some? <==> SourceSet(a, k)
  {
    forall k ensures Lookup(UpdatePayload(a), k).Some? <==> SourceSet(a, k) {
      UpdatePayloadKeys(a, k);
    }
  }

  lemma UpdateLookup(a: Analysis, k: CompanyKey)
    ensures Lookup(UpdatePayload(a), k) == UpdateValue(a, k)
  {
    AllCompanyKeys(k);
    LookupTabulate(CompanyKeys, k => UpdateValue(a, k), k);
  }

  /** The text both id checks put after the rejected id. */
  const NotUuid: string := "\" is not a valid UUID. "
  const UuidRequired: string := "Twenty CRM requires company IDs to be in UUID format"
  const UuidExample: string := " (e.g., 123e4567-e89b-12d3-a456-426614174000)"

  function InvalidCompanyIdMessage(companyId: string): string {
    "Invalid company ID format: \"" + companyId + NotUuid + UuidRequired + UuidExample
  }

  const MissingKeyMessage: string := "TWENTY_API_KEY is not configured"

  /** `updateCompany` up to the request: the id check comes first, then the key check,
      and only then is the PATCH body built. */
  function UpdateCompany(companyId: string, apiKey: string, a: Analysis): (r: Result<seq<(CompanyKey, PVal)>>)
    ensures !IsValidUUID(companyId) ==> r == Err(InvalidCompanyIdMessage(companyId))
    ensures IsValidUUID(companyId) && apiKey == "" ==> r == Err(MissingKeyMessage)
    ensures r.Ok? <==> IsValidUUID(companyId) && apiKey != ""
    ensures r.Ok? ==> r.value == UpdatePayload(a)
  {
    if !IsValidUUID(companyId) then Err(InvalidCompanyIdMessage(companyId))
    else if apiKey == "" then Err(MissingKeyMessage)
    else Ok(UpdatePayload(a))
  }

  datatype PersonKey = Emails | PersonName | JobTitle | CompanyIdKey | PersonLinkedin | PersonXLink | Phones

  const PersonKeys: seq<PersonKey> := [Emails, PersonName, JobTitle, CompanyIdKey, PersonLinkedin, PersonXLink, Phones]

  /** What each spread of one person record contributes, if anything. */
  function PersonValue(p: Person, companyId: string, k: PersonKey): Option<PVal> {
    match k
    case Emails => if Truthy(p.email) then Some(PObj([("primaryEmail", p.email.value)])) else None
    case PersonName =>
      if Truthy(p.first_name)
      then Some(PObj([("firstName", p.first_name.value), ("lastName", if Truthy(p.last_name) then p.last_name.value else "")]))
      else None
    case JobTitle => StrVal(p.title)
    case CompanyIdKey => Some(PStr(companyId))
    case PersonLinkedin => LinkVal(p.linkedin)
    case PersonXLink => LinkVal(p.twitter)
    case Phones =>
      if Truthy(p.phone)
      then Some(PObj([("primaryPhoneNumber", p.phone.value), ("primaryPhoneCountryCode", ""), ("primaryPhoneCallingCode", "")]))
      else None
  }

  /** The POST body for one person: the present spreads, in source order. */
  function PersonPayload(p: Person, companyId: string): seq<(PersonKey, PVal)> {
    Present(Tabulate(PersonKeys, k => PersonValue(p, companyId, k)))
  }

  /** A person record always names the company; it has a name only when `first_name`
      is set, with `lastName` defaulting to the empty string; an e-mail, title or phone
      only when that field is set. */
  lemma PersonPayloadFields(p: Person, companyId: string)
    ensures var r := PersonPayload(p, companyId);
      Lookup(r, CompanyIdKey) == Some(PStr(companyId))
      && (Lookup(r, PersonName).Some? <==> Truthy(p.first_name))
      && (Truthy(p.first_name) ==>
            Lookup(r, PersonName) == Some(PObj([("firstName", p.first_name.value),
                                                ("lastName", if Truthy(p.last_name) then p.last_name.value else "")])))
      && (Lookup(r, Emails).Some? <==> Truthy(p.email))
      && (Lookup(r, JobTitle).Some? <==> Truthy(p.title))
      && (Lookup(r, Phones).Some? <==> Truthy(p.phone))
  {
    PersonLookup(p, companyId, CompanyIdKey);
    PersonLookup(p, companyId, PersonName);
    PersonLookup(p, companyId, Emails);
    PersonLookup(p, companyId, JobTitle);
    PersonLookup(p, companyId, Phones);
  }

  /** Every key is listed, so a person record holds exactly what its spread contributes. */
  lemma PersonLookup(p: Person, companyId: string, k: PersonKey)
    ensures Lookup(PersonPayload(p, companyId), k) == PersonValue(p, companyId, k)
  {
    assert k in PersonKeys by {
      match k
      case Emails => assert PersonKeys[0] == k;
      case PersonName => assert PersonKeys[1] == k;
      case JobTitle => assert PersonKeys[2] == k;
      case CompanyIdKey => assert PersonKeys[3] == k;
      case PersonLinkedin => assert PersonKeys[4] == k;
      case PersonXLink => assert PersonKeys[5] == k;
      case Phones => assert PersonKeys[6] == k;
    }
    LookupTabulate(PersonKeys, k' => PersonValue(p, companyId, k'), k);
  }

  function InvalidPeopleIdMessage(companyId: string): string {
    "Invalid company ID format: \"" + companyId + NotUuid + UuidRequired
  }

  /** `createPeople`: nothing to do for a missing or empty list, even before the id is
      checked; otherwise one POST per person, in order.  `postOk` says whether each
      request went through; a failed one is logged and the loop goes on. */
  method CreatePeople(companyId: string, people: Option<seq<Person>>, postOk: seq<(PersonKey, PVal)> -> bool)
    returns (r: Result<()>, sent: seq<seq<(PersonKey, PVal)>>)
    ensures people.None? || people.value == [] ==> r == Ok(()) && sent == []
    ensures people.Some? && people.value != [] && !IsValidUUID(companyId) ==>
      r == Err(InvalidPeopleIdMessage(companyId)) && sent == []
    ensures people.Some? && people.value != [] && IsValidUUID(companyId) ==>
      r == Ok(()) && |sent| == |people.value|
      && forall i :: 0 <= i < |sent| ==> sent[i] == PersonPayload(people.value[i], companyId)
  {
    sent := [];
    if people.None? || people.value == [] {
      return Ok(()), sent;
    }
    if !IsValidUUID(companyId) {
      return Err(InvalidPeopleIdMessage(companyId)), sent;
    }
    var ps := people.value;
    var body := p => PersonPayload(p, companyId);
    var i := 0;
    while i < |ps|
      invariant 0 <= i <= |ps|
      invariant sent == Map(ps[..i], body)
    {
      var payload := PersonPayload(ps[i], companyId);
      var ok := postOk(payload);
      MapSnoc(ps, body, i);
      sent := sent + [payload];
      i := i + 1;
    }
    FullPrefix(ps);
    r := Ok(());
  }

  // ---------------------------------------------------------------- notes

  /** The four places the note id may be, in the order they are tried. */
  function NoteIdCandidates(resp: Json): seq<Option<Json>> {
    var data := Prop(Some(resp), "data");
    [Prop(Prop(data, "createNote"), "id"), Prop(First(Prop(data, "notes")), "id"), Prop(data, "id"), Prop(Some(resp), "id")]
  }

  const NullDataError: string := "Cannot read properties of null (reading 'data')"

  /** The id-extraction cascade after the note was created: the first truthy candidate,
      or none.  A `null` body fails on `noteResponse.data`. */
  function NoteIdOf(resp: Json): (r: Result<Option<Json>>)
    ensures resp.JNull? <==> r.Err?
    ensures r.Ok? && r.value.Some? ==>
      exists i :: 0 <= i < 4 && NoteIdCandidates(resp)[i] == r.value && JTruthy(r.value)
                  && forall j :: 0 <= j < i ==> !JTruthy(NoteIdCandidates(resp)[j])
    ensures r.Ok? && r.value.None? ==> forall i :: 0 <= i < 4 ==> !JTruthy(NoteIdCandidates(resp)[i])
  {
    if resp.JNull? then Err(NullDataError)
    else
      var c := NoteIdCandidates(resp);
      if JTruthy(c[0]) then Ok(c[0])
      else if JTruthy(c[1]) then Ok(c[1])
      else if JTruthy(c[2]) then Ok(c[2])
      else if JTruthy(c[3]) then Ok(c[3])
      else Ok(None)
  }

  datatype NoteTarget = NoteTarget(noteId: Json, companyId: string)

  /** The link request `createNoteWithTarget` makes after the note is created, if any:
      only when an id was found, and a missing id is not an error. */
  function LinkRequest(companyId: string, resp: Json): (r: Result<Option<NoteTarget>>)
    ensures r.Err? <==> resp.JNull?
    ensures r.Ok? ==> (r.value.Some? <==> exists i :: 0 <= i < 4 && JTruthy(NoteIdCandidates(resp)[i]))
    ensures r.Ok? && r.value.Some? ==> r.value.value.companyId == companyId
  {
    match NoteIdOf(resp)
    case Err(m) => Err(m)
    case Ok(id) => Ok(if id.Some? then Some(NoteTarget(id.value, companyId)) else None)
  }

  /** A note whose body has `data.createNote.id` links to it, whatever else it holds. */
  lemma CreateNoteIdFirst(resp: Json, id: Json)
    requires !resp.JNull?
    requires Prop(Prop(Prop(Some(resp), "data"), "createNote"), "id") == Some(id) && JTruthy(Some(id))
    ensures NoteIdOf(resp) == Ok(Some(id))
  {
  }

  /** "• item" for each list item. */
  function Bullets(xs: seq<string>): (r: seq<string>)
    ensures |r| == |xs| && forall i :: 0 <= i < |xs| ==> r[i] == "\U{2022} " + xs[i]
  {
    if xs == [] then [] else ["\U{2022} " + xs[0]] + Bullets(xs[1..])
  }

  /** One candidate section of a note: whether it applies, and its text. */
  datatype Section = Section(present: bool, text: string)

  /** A bulleted list section applies when the list is non-empty. */
  function ListEntry(header: string, xs: Option<seq<string>>): Section {
    Section(NonEmptyList(xs), header + "\n" + Join(Bullets(xs.GetOr([])), "\n"))
  }

  /** A text section applies when the text is truthy. */
  function TextEntry(header: string, s: Option<string>): Section {
    Section(Truthy(s), header + "\n" + s.GetOr(""))
  }

  /** The five candidate sections in the order the note lists them. */
  function NoteTable(a: Analysis): (t: seq<Section>)
    ensures |t| == 5
    ensures forall k :: 0 <= k < |t| ==> |t[k].text| > 0
  {
    [ ListEntry("**Quality Signals:**", a.quality_signals),
      ListEntry("**Growth Signals:**", a.growth_signals),
      ListEntry("**Industry Metrics:**", a.industry_metrics),
      TextEntry("**Additional Notes:**", a.notes),
      TextEntry("**Key People:**", if a.services.Some? then a.services.value.key_people else None) ]
  }

  function Row(x: Section): seq<string> {
    if x.present then [x.text] else []
  }

  /** The texts of the sections that apply, keeping their order. */
  function Applicable(t: seq<Section>): (r: seq<string>)
    ensures |r| <= |t|
  {
    if t == [] then [] else Row(t[0]) + Applicable(t[1..])
  }

  lemma {:induction false} ApplicableEmpty(t: seq<Section>)
    ensures Applicable(t) == [] <==> forall k :: 0 <= k < |t| ==> !t[k].present
  {
    if t != [] {
      ApplicableEmpty(t[1..]);
      assert forall k :: 1 <= k < |t| ==> t[1..][k - 1] == t[k];
    }
  }

  lemma {:induction false} ApplicableTexts(t: seq<Section>)
    requires forall k :: 0 <= k < |t| ==> |t[k].text| > 0
    ensures forall i :: 0 <= i < |Applicable(t)| ==> |Applicable(t)[i]| > 0
  {
    if t != [] {
      ApplicableTexts(t[1..]);
    }
  }

  /** `formatNoteContent`: the applicable sections joined by blank lines. The note is
      empty exactly when no section applies; otherwise it starts with the first
      applicable section, and each applicable section is followed, after a blank
      line, by the next applicable one. */
  function FormatNoteContent(a: Analysis): (r: string)
    ensures r == "" <==>
      (!NonEmptyList(a.quality_signals) && !NonEmptyList(a.growth_signals)
       && !NonEmptyList(a.industry_metrics) && !Truthy(a.notes)
       && !(a.services.Some? && Truthy(a.services.value.key_people)))
    ensures var ss := Applicable(NoteTable(a));
      (ss != [] ==> StartsWith(r, ss[0]))
      && forall i :: 0 <= i < |ss| - 1 ==> Contains(r, ss[i] + "\n\n" + ss[i + 1])
  {
    NoteSectionsFacts(a);
    Join(Applicable(NoteTable(a)), "\n\n")
  }

  lemma NoteSectionsFacts(a: Analysis)
    ensures var t := NoteTable(a);
      var j := Join(Applicable(t), "\n\n");
      (j == "" <==>
         (!NonEmptyList(a.quality_signals) && !NonEmptyList(a.growth_signals)
          && !NonEmptyList(a.industry_metrics) && !Truthy(a.notes)
          && !(a.services.Some? && Truthy(a.services.value.key_people))))
      && (Applicable(t) != [] ==> StartsWith(j, Applicable(t)[0]))
      && forall i :: 0 <= i < |Applicable(t)| - 1 ==>
           Contains(j, Applicable(t)[i] + "\n\n" + Applicable(t)[i + 1])
  {
    var t := NoteTable(a);
    var ss := Applicable(t);
    ApplicableEmpty(t);
    assert (forall k :: 0 <= k < 5 ==> !t[k].present) <==>
      !t[0].present && !t[1].present && !t[2].present && !t[3].present && !t[4].present;
    ApplicableTexts(t);
    JoinNonEmpty(ss, "\n\n");
    if ss != [] {
      JoinHead(ss, "\n\n");
    }
    forall i | 0 <= i < |ss| - 1
      ensures Contains(Join(ss, "\n\n"), ss[i] + "\n\n" + ss[i + 1])
    {
      JoinAdjacent(ss, "\n\n", i);
    }
  }

  lemma {:induction false} JoinNonEmpty(parts: seq<string>, sep: string)
    requires forall i :: 0 <= i < |parts| ==> |parts[i]| > 0
    ensures Join(parts, sep) == "" <==> parts == []
  {
    if |parts| > 1 {
      assert |Join(parts, sep)| >= |parts[0]|;
    }
  }

  lemma JoinHead(parts: seq<string>, sep: string)
    requires parts != []
    ensures StartsWith(Join(parts, sep), parts[0])
  {
    if |parts| > 1 {
      var j := Join(parts, sep);
      assert j == parts[0] + (sep + Join(parts[1..], sep));
      assert j[..|parts[0]|] == parts[0];
    }
  }
}
