/** The AI analysis record (`AIAnalysisResult` in `src/services/ai/claudeAI.ts`), as the
    CRM code reads it: every field may be missing, since the record comes from parsed
    JSON. */
module AiAnalysis {
  import opened Base

  datatype CompanyData = CompanyData(
    name: Option<string>,
    description: Option<string>,
    industry: Option<string>,
    size_category: Option<string>,
    employee_count: Option<int>,
    employee_range: Option<string>,
    founded_year: Option<int>,
    headquarters: Option<string>,
    other_locations: Option<seq<string>>,
    phone: Option<string>,
    linkedin: Option<string>,
    twitter: Option<string>,
    facebook: Option<string>,
    instagram: Option<string>)

  datatype Person = Person(
    email: Option<string>,
    title: Option<string>,
    first_name: Option<string>,
    middle_name: Option<string>,
    last_name: Option<string>,
    phone: Option<string>,
    linkedin: Option<string>,
    twitter: Option<string>,
    facebook: Option<string>,
    instagram: Option<string>)

  datatype Services = Services(
    company_overview: Option<string>,
    offerings: Option<string>,
    proof_points: Option<string>,
    target_market: Option<string>,
    key_people: Option<string>,
    recent_activity: Option<string>,
    tech_stack: Option<string>,
    competitive_intel: Option<string>)

  datatype Analysis = Analysis(
    company_data: Option<CompanyData>,
    people: Option<seq<Person>>,
    services: Option<Services>,
    quality_signals: Option<seq<string>>,
    growth_signals: Option<seq<string>>,
    industry_metrics: Option<seq<string>>,
    notes: Option<string>)

  /** `{}`: an object with none of the fields. */
  const EmptyCompanyData := CompanyData(None, None, None, None, None, None, None, None, None, None, None, None, None, None)
  const EmptyServices := Services(None, None, None, None, None, None, None, None)

  /** JavaScript truthiness of an optional number. */
  predicate TruthyInt(n: Option<int>) {
    n.Some? && n.value != 0
  }

  /** `xs && xs.length > 0` (and `xs?.length > 0`). */
  predicate NonEmptyList(xs: Option<seq<string>>) {
    xs.Some? && |xs.value| > 0
  }

  /** `aiResult.company_data || {}` and `aiResult.services || {}`. */
  function CompanyOf(a: Analysis): CompanyData {
    a.company_data.GetOr(EmptyCompanyData)
  }

  function ServicesOf(a: Analysis): Services {
    a.services.GetOr(EmptyServices)
  }
}
