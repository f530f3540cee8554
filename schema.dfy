/**
 * The shared record shapes and the two zod schemas of shared/schema.ts: the match request
 * (two strings with minimum lengths) and the user's API settings (three optional keys and a
 * provider enum defaulting to "openrouter"). Parsing collects every issue, as zod does.
 */
module Schema {
  import opened Wrappers
  import opened Json

  const MinJobDescriptionLength: nat := 50
  const MinResumeLength: nat := 100

  const JobDescriptionTooShort := "Job description must be at least 50 characters long"
  const ResumeTooShort := "Resume text must be at least 100 characters long"

  /** One zod issue: the field it concerns and what went wrong. */
  datatype Issue =
    | Required(field: string)
    | NotAString(field: string)
    | TooShort(field: string, message: string)
    | InvalidEnum(field: string)
    | NotAnObject

  // ---------------------------------------------------------------- matchRequestSchema

  datatype MatchRequest = MatchRequest(jobDescription: string, resumeText: string)

  /** `z.string().min(min, message)` applied to one (possibly absent) field. */
  function StringFieldIssues(field: string, v: Option<Json>, min: nat, message: string): (r: seq<Issue>)
    ensures r == [] <==> v.Some? && v.value.JStr? && |v.value.str| >= min
    ensures |r| <= 1
  {
    match v
    case None => [Required(field)]
    case Some(JStr(s)) => if |s| >= min then [] else [TooShort(field, message)]
    case Some(_) => [NotAString(field)]
  }

  predicate ValidMatchRequest(jobDescription: string, resumeText: string) {
    |jobDescription| >= MinJobDescriptionLength && |resumeText| >= MinResumeLength
  }

  /**
   * `matchRequestSchema.parse({ jobDescription, resumeText })`. A request parses exactly when
   * both fields are strings of at least 50 and 100 characters, and then carries the two
   * strings unchanged; a failure reports one issue per bad field, a short field with the
   * schema's own message.
   */
  function ParseMatchRequest(jobDescription: Option<Json>, resumeText: Option<Json>): (r: Result<MatchRequest, seq<Issue>>)
    ensures r.Success? <==>
      jobDescription.Some? && jobDescription.value.JStr? && resumeText.Some? && resumeText.value.JStr?
      && ValidMatchRequest(jobDescription.value.str, resumeText.value.str)
    ensures r.Success? ==> r.value == MatchRequest(jobDescription.value.str, resumeText.value.str)
    ensures r.Failure? ==> 1 <= |r.error| <= 2
    ensures jobDescription.Some? && jobDescription.value.JStr? && |jobDescription.value.str| < 50 ==>
      r.Failure? && TooShort("jobDescription", JobDescriptionTooShort) in r.error
    ensures resumeText.Some? && resumeText.value.JStr? && |resumeText.value.str| < 100 ==>
      r.Failure? && TooShort("resumeText", ResumeTooShort) in r.error
  {
    var issues :=
      StringFieldIssues("jobDescription", jobDescription, MinJobDescriptionLength, JobDescriptionTooShort)
      + StringFieldIssues("resumeText", resumeText, MinResumeLength, ResumeTooShort);
    if issues == [] then Success(MatchRequest(jobDescription.value.str, resumeText.value.str))
    else Failure(issues)
  }

  /** `matchRequestSchema.parse(body)`: the body itself must be an object. */
  function ParseMatchRequestBody(body: Option<Json>): (r: Result<MatchRequest, seq<Issue>>)
    ensures body.Some? && body.value.JObj? ==>
      r == ParseMatchRequest(Get(body.value, "jobDescription"), Get(body.value, "resumeText"))
    ensures !(body.Some? && body.value.JObj?) ==> r == Failure([NotAnObject])
  {
    if body.Some? && body.value.JObj? then
      ParseMatchRequest(Get(body.value, "jobDescription"), Get(body.value, "resumeText"))
    else Failure([NotAnObject])
  }

  // ---------------------------------------------------------------- apiSettingsSchema

  datatype Provider = OpenAI | OpenRouter | Claude

  function ProviderName(p: Provider): string {
    match p
    case OpenAI => "openai"
    case OpenRouter => "openrouter"
    case Claude => "claude"
  }

  /** `z.enum(["openai", "openrouter", "claude"])` on one string. */
  function ParseProvider(s: string): (r: Option<Provider>)
    ensures r.Some? <==> s in {"openai", "openrouter", "claude"}
    ensures r.Some? ==> ProviderName(r.value) == s
    ensures s == "openrouter" ==> r == Some(OpenRouter)
    ensures s == "openai" ==> r == Some(OpenAI)
    ensures s == "claude" ==> r == Some(Claude)
  {
    if s == "openai" then Some(OpenAI)
    else if s == "openrouter" then Some(OpenRouter)
    else if s == "claude" then Some(Claude)
    else None
  }

  datatype ApiSettings = ApiSettings(
    openaiKey: Option<string>,
    openrouterKey: Option<string>,
    claudeKey: Option<string>,
    preferredProvider: Provider)

  /** `z.string().optional()` on one field of an object. */
  function OptionalString(fields: map<string, Json>, field: string): (r: Result<Option<string>, Issue>)
    ensures r.Success? <==> field !in fields || fields[field].JStr?
    ensures r.Success? && field in fields ==> r.value == Some(fields[field].str)
    ensures r.Success? && field !in fields ==> r.value == None
  {
    if field !in fields then Success(None)
    else if fields[field].JStr? then Success(Some(fields[field].str))
    else Failure(NotAString(field))
  }

  /** `z.enum([...]).default("openrouter")` on one field of an object. */
  function ProviderField(fields: map<string, Json>): (r: Result<Provider, Issue>)
    ensures "preferredProvider" !in fields ==> r == Success(OpenRouter)
    ensures r.Success? && "preferredProvider" in fields ==>
      fields["preferredProvider"] == JStr(ProviderName(r.value))
  {
    if "preferredProvider" !in fields then Success(OpenRouter)
    else
      match fields["preferredProvider"]
      case JStr(s) =>
        (match ParseProvider(s)
         case Some(p) => Success(p)
         case None => Failure(InvalidEnum("preferredProvider")))
      case _ => Failure(InvalidEnum("preferredProvider"))
  }

  function IssuesOf<T>(r: Result<T, Issue>): seq<Issue> {
    if r.Failure? then [r.error] else []
  }

  /**
   * `apiSettingsSchema.parse(value)`. Settings parse exactly when the value is an object whose
   * three key fields are absent or strings and whose provider field is absent or one of the
   * three names; an absent provider becomes "openrouter" and present keys are kept unchanged.
   */
  function ParseApiSettings(j: Json): (r: Result<ApiSettings, seq<Issue>>)
    ensures r.Success? <==>
      j.JObj?
      && ("openaiKey" !in j.fields || j.fields["openaiKey"].JStr?)
      && ("openrouterKey" !in j.fields || j.fields["openrouterKey"].JStr?)
      && ("claudeKey" !in j.fields || j.fields["claudeKey"].JStr?)
      && ("preferredProvider" !in j.fields
          || (j.fields["preferredProvider"].JStr? && ParseProvider(j.fields["preferredProvider"].str).Some?))
    ensures r.Success? && "preferredProvider" !in j.fields ==> r.value.preferredProvider == OpenRouter
    ensures r.Success? && "preferredProvider" in j.fields ==>
      j.fields["preferredProvider"] == JStr(ProviderName(r.value.preferredProvider))
    ensures r.Success? ==>
      (r.value.openaiKey.Some? <==> "openaiKey" in j.fields)
      && (r.value.openrouterKey.Some? <==> "openrouterKey" in j.fields)
      && (r.value.claudeKey.Some? <==> "claudeKey" in j.fields)
    ensures r.Success? && "openrouterKey" in j.fields ==> r.value.openrouterKey.value == j.fields["openrouterKey"].str
    ensures r.Success? && "openaiKey" in j.fields ==> r.value.openaiKey.value == j.fields["openaiKey"].str
    ensures r.Success? && "claudeKey" in j.fields ==> r.value.claudeKey.value == j.fields["claudeKey"].str
  {
    if !j.JObj? then Failure([NotAnObject])
    else
      var openai := OptionalString(j.fields, "openaiKey");
      var openrouter := OptionalString(j.fields, "openrouterKey");
      var claude := OptionalString(j.fields, "claudeKey");
      var provider := ProviderField(j.fields);
      var issues := IssuesOf(openai) + IssuesOf(openrouter) + IssuesOf(claude) + IssuesOf(provider);
      if issues == [] then Success(ApiSettings(openai.value, openrouter.value, claude.value, provider.value))
      else Failure(issues)
  }

  // ---------------------------------------------------------------- records

  /**
   * The nine analysis fields every record carries. Scores are reals because the AI path
   * clamps without rounding; the list and summary fields hold whatever value the source
   * produced (the AI path only checks that the lists are arrays).
   */
  datatype AnalysisResult = AnalysisResult(
    matchScore: real,
    skillMatch: real,
    experienceMatch: real,
    educationMatch: real,
    keywordMatch: real,
    strengths: Json,
    improvements: Json,
    recommendations: Json,
    summary: Json)

  /** The insert shape: every column except `id` and `createdAt`; `isAiGenerated` may be omitted. */
  datatype InsertMatchAnalysis = InsertMatchAnalysis(
    jobDescription: string,
    resumeText: string,
    result: AnalysisResult,
    isAiGenerated: Option<bool>)

  /** A stored row. */
  datatype MatchAnalysis = MatchAnalysis(
    id: int,
    jobDescription: string,
    resumeText: string,
    result: AnalysisResult,
    isAiGenerated: bool,
    createdAt: int)

  /** The column default of `isAiGenerated`. */
  function IsAiGeneratedOrDefault(insert: InsertMatchAnalysis): (r: bool)
    ensures insert.isAiGenerated.None? ==> r
    ensures insert.isAiGenerated.Some? ==> r == insert.isAiGenerated.value
  {
    insert.isAiGenerated.GetOr(true)
  }
}
