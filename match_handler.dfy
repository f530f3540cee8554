/**
 * The serverless match endpoint (api/match.ts): validate the two texts, make exactly one
 * attempt at an AI analysis (the user's configured provider when settings are sent, the
 * default OpenRouter client otherwise), fall back to the deterministic analyser on any
 * failure of that attempt, store the record and answer with `fallbackUsed`.
 */
module MatchHandler {
  import opened Wrappers
  import opened Json
  import opened Schema
  import opened ProviderResponse
  import opened OpenRouter
  import opened AiProvider
  import TextSimilarity
  import opened Storage
  import opened Http

  datatype Request = Request(httpMethod: string, body: Option<Json>)

  const MethodNotAllowed := "Method not allowed"
  const BodyUndefinedError := "Cannot destructure property 'jobDescription' of 'req.body' as it is undefined."
  const BodyNullError := "Cannot destructure property 'jobDescription' of 'req.body' as it is null."

  // ---------------------------------------------------------------- the stored fields

  /** A score field of a normalised reply (always a number there; 0 otherwise). */
  function ScoreValue(m: map<string, Json>, name: string): real {
    if name in m && m[name].JNum? then m[name].num else 0.0
  }

  function FieldValue(m: map<string, Json>, name: string): Json {
    if name in m then m[name] else JNull
  }

  /** The insert fields taken from an AI reply, field by field. */
  function FromNormalized(m: map<string, Json>): AnalysisResult {
    AnalysisResult(
      ScoreValue(m, "matchScore"), ScoreValue(m, "skillMatch"), ScoreValue(m, "experienceMatch"),
      ScoreValue(m, "educationMatch"), ScoreValue(m, "keywordMatch"),
      FieldValue(m, "strengths"), FieldValue(m, "improvements"), FieldValue(m, "recommendations"),
      FieldValue(m, "summary"))
  }

  function Strings(items: seq<string>): (j: Json)
    ensures j.JArr? && |j.items| == |items|
    ensures forall k :: 0 <= k < |items| ==> j.items[k] == JStr(items[k])
  {
    JArr(seq(|items|, k requires 0 <= k < |items| => JStr(items[k])))
  }

  /** The insert fields taken from the deterministic report. */
  function FromReport(r: TextSimilarity.Report): AnalysisResult {
    AnalysisResult(
      r.matchScore as real, r.skillMatch as real, r.experienceMatch as real,
      r.educationMatch as real, r.keywordMatch as real,
      Strings(r.strengths), Strings(r.improvements), Strings(r.recommendations), JStr(r.summary))
  }

  predicate ScoresInRange(a: AnalysisResult) {
    0.0 <= a.matchScore <= 100.0 && 0.0 <= a.skillMatch <= 100.0 && 0.0 <= a.experienceMatch <= 100.0
    && 0.0 <= a.educationMatch <= 100.0 && 0.0 <= a.keywordMatch <= 100.0
  }

  /** The record of a normalised reply has in-range scores, array lists and the reply's summary. */
  lemma FromNormalizedShape(fields: map<string, Json>)
    requires HasFields(fields, RequiredFields)
    ensures ScoresInRange(FromNormalized(Normalize(fields)))
    ensures "matchScore" in fields && FromNormalized(Normalize(fields)).matchScore == ScoreOf(fields["matchScore"])
    ensures FromNormalized(Normalize(fields)).strengths.JArr?
      && FromNormalized(Normalize(fields)).improvements.JArr?
      && FromNormalized(Normalize(fields)).recommendations.JArr?
    ensures "summary" in fields && FromNormalized(Normalize(fields)).summary == fields["summary"]
  {
    NormalizeShape(fields);
    assert ScoreFields[0] == "matchScore" && ScoreFields[1] == "skillMatch" && ScoreFields[2] == "experienceMatch";
    assert ScoreFields[3] == "educationMatch" && ScoreFields[4] == "keywordMatch";
    assert ListFields[0] == "strengths" && ListFields[1] == "improvements" && ListFields[2] == "recommendations";
  }

  /** The record of a deterministic report has in-range scores and exactly four recommendations. */
  lemma FromReportShape(jobDescription: string, resumeText: string)
    ensures ScoresInRange(FromReport(TextSimilarity.Analyze(jobDescription, resumeText)))
    ensures |FromReport(TextSimilarity.Analyze(jobDescription, resumeText)).recommendations.items| == 4
  {
    TextSimilarity.AnalyzeFacts(jobDescription, resumeText);
  }

  // ---------------------------------------------------------------- the guarded attempt

  datatype AttemptError = InvalidSettings(issues: seq<Issue>) | ProviderFailed(error: ProviderError)

  /**
   * The inner `try` block: settings (when truthy) are validated inside it, so invalid settings
   * fail the attempt rather than the request.
   */
  function Attempt(apiSettings: Option<Json>, vars: map<string, string>, jobDescription: string, resumeText: string,
                   net: Network, parse: string -> Option<Json>): Result<map<string, Json>, AttemptError>
  {
    if Truthy(apiSettings) then
      match ParseApiSettings(apiSettings.value)
      case Failure(issues) => Failure(InvalidSettings(issues))
      case Success(settings) =>
        match Dispatch(ConfigOf(settings), jobDescription, resumeText, net, parse)
        case Failure(e) => Failure(ProviderFailed(e))
        case Success(m) => Success(m)
    else
      match ClientAnalysis(vars, jobDescription, resumeText, net, parse)
      case Failure(e) => Failure(ProviderFailed(e))
      case Success(m) => Success(m)
  }

  /** What the attempt leaves in the process environment. */
  function EnvAfter(apiSettings: Option<Json>, vars: map<string, string>): map<string, string> {
    if Truthy(apiSettings) && ParseApiSettings(apiSettings.value).Success? then
      var config := ConfigOf(ParseApiSettings(apiSettings.value).value);
      if config.preferredProvider == "openrouter" && Configured(config.openrouterKey) then
        Restored(vars, vars[ApiKeyVar := config.openrouterKey.value])
      else vars
    else vars
  }

  /** The stored analysis: the AI reply when there is one, the analyser's report otherwise. */
  function Outcome(ai: Option<map<string, Json>>, jobDescription: string, resumeText: string): AnalysisResult {
    if ai.Some? then FromNormalized(ai.value)
    else FromReport(TextSimilarity.Analyze(jobDescription, resumeText))
  }

  /** The AI reply an attempt yielded, if any. */
  function ReplyOf(attempt: Result<map<string, Json>, AttemptError>): Option<map<string, Json>> {
    if attempt.Success? then Some(attempt.value) else None
  }

  /** The analysis the handler stores: the AI reply, or the analyser's report on the same texts. */
  function ResultOf(attempt: Result<map<string, Json>, AttemptError>, jobDescription: string, resumeText: string): AnalysisResult {
    Outcome(ReplyOf(attempt), jobDescription, resumeText)
  }

  /** A successful attempt always returned a normalised reply. */
  lemma AttemptReply(apiSettings: Option<Json>, vars: map<string, string>, jobDescription: string, resumeText: string,
                     net: Network, parse: string -> Option<Json>) returns (fields: map<string, Json>)
    requires Attempt(apiSettings, vars, jobDescription, resumeText, net, parse).Success?
    ensures HasFields(fields, RequiredFields)
    ensures Attempt(apiSettings, vars, jobDescription, resumeText, net, parse).value == Normalize(fields)
  {
    var prompt := BuildPrompt(jobDescription, resumeText);
    var vendor: Vendor, key: string;
    if Truthy(apiSettings) {
      var config := ConfigOf(ParseApiSettings(apiSettings.value).value);
      vendor := VendorOf(config.preferredProvider).value;
      key := KeyFor(config, vendor).value;
    } else {
      vendor := OpenRouterApi;
      key := if EnvValue(vars, ApiKeyVar) != "" then vars[ApiKeyVar] else vars[FallbackKeyVar];
    }
    var exchange := Exchange(vendor, key, prompt, net, parse);
    assert exchange.Success?;
    fields := ParsedResponseSuccess(net(vendor, key, prompt).value.content.value, parse);
  }

  /** Whatever path produced it, the stored analysis has every score in [0, 100]. */
  lemma StoredResultInRange(apiSettings: Option<Json>, vars: map<string, string>, jobDescription: string, resumeText: string,
                            net: Network, parse: string -> Option<Json>)
    ensures ScoresInRange(ResultOf(Attempt(apiSettings, vars, jobDescription, resumeText, net, parse), jobDescription, resumeText))
  {
    var attempt := Attempt(apiSettings, vars, jobDescription, resumeText, net, parse);
    if attempt.Success? {
      var fields := AttemptReply(apiSettings, vars, jobDescription, resumeText, net, parse);
      FromNormalizedShape(fields);
      assert ResultOf(attempt, jobDescription, resumeText) == FromNormalized(Normalize(fields));
    } else {
      FromReportShape(jobDescription, resumeText);
      assert ResultOf(attempt, jobDescription, resumeText) == FromReport(TextSimilarity.Analyze(jobDescription, resumeText));
    }
  }

  /** Invalid settings fail the attempt, so they lead to the analyser's report, never to an error. */
  lemma InvalidSettingsFallBack(apiSettings: Option<Json>, vars: map<string, string>, jobDescription: string, resumeText: string,
                                net: Network, parse: string -> Option<Json>)
    requires Truthy(apiSettings) && ParseApiSettings(apiSettings.value).Failure?
    ensures Attempt(apiSettings, vars, jobDescription, resumeText, net, parse)
      == Failure(InvalidSettings(ParseApiSettings(apiSettings.value).error))
    ensures ResultOf(Attempt(apiSettings, vars, jobDescription, resumeText, net, parse), jobDescription, resumeText)
      == FromReport(TextSimilarity.Analyze(jobDescription, resumeText))
  {
  }

  /** The inner `try` block as code: it either yields a reply or fails, and never throws further. */
  method RunAttempt(apiSettings: Option<Json>, env: ProcessEnv, jobDescription: string, resumeText: string,
                    net: Network, parse: string -> Option<Json>) returns (r: Result<map<string, Json>, AttemptError>)
    modifies env
    ensures r == Attempt(apiSettings, old(env.vars), jobDescription, resumeText, net, parse)
    ensures env.vars == EnvAfter(apiSettings, old(env.vars))
  {
    if Truthy(apiSettings) {
      r := RunConfiguredAttempt(apiSettings.value, env, jobDescription, resumeText, net, parse);
    } else {
      var reply := OpenRouter.AnalyzeMatch(env.vars, jobDescription, resumeText, net, parse);
      r := if reply.Success? then Success(reply.value) else Failure(ProviderFailed(reply.error));
    }
  }

  /** The branch for truthy settings: validate them, then dispatch on the configured provider. */
  method RunConfiguredAttempt(apiSettings: Json, env: ProcessEnv, jobDescription: string, resumeText: string,
                              net: Network, parse: string -> Option<Json>) returns (r: Result<map<string, Json>, AttemptError>)
    requires Truthy(Some(apiSettings))
    modifies env
    ensures r == Attempt(Some(apiSettings), old(env.vars), jobDescription, resumeText, net, parse)
    ensures env.vars == EnvAfter(Some(apiSettings), old(env.vars))
  {
    var settings := ParseApiSettings(apiSettings);
    if settings.Failure? {
      return Failure(InvalidSettings(settings.error));
    }
    var config := ConfigOf(settings.value);
    var reply := AiProvider.AnalyzeMatch(config, env, jobDescription, resumeText, net, parse);
    r := if reply.Success? then Success(reply.value) else Failure(ProviderFailed(reply.error));
  }

  // ---------------------------------------------------------------- the handler

  /** Everything that ends the request before the attempt: 405, the destructuring error, 400. */
  function Validated(req: Request): (r: Result<MatchRequest, Response>)
    ensures r.Success? ==> req.httpMethod == "POST" && req.body.Some? && req.body.value != JNull
    ensures r.Success? ==> ValidMatchRequest(r.value.jobDescription, r.value.resumeText)
    ensures req.httpMethod != "POST" ==> r == Failure(Response(405, MessageBody(MethodNotAllowed)))
    ensures r.Failure? && r.error.status == 400 ==>
      r.error.body.InvalidInput? && r.error.body.message == InvalidInputMessage && |r.error.body.errors| > 0
  {
    if req.httpMethod != "POST" then Failure(Response(405, MessageBody(MethodNotAllowed)))
    else if req.body.None? then Failure(Response(500, MessageBody(BodyUndefinedError)))
    else if req.body.value == JNull then Failure(Response(500, MessageBody(BodyNullError)))
    else
      match ParseMatchRequest(Get(req.body.value, "jobDescription"), Get(req.body.value, "resumeText"))
      case Failure(issues) => Failure(Response(400, InvalidInput(InvalidInputMessage, issues)))
      case Success(m) => Success(m)
  }

  /** `Get(body, "apiSettings")` for a body that got past validation. */
  function ApiSettingsOf(req: Request): Option<Json> {
    if req.body.Some? then Get(req.body.value, "apiSettings") else None
  }

  /**
   * The tail both match handlers share: run the analyser when there is no AI reply, store the
   * record under the next id and answer 200 with `fallbackUsed`.
   */
  method StoreOutcome(store: MemStorage, jobDescription: string, resumeText: string,
                      ai: Option<map<string, Json>>, now: int) returns (resp: Response)
    requires store.Valid()
    modifies store
    ensures store.Valid()
    ensures var record := MatchAnalysis(old(store.currentId), jobDescription, resumeText,
                                        Outcome(ai, jobDescription, resumeText), ai.Some?, now);
      resp == Response(200, StoredAnalysis(record, ai.None?))
      && store.analyses == old(store.analyses)[record.id := record]
      && store.currentId == old(store.currentId) + 1
  {
    var analysisResult: AnalysisResult;
    var isAiGenerated := true;
    if ai.None? {
      var report := TextSimilarity.AnalyzeMatch(jobDescription, resumeText);
      analysisResult := FromReport(report);
      isAiGenerated := false;
    } else {
      analysisResult := FromNormalized(ai.value);
    }
    var analysis := store.CreateMatchAnalysis(
      InsertMatchAnalysis(jobDescription, resumeText, analysisResult, Some(isAiGenerated)), now);
    resp := Response(200, StoredAnalysis(analysis, !isAiGenerated));
  }

  /**
   * The handler. A request that fails validation is answered without any attempt and without
   * storing; any other request is stored, under the next id, with the AI reply when the attempt
   * succeeded and the analyser's report otherwise, and `fallbackUsed` is true exactly when the
   * attempt failed.
   */
  method HandleMatch(req: Request, store: MemStorage, env: ProcessEnv, net: Network,
                     parse: string -> Option<Json>, now: int) returns (resp: Response)
    requires store.Valid()
    modifies store, env
    ensures store.Valid()
    ensures Validated(req).Failure? ==>
      resp == Validated(req).error
      && store.analyses == old(store.analyses) && store.currentId == old(store.currentId)
      && env.vars == old(env.vars)
    ensures Validated(req).Success? ==>
      var m := Validated(req).value;
      var attempt := Attempt(ApiSettingsOf(req), old(env.vars), m.jobDescription, m.resumeText, net, parse);
      var ai := ReplyOf(attempt);
      var record := MatchAnalysis(old(store.currentId), m.jobDescription, m.resumeText,
                                  Outcome(ai, m.jobDescription, m.resumeText), ai.Some?, now);
      resp == Response(200, StoredAnalysis(record, ai.None?))
      && store.analyses == old(store.analyses)[record.id := record]
      && store.currentId == old(store.currentId) + 1
      && env.vars == EnvAfter(ApiSettingsOf(req), old(env.vars))
  {
    var validated := Validated(req);
    if validated.Failure? {
      return validated.error;
    }
    var jobDescription := validated.value.jobDescription;
    var resumeText := validated.value.resumeText;
    var apiSettings := ApiSettingsOf(req);

    var attempt := RunAttempt(apiSettings, env, jobDescription, resumeText, net, parse);
    resp := StoreOutcome(store, jobDescription, resumeText, ReplyOf(attempt), now);
  }
}
