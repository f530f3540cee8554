/**
 * What the three AI vendors' code paths share (server/services/ai-provider.ts and
 * server/services/openrouter-client.ts carry identical copies): the prompt template, the
 * normalisation of the model's reply (`parseResponse`), the errors a vendor call can raise,
 * and one request/response exchange with the network abstracted to a function parameter.
 */
module ProviderResponse {
  import opened Wrappers
  import opened Strings
  import opened Scanners
  import opened Json

  // ---------------------------------------------------------------- errors

  datatype Vendor = OpenAIApi | ClaudeApi | OpenRouterApi

  function VendorName(v: Vendor): string {
    match v
    case OpenAIApi => "OpenAI"
    case ClaudeApi => "Claude"
    case OpenRouterApi => "OpenRouter"
  }

  /** Every error a provider call can surface to its caller. */
  datatype ProviderError =
    | KeyNotConfigured(vendor: Vendor)
    | KeyNotFound
    | RequestFailed(vendor: Vendor, status: nat)
    | NoContent(vendor: Vendor)
    | ParseFailed
    | Transport(message: string)
    | Unsupported(provider: string)

  const ParseFailedMessage := "Failed to parse AI response. Please try again."

  /** The `message` of the thrown `Error`. */
  function Message(e: ProviderError): (m: string)
    ensures e.RequestFailed? ==>
      |DecimalString(e.status)| <= |m| && m[|m| - |DecimalString(e.status)|..] == DecimalString(e.status)
  {
    match e
    case KeyNotConfigured(v) => VendorName(v) + " API key not configured"
    case KeyNotFound => "OpenRouter API key not found in environment variables"
    case RequestFailed(v, status) => VendorName(v) + " API request failed: " + DecimalString(status)
    case NoContent(v) => "No content received from " + VendorName(v) + " API"
    case ParseFailed => ParseFailedMessage
    case Transport(message) => message
    case Unsupported(provider) => "Unsupported provider: " + provider
  }

  /** The HTTP status of a failed request can be read back from its message. */
  lemma RequestFailedMessageStatus(v: Vendor, status: nat)
    ensures var m := Message(RequestFailed(v, status));
      DecimalValue(m[|m| - |DecimalString(status)|..]) == status
  {
    DecimalRoundTrip(status);
  }

  // ---------------------------------------------------------------- prompt

  const PromptHead :=
    "Please analyze how well this resume matches the given job description. Provide a detailed analysis in the following JSON format:\n"
    + "\n"
    + "{\n"
    + "  \"matchScore\": <overall score 0-100>,\n"
    + "  \"skillMatch\": <skills alignment score 0-100>,\n"
    + "  \"experienceMatch\": <experience alignment score 0-100>,\n"
    + "  \"educationMatch\": <education alignment score 0-100>,\n"
    + "  \"keywordMatch\": <keyword coverage score 0-100>,\n"
    + "  \"strengths\": [<array of 2-4 key strengths where resume aligns well>],\n"
    + "  \"improvements\": [<array of 2-3 areas that could be improved or highlighted better>],\n"
    + "  \"recommendations\": [<array of 3-4 specific actionable recommendations>],\n"
    + "  \"summary\": \"<brief 2-3 sentence overall assessment>\"\n"
    + "}\n"
    + "\n"
    + "Job Description:\n"

  const PromptMiddle := "\n\nResume:\n"

  const PromptTail :=
    "\n"
    + "\n"
    + "Analyze the alignment considering:\n"
    + "1. Required skills vs candidate skills\n"
    + "2. Experience level and domain match\n"
    + "3. Education requirements\n"
    + "4. Key responsibilities alignment\n"
    + "5. Industry knowledge and terminology\n"
    + "\n"
    + "Provide specific, actionable insights that would help improve the match score."

  /** The user prompt: the fixed template with both texts embedded verbatim. */
  function BuildPrompt(jobDescription: string, resumeText: string): string {
    PromptHead + jobDescription + PromptMiddle + resumeText + PromptTail
  }

  /** Each text sits at a fixed place in the prompt, between fixed parts of the template. */
  lemma BuildPromptLayout(jobDescription: string, resumeText: string)
    ensures var p := BuildPrompt(jobDescription, resumeText);
      |p| == |PromptHead| + |jobDescription| + |PromptMiddle| + |resumeText| + |PromptTail|
      && p[..|PromptHead|] == PromptHead
      && p[|PromptHead|..|PromptHead| + |jobDescription|] == jobDescription
      && p[|PromptHead| + |jobDescription| + |PromptMiddle|..|p| - |PromptTail|] == resumeText
      && p[|p| - |PromptTail|..] == PromptTail
  {
    var p := BuildPrompt(jobDescription, resumeText);
    assert p[..|PromptHead|] == PromptHead;
    assert p[|PromptHead|..|PromptHead| + |jobDescription|] == jobDescription;
    assert p[|PromptHead| + |jobDescription| + |PromptMiddle|..|p| - |PromptTail|] == resumeText;
    assert p[|p| - |PromptTail|..] == PromptTail;
  }

  /** Two prompts for texts of the same lengths are equal only when the texts are. */
  lemma BuildPromptInjective(jd1: string, rs1: string, jd2: string, rs2: string)
    requires |jd1| == |jd2| && |rs1| == |rs2|
    requires BuildPrompt(jd1, rs1) == BuildPrompt(jd2, rs2)
    ensures jd1 == jd2 && rs1 == rs2
  {
    BuildPromptLayout(jd1, rs1);
    BuildPromptLayout(jd2, rs2);
  }

  // ---------------------------------------------------------------- the JSON span

  /** Position of the first `c` in `s`. */
  function FirstIndex(s: string, c: char): (r: Option<nat>)
    ensures r.Some? ==> r.value < |s| && s[r.value] == c && forall k :: 0 <= k < r.value ==> s[k] != c
    ensures r.None? ==> forall k :: 0 <= k < |s| ==> s[k] != c
  {
    if s == [] then None
    else if s[0] == c then Some(0)
    else match FirstIndex(s[1..], c)
      case None => None
      case Some(i) => Some(i + 1)
  }

  /** Position of the last `c` in `s`. */
  function LastIndex(s: string, c: char): (r: Option<nat>)
    ensures r.Some? ==> r.value < |s| && s[r.value] == c && forall k :: r.value < k < |s| ==> s[k] != c
    ensures r.None? ==> forall k :: 0 <= k < |s| ==> s[k] != c
  {
    if s == [] then None
    else if s[|s| - 1] == c then Some(|s| - 1)
    else LastIndex(s[..|s| - 1], c)
  }

  /**
   * The match of `/\{[\s\S]*\}/`: the leftmost `{` that has a `}` after it, extended greedily
   * to the last `}`. It exists exactly when some `{` precedes some `}`.
   */
  function JsonSpanBounds(content: string): (r: Option<(nat, nat)>)
    ensures r.Some? ==>
      var (i, j) := r.value;
      i < j < |content| && content[i] == '{' && content[j] == '}'
      && (forall k :: 0 <= k < i ==> content[k] != '{')
      && (forall k :: j < k < |content| ==> content[k] != '}')
    ensures r.None? ==> forall i, j :: 0 <= i < j < |content| && content[i] == '{' ==> content[j] != '}'
  {
    match (FirstIndex(content, '{'), LastIndex(content, '}'))
    case (Some(i), Some(j)) => if i < j then Some((i, j)) else None
    case _ => None
  }

  function ExtractJsonSpan(content: string): (r: Option<string>)
    ensures r.Some? ==> |r.value| >= 2 && r.value[0] == '{' && r.value[|r.value| - 1] == '}'
  {
    match JsonSpanBounds(content)
    case None => None
    case Some((i, j)) => Some(content[i..j + 1])
  }

  /** Prose around a single JSON object is dropped: the span is exactly the object. */
  lemma SpanOfWrappedObject(before: string, body: string, after: string)
    requires |body| >= 2 && body[0] == '{' && body[|body| - 1] == '}'
    requires forall k :: 0 <= k < |before| ==> before[k] != '{'
    requires forall k :: 0 <= k < |after| ==> after[k] != '}'
    ensures ExtractJsonSpan(before + body + after) == Some(body)
  {
    var s := before + body + after;
    var first := |before|;
    var last := |before| + |body| - 1;
    assert s[first] == '{' && s[last] == '}';
    assert forall k :: 0 <= k < first ==> s[k] == before[k];
    assert forall k :: last < k < |s| ==> s[k] == after[k - |before| - |body|];
    var b := JsonSpanBounds(s);
    assert b.Some?;
    assert b.value.0 == first;
    assert b.value.1 == last;
    assert s[first..last + 1] == body;
  }

  // ---------------------------------------------------------------- normalisation

  const ScoreFields: seq<string> := ["matchScore", "skillMatch", "experienceMatch", "educationMatch", "keywordMatch"]
  const ListFields: seq<string> := ["strengths", "improvements", "recommendations"]
  const RequiredFields: seq<string> := ScoreFields + ListFields + ["summary"]

  predicate HasFields(m: map<string, Json>, names: seq<string>) {
    forall k :: 0 <= k < |names| ==> names[k] in m
  }

  predicate Distinct(names: seq<string>) {
    forall i, j :: 0 <= i < j < |names| ==> names[i] != names[j]
  }

  /** `Math.max(0, Math.min(100, Number(x) || 0))` written back as a number. */
  function ClampField(v: Json): (r: Json)
    ensures r.JNum? && 0.0 <= r.num <= 100.0
  {
    JNum(ScoreOf(v))
  }

  /** `if (!Array.isArray(x)) x = []`. */
  function CoerceList(v: Json): (r: Json)
    ensures r.JArr?
    ensures v.JArr? ==> r == v
  {
    if v.JArr? then v else JArr([])
  }

  /** The effect of `for (const name of names) m[name] = f(m[name])`, one field after another. */
  function Overwrite(m: map<string, Json>, names: seq<string>, f: Json -> Json): (r: map<string, Json>)
    requires HasFields(m, names)
    ensures r.Keys == m.Keys
    decreases |names|
  {
    if names == [] then m
    else
      var last := names[|names| - 1];
      var prefix := Overwrite(m, names[..|names| - 1], f);
      prefix[last := f(prefix[last])]
  }

  /** Over distinct names the loop applies `f` once to each named field and touches nothing else. */
  lemma {:induction false} OverwriteEffect(m: map<string, Json>, names: seq<string>, f: Json -> Json)
    requires HasFields(m, names) && Distinct(names)
    ensures forall k :: k in m ==> Overwrite(m, names, f)[k] == if k in names then f(m[k]) else m[k]
    decreases |names|
  {
    if names != [] {
      var init := names[..|names| - 1];
      var last := names[|names| - 1];
      OverwriteEffect(m, init, f);
      assert forall i :: 0 <= i < |init| ==> init[i] == names[i];
      assert last !in init;
      forall k | k in m
        ensures Overwrite(m, names, f)[k] == if k in names then f(m[k]) else m[k]
      {
        assert k in names <==> k in init || k == last;
      }
    }
  }

  /** The score loop followed by the array loop. */
  function Normalize(m: map<string, Json>): (r: map<string, Json>)
    requires HasFields(m, RequiredFields)
    ensures r.Keys == m.Keys
  {
    RequiredCoversGroups(m);
    var scored := Overwrite(m, ScoreFields, ClampField);
    Overwrite(scored, ListFields, CoerceList)
  }

  lemma RequiredCoversGroups(m: map<string, Json>)
    requires HasFields(m, RequiredFields)
    ensures HasFields(m, ScoreFields) && HasFields(m, ListFields) && "summary" in m
  {
    forall k | 0 <= k < |ScoreFields| ensures ScoreFields[k] in m {
      assert RequiredFields[k] == ScoreFields[k];
    }
    forall k | 0 <= k < |ListFields| ensures ListFields[k] in m {
      assert RequiredFields[|ScoreFields| + k] == ListFields[k];
    }
    assert RequiredFields[|ScoreFields| + |ListFields|] == "summary";
  }

  /** No name is repeated, and no score field is a list field. */
  lemma FieldGroupsDistinct()
    ensures Distinct(ScoreFields) && Distinct(ListFields)
    ensures forall k :: k in ListFields ==> k !in ScoreFields
  {
  }

  /**
   * After normalisation each score field holds its clamped number, each list field the
   * original array or `[]`, and every other field (the summary included) is unchanged.
   */
  lemma NormalizeEffect(m: map<string, Json>)
    requires HasFields(m, RequiredFields)
    ensures forall k :: k in m && k in ScoreFields ==> Normalize(m)[k] == ClampField(m[k])
    ensures forall k :: k in m && k in ListFields ==> Normalize(m)[k] == CoerceList(m[k])
    ensures forall k :: k in m && k !in ScoreFields && k !in ListFields ==> Normalize(m)[k] == m[k]
  {
    RequiredCoversGroups(m);
    FieldGroupsDistinct();
    var scored := Overwrite(m, ScoreFields, ClampField);
    OverwriteEffect(m, ScoreFields, ClampField);
    OverwriteEffect(scored, ListFields, CoerceList);
    forall k | k in m && k in ListFields ensures Normalize(m)[k] == CoerceList(m[k]) {
      assert scored[k] == m[k];
    }
  }

  /** Normalising a normalised reply changes nothing. */
  lemma NormalizeIdempotent(m: map<string, Json>)
    requires HasFields(m, RequiredFields)
    ensures HasFields(Normalize(m), RequiredFields)
    ensures Normalize(Normalize(m)) == Normalize(m)
  {
    var n := Normalize(m);
    NormalizeEffect(m);
    assert HasFields(n, RequiredFields);
    NormalizeEffect(n);
    forall k | k in n ensures Normalize(n)[k] == n[k] {
      if k in ScoreFields {
        ScoreOfFacts(m[k]);
      }
    }
  }

  /**
   * `parseResponse`: the span must exist, parse, be an object and hold all nine required
   * fields; every failure is the one generic error.
   */
  function ParsedResponse(content: string, parse: string -> Option<Json>): (r: Result<map<string, Json>, ProviderError>)
    ensures r.Failure? ==> r.error == ParseFailed
  {
    match ExtractJsonSpan(content)
    case None => Failure(ParseFailed)
    case Some(span) =>
      match parse(span)
      case Some(JObj(fields)) =>
        if HasFields(fields, RequiredFields) then Success(Normalize(fields)) else Failure(ParseFailed)
      case _ => Failure(ParseFailed)
  }

  /**
   * The normaliser succeeds exactly when a brace span exists and parses to an object that
   * holds the nine fields, and its result is that object normalised.
   */
  lemma ParsedResponseSuccess(content: string, parse: string -> Option<Json>) returns (fields: map<string, Json>)
    requires ParsedResponse(content, parse).Success?
    ensures ExtractJsonSpan(content).Some? && parse(ExtractJsonSpan(content).value) == Some(JObj(fields))
    ensures HasFields(fields, RequiredFields)
    ensures ParsedResponse(content, parse).value == Normalize(fields)
  {
    fields := parse(ExtractJsonSpan(content).value).value.fields;
  }

  lemma ParsedResponseFailure(content: string, parse: string -> Option<Json>)
    requires ExtractJsonSpan(content).None?
      || parse(ExtractJsonSpan(content).value).None?
      || !parse(ExtractJsonSpan(content).value).value.JObj?
      || !HasFields(parse(ExtractJsonSpan(content).value).value.fields, RequiredFields)
    ensures ParsedResponse(content, parse) == Failure(ParseFailed)
  {
  }

  /**
   * A normalised reply still has all nine fields; its scores are numbers in [0, 100], exactly
   * the clamped originals; its lists are arrays; its summary is the original one.
   */
  lemma NormalizeShape(m: map<string, Json>)
    requires HasFields(m, RequiredFields)
    ensures HasFields(Normalize(m), RequiredFields)
    ensures forall k :: 0 <= k < |ScoreFields| ==>
      ScoreFields[k] in m && Normalize(m)[ScoreFields[k]] == JNum(ScoreOf(m[ScoreFields[k]]))
      && 0.0 <= ScoreOf(m[ScoreFields[k]]) <= 100.0
    ensures forall k :: 0 <= k < |ListFields| ==>
      ListFields[k] in m && Normalize(m)[ListFields[k]].JArr?
    ensures "summary" in m && Normalize(m)["summary"] == m["summary"]
  {
    RequiredCoversGroups(m);
    NormalizeEffect(m);
    forall k | 0 <= k < |ScoreFields|
      ensures Normalize(m)[ScoreFields[k]] == JNum(ScoreOf(m[ScoreFields[k]]))
    {
      assert ScoreFields[k] in ScoreFields;
    }
    forall k | 0 <= k < |ListFields|
      ensures Normalize(m)[ListFields[k]].JArr?
    {
      assert ListFields[k] in ListFields;
    }
  }

  /** `for (const field of names) if (m[field] === undefined) throw …`. */
  method CheckFields(m: map<string, Json>, names: seq<string>) returns (ok: bool)
    ensures ok == HasFields(m, names)
  {
    var i := 0;
    while i < |names|
      invariant 0 <= i <= |names|
      invariant HasFields(m, names[..i])
    {
      if names[i] !in m {
        return false;
      }
      i := i + 1;
    }
    assert names[..i] == names;
    return true;
  }

  /** `for (const score of names) m[score] = Math.max(0, Math.min(100, Number(m[score]) || 0))`. */
  method ClampScores(m: map<string, Json>, names: seq<string>) returns (r: map<string, Json>)
    requires HasFields(m, names)
    ensures r == Overwrite(m, names, ClampField)
  {
    r := m;
    var i := 0;
    while i < |names|
      invariant 0 <= i <= |names|
      invariant HasFields(m, names[..i])
      invariant r == Overwrite(m, names[..i], ClampField)
    {
      var name := names[i];
      r := r[name := JNum(ScoreOf(r[name]))];
      assert names[..i + 1][..i] == names[..i];
      i := i + 1;
    }
    assert names[..i] == names;
  }

  /** `for (const arr of names) if (!Array.isArray(m[arr])) m[arr] = []`. */
  method CoerceLists(m: map<string, Json>, names: seq<string>) returns (r: map<string, Json>)
    requires HasFields(m, names)
    ensures r == Overwrite(m, names, CoerceList)
  {
    r := m;
    var i := 0;
    while i < |names|
      invariant 0 <= i <= |names|
      invariant HasFields(m, names[..i])
      invariant r == Overwrite(m, names[..i], CoerceList)
    {
      var name := names[i];
      if !r[name].JArr? {
        r := r[name := JArr([])];
      }
      assert names[..i + 1][..i] == names[..i];
      i := i + 1;
    }
    assert names[..i] == names;
  }

  /**
   * `parseResponse` as the source runs it: find the span, parse it, check the required
   * fields one by one, then overwrite the scores and the lists of the parsed object in place.
   */
  method ParseResponse(content: string, parse: string -> Option<Json>) returns (r: Result<map<string, Json>, ProviderError>)
    ensures r == ParsedResponse(content, parse)
  {
    var span := ExtractJsonSpan(content);
    if span.None? {
      return Failure(ParseFailed);
    }
    var parsed := parse(span.value);
    if parsed.None? || !parsed.value.JObj? {
      return Failure(ParseFailed);
    }
    var fields := parsed.value.fields;
    var ok := CheckFields(fields, RequiredFields);
    if !ok {
      return Failure(ParseFailed);
    }
    RequiredCoversGroups(fields);
    var scored := ClampScores(fields, ScoreFields);
    fields := CoerceLists(scored, ListFields);
    return Success(fields);
  }

  // ---------------------------------------------------------------- one exchange

  /**
   * What a vendor's HTTP endpoint gave back: the `ok` flag, the status, and the text found at
   * the vendor's content path (`choices[0].message.content` or `content[0].text`), if any.
   */
  datatype Reply = Reply(ok: bool, status: nat, content: Option<string>)

  /**
   * The network: a vendor, the bearer key and the prompt in, a reply or a thrown error's
   * message out.
   */
  type Network = (Vendor, string, string) -> Result<Reply, string>

  /**
   * One request with a built prompt: a failed request, a non-ok status or empty content
   * throw their own error; otherwise the content is normalised.
   */
  function Exchange(vendor: Vendor, key: string, prompt: string, net: Network, parse: string -> Option<Json>)
    : (r: Result<map<string, Json>, ProviderError>)
    ensures r.Success? ==>
      var reply := net(vendor, key, prompt);
      reply.Success? && reply.value.ok && reply.value.content.Some? && reply.value.content.value != []
      && r == ParsedResponse(reply.value.content.value, parse)
    ensures net(vendor, key, prompt).Failure? ==> r == Failure(Transport(net(vendor, key, prompt).error))
    ensures net(vendor, key, prompt).Success? && !net(vendor, key, prompt).value.ok ==>
      r == Failure(RequestFailed(vendor, net(vendor, key, prompt).value.status))
    ensures var reply := net(vendor, key, prompt);
      reply.Success? && reply.value.ok && (reply.value.content.None? || reply.value.content.value == []) ==>
        r == Failure(NoContent(vendor))
  {
    match net(vendor, key, prompt)
    case Failure(message) => Failure(Transport(message))
    case Success(reply) =>
      if !reply.ok then Failure(RequestFailed(vendor, reply.status))
      else if reply.content.None? || reply.content.value == [] then Failure(NoContent(vendor))
      else ParsedResponse(reply.content.value, parse)
  }

  /** The exchange as code: build the prompt, call, check the reply, run `parseResponse`. */
  method RequestAnalysis(vendor: Vendor, key: string, jobDescription: string, resumeText: string,
                         net: Network, parse: string -> Option<Json>) returns (r: Result<map<string, Json>, ProviderError>)
    ensures r == Exchange(vendor, key, BuildPrompt(jobDescription, resumeText), net, parse)
  {
    var prompt := BuildPrompt(jobDescription, resumeText);
    var response := net(vendor, key, prompt);
    if response.Failure? {
      return Failure(Transport(response.error));
    }
    var reply := response.value;
    if !reply.ok {
      return Failure(RequestFailed(vendor, reply.status));
    }
    if reply.content.None? || reply.content.value == [] {
      return Failure(NoContent(vendor));
    }
    r := ParseResponse(reply.content.value, parse);
  }
}
