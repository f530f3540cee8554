/**
 * The Express routes (server/routes.ts): `/api/extract-pdf` with its length check,
 * `/api/match` with an OpenRouter-only attempt and the analyser as fallback, and
 * `/api/analysis/:id` with `parseInt` on the path parameter.
 */
module Routes {
  import opened Wrappers
  import opened Strings
  import opened Scanners
  import opened Json
  import opened Schema
  import opened ProviderResponse
  import opened OpenRouter
  import TextSimilarity
  import opened Storage
  import opened Http
  import MatchHandler

  // ---------------------------------------------------------------- POST /api/extract-pdf

  const NoFileMessage := "No PDF file uploaded"
  const InsufficientTextMessage := "Could not extract sufficient text from PDF. Please ensure the PDF contains readable text."
  const ExtractFailedMessage := "Failed to extract text from PDF"
  const MinExtractedLength: nat := 50

  /**
   * The extract-pdf handler. The extractor is a parameter: it yields the text or throws, with
   * the thrown value's message when it is an `Error`.
   */
  function ExtractPdf(file: Option<seq<bv8>>, extract: seq<bv8> -> Result<string, Option<string>>): (r: Response)
    ensures file.None? ==> r == Response(400, MessageBody(NoFileMessage))
    ensures r.status == 200 <==>
      file.Some? && extract(file.value).Success? && |extract(file.value).value| >= MinExtractedLength
    ensures r.status == 200 ==> r.body == TextBody(extract(file.value).value)
    ensures file.Some? && extract(file.value).Success? && |extract(file.value).value| < MinExtractedLength ==>
      r == Response(400, MessageBody(InsufficientTextMessage))
    ensures file.Some? && extract(file.value).Failure? ==>
      r.status == 500 && r.body == MessageBody(extract(file.value).error.GetOr(ExtractFailedMessage))
  {
    if file.None? then Response(400, MessageBody(NoFileMessage))
    else
      match extract(file.value)
      case Failure(message) => Response(500, MessageBody(message.GetOr(ExtractFailedMessage)))
      case Success(text) =>
        if |text| < MinExtractedLength then Response(400, MessageBody(InsufficientTextMessage))
        else Response(200, TextBody(text))
  }

  // ---------------------------------------------------------------- POST /api/match

  /**
   * The match route. Unlike the serverless handler it validates the whole body and always
   * tries the OpenRouter client configured by the environment.
   */
  method HandleMatch(body: Option<Json>, store: MemStorage, vars: map<string, string>, net: Network,
                     parse: string -> Option<Json>, now: int) returns (resp: Response)
    requires store.Valid()
    modifies store
    ensures store.Valid()
    ensures ParseMatchRequestBody(body).Failure? ==>
      resp == Response(400, InvalidInput(InvalidInputMessage, ParseMatchRequestBody(body).error))
      && store.analyses == old(store.analyses) && store.currentId == old(store.currentId)
    ensures ParseMatchRequestBody(body).Success? ==>
      var m := ParseMatchRequestBody(body).value;
      var reply := ClientAnalysis(vars, m.jobDescription, m.resumeText, net, parse);
      var ai := if reply.Success? then Some(reply.value) else None;
      var record := MatchAnalysis(old(store.currentId), m.jobDescription, m.resumeText,
                                  MatchHandler.Outcome(ai, m.jobDescription, m.resumeText), reply.Success?, now);
      resp == Response(200, StoredAnalysis(record, !reply.Success?))
      && store.analyses == old(store.analyses)[record.id := record]
      && store.currentId == old(store.currentId) + 1
  {
    var request := ParseMatchRequestBody(body);
    if request.Failure? {
      return Response(400, InvalidInput(InvalidInputMessage, request.error));
    }
    var reply := OpenRouter.AnalyzeMatch(vars, request.value.jobDescription, request.value.resumeText, net, parse);
    var ai := if reply.Success? then Some(reply.value) else None;
    resp := MatchHandler.StoreOutcome(store, request.value.jobDescription, request.value.resumeText, ai, now);
  }

  /** Without settings the serverless handler makes the same attempt as this route. */
  lemma RoutesAgreeWithoutSettings(body: Json, vars: map<string, string>, jobDescription: string, resumeText: string,
                                   net: Network, parse: string -> Option<Json>)
    requires !Truthy(Get(body, "apiSettings"))
    ensures var attempt := MatchHandler.Attempt(Get(body, "apiSettings"), vars, jobDescription, resumeText, net, parse);
      var reply := ClientAnalysis(vars, jobDescription, resumeText, net, parse);
      (attempt.Success? <==> reply.Success?) && (attempt.Success? ==> attempt.value == reply.value)
      && MatchHandler.ReplyOf(attempt) == (if reply.Success? then Some(reply.value) else None)
  {
  }

  /**
   * A null body, though, is a 500 in the serverless handler (destructuring throws) and a 400
   * here (the schema rejects it).
   */
  lemma RoutesDisagreeOnNullBody()
    ensures MatchHandler.Validated(MatchHandler.Request("POST", Some(JNull)))
      == Failure(Response(500, MessageBody(MatchHandler.BodyNullError)))
    ensures ParseMatchRequestBody(Some(JNull)) == Failure([NotAnObject])
  {
  }

  // ---------------------------------------------------------------- GET /api/analysis/:id

  const InvalidIdMessage := "Invalid analysis ID"
  const NotFoundMessage := "Analysis not found"

  predicate IsHexDigit(c: char) {
    IsDigit(c) || 'a' <= c <= 'f' || 'A' <= c <= 'F'
  }

  function HexDigitValue(c: char): (v: nat)
    requires IsHexDigit(c)
    ensures v < 16
  {
    if IsDigit(c) then c as int - '0' as int
    else if 'a' <= c <= 'f' then c as int - 'a' as int + 10
    else c as int - 'A' as int + 10
  }

  function HexRun(s: string): (n: nat)
    ensures n <= |s|
    ensures forall i :: 0 <= i < n ==> IsHexDigit(s[i])
    ensures n < |s| ==> !IsHexDigit(s[n])
  {
    if s == [] || !IsHexDigit(s[0]) then 0 else 1 + HexRun(s[1..])
  }

  function HexValue(ds: string): nat
    requires forall i :: 0 <= i < |ds| ==> IsHexDigit(ds[i])
  {
    if ds == [] then 0 else 16 * HexValue(ds[..|ds| - 1]) + HexDigitValue(ds[|ds| - 1])
  }

  /** The digits after the sign: a `0x`/`0X` prefix selects base 16; no digit at all is NaN. */
  function UnsignedInt(t: string): Option<nat> {
    if |t| >= 2 && t[0] == '0' && (t[1] == 'x' || t[1] == 'X') then
      var n := HexRun(t[2..]);
      if n == 0 then None else Some(HexValue(t[2..][..n]))
    else
      var n := DigitRun(t);
      if n == 0 then None else Some(DecimalValue(t[..n]))
  }

  /**
   * `parseInt(s)` without a radix: leading whitespace is skipped, a sign is read, and the
   * longest run of digits after it is the value; anything after the run is ignored.
   */
  function ParseInt(s: string): Option<int> {
    var t := s[SpaceRun(s)..];
    if t != [] && t[0] == '-' then
      match UnsignedInt(t[1..])
      case None => None
      case Some(v) => Some(-(v as int))
    else if t != [] && t[0] == '+' then
      match UnsignedInt(t[1..])
      case None => None
      case Some(v) => Some(v)
    else
      match UnsignedInt(t)
      case None => None
      case Some(v) => Some(v)
  }

  lemma {:induction false} DigitRunOfPrefix(ds: string, rest: string)
    requires forall i :: 0 <= i < |ds| ==> IsDigit(ds[i])
    requires rest == [] || !IsDigit(rest[0])
    ensures DigitRun(ds + rest) == |ds|
    decreases |ds|
  {
    if ds != [] {
      assert (ds + rest)[1..] == ds[1..] + rest;
      DigitRunOfPrefix(ds[1..], rest);
    } else {
      assert ds + rest == rest;
    }
  }

  /**
   * The id a stored record was issued reads back from its decimal text, also when the path
   * segment continues with something that is not a word character.
   */
  lemma ParseIntOfDecimal(n: nat, rest: string)
    requires rest == [] || !IsWordChar(rest[0])
    ensures ParseInt(DecimalString(n) + rest) == Some(n)
  {
    var ds := DecimalString(n);
    var s := ds + rest;
    assert IsDigit(s[0]) && !IsSpace(s[0]);
    assert s[SpaceRun(s)..] == s;
    assert |s| >= 2 ==> IsDigit(s[1]) || s[1] == rest[0];
    DigitRunOfPrefix(ds, rest);
    assert s[..|ds|] == ds;
    DecimalRoundTrip(n);
  }

  /** Text without a single digit is never an id. */
  lemma ParseIntWithoutDigits(s: string)
    requires forall i :: 0 <= i < |s| ==> !IsDigit(s[i])
    ensures ParseInt(s) == None
  {
    var t := s[SpaceRun(s)..];
    assert forall i :: 0 <= i < |t| ==> t[i] == s[SpaceRun(s) + i];
    if t != [] && (t[0] == '-' || t[0] == '+') {
      assert t[1..] == [] || !IsDigit(t[1..][0]);
    }
  }

  /**
   * The analysis route: a path parameter that is not a number is a 400, an id the store never
   * issued a 404, and an issued id answers with its record.
   */
  method GetAnalysis(idParam: string, store: MemStorage) returns (resp: Response)
    requires store.Valid()
    ensures ParseInt(idParam).None? ==> resp == Response(400, MessageBody(InvalidIdMessage))
    ensures ParseInt(idParam).Some? && !(1 <= ParseInt(idParam).value < store.currentId) ==>
      resp == Response(404, MessageBody(NotFoundMessage))
    ensures ParseInt(idParam).Some? && 1 <= ParseInt(idParam).value < store.currentId ==>
      resp == Response(200, AnalysisBody(store.analyses[ParseInt(idParam).value]))
      && resp.body.analysis.id == ParseInt(idParam).value
  {
    var id := ParseInt(idParam);
    if id.None? {
      return Response(400, MessageBody(InvalidIdMessage));
    }
    var analysis := store.GetMatchAnalysis(id.value);
    if analysis.None? {
      return Response(404, MessageBody(NotFoundMessage));
    }
    resp := Response(200, AnalysisBody(analysis.value));
  }
}
