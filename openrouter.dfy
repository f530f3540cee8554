/**
 * `OpenRouterClient` (server/services/openrouter-client.ts): its constructor reads the API key
 * from the process environment and refuses to exist without one; `analyzeMatch` is one
 * exchange with the OpenRouter endpoint whose errors reach the caller unchanged.
 */
module OpenRouter {
  import opened Wrappers
  import opened Json
  import opened ProviderResponse

  const ApiKeyVar := "OPENROUTER_API_KEY"
  const FallbackKeyVar := "OPENROUTER_KEY"

  /** `process.env[name]`, with an unset variable read as the empty string. */
  function EnvValue(env: map<string, string>, name: string): (v: string)
    ensures name in env ==> v == env[name]
    ensures name !in env ==> v == ""
  {
    if name in env then env[name] else ""
  }

  datatype Client = Client(apiKey: string)

  /**
   * `new OpenRouterClient()`: `OPENROUTER_API_KEY`, else `OPENROUTER_KEY`, an empty value
   * counting as missing; without either the constructor throws.
   */
  function NewClient(env: map<string, string>): (r: Result<Client, ProviderError>)
    ensures r.Success? <==> EnvValue(env, ApiKeyVar) != "" || EnvValue(env, FallbackKeyVar) != ""
    ensures r.Failure? ==> r.error == KeyNotFound
    ensures r.Success? ==> r.value.apiKey != ""
    ensures r.Success? && EnvValue(env, ApiKeyVar) != "" ==> r.value.apiKey == env[ApiKeyVar]
    ensures r.Success? && EnvValue(env, ApiKeyVar) == "" ==> r.value.apiKey == env[FallbackKeyVar]
  {
    var key := if EnvValue(env, ApiKeyVar) != "" then EnvValue(env, ApiKeyVar) else EnvValue(env, FallbackKeyVar);
    if key == "" then Failure(KeyNotFound) else Success(Client(key))
  }

  /**
   * `new OpenRouterClient().analyzeMatch(jobDescription, resumeText)`. Without a key no
   * request is made; with one, the request carries the primary key when it is set and the
   * fallback key otherwise, and its outcome, error included, is the caller's outcome.
   */
  function ClientAnalysis(env: map<string, string>, jobDescription: string, resumeText: string,
                          net: Network, parse: string -> Option<Json>): (r: Result<map<string, Json>, ProviderError>)
    ensures NewClient(env).Failure? ==> r == Failure(KeyNotFound)
    ensures EnvValue(env, ApiKeyVar) != "" ==>
      r == Exchange(OpenRouterApi, env[ApiKeyVar], BuildPrompt(jobDescription, resumeText), net, parse)
    ensures EnvValue(env, ApiKeyVar) == "" && EnvValue(env, FallbackKeyVar) != "" ==>
      r == Exchange(OpenRouterApi, env[FallbackKeyVar], BuildPrompt(jobDescription, resumeText), net, parse)
  {
    match NewClient(env)
    case Failure(e) => Failure(e)
    case Success(client) => Exchange(OpenRouterApi, client.apiKey, BuildPrompt(jobDescription, resumeText), net, parse)
  }

  /** The constructor followed by `analyzeMatch`, the way every caller uses the client. */
  method AnalyzeMatch(env: map<string, string>, jobDescription: string, resumeText: string,
                      net: Network, parse: string -> Option<Json>) returns (r: Result<map<string, Json>, ProviderError>)
    ensures r == ClientAnalysis(env, jobDescription, resumeText, net, parse)
  {
    var client := NewClient(env);
    if client.Failure? {
      return Failure(client.error);
    }
    r := RequestAnalysis(OpenRouterApi, client.value.apiKey, jobDescription, resumeText, net, parse);
  }
}
