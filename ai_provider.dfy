/**
 * `AIProvider` (server/services/ai-provider.ts): a closed three-way dispatch on the configured
 * provider name, a credential check per vendor, and the OpenRouter path that borrows the
 * process-wide `OPENROUTER_API_KEY` for the duration of one call and puts it back afterwards.
 */
module AiProvider {
  import opened Wrappers
  import opened Json
  import opened ProviderResponse
  import opened OpenRouter
  import Schema

  /**
   * The provider configuration. The provider name is a plain string: the type annotation in
   * the source is not checked at run time, and the dispatch has a branch for other names.
   */
  datatype Config = Config(
    openaiKey: Option<string>,
    openrouterKey: Option<string>,
    claudeKey: Option<string>,
    preferredProvider: string)

  /** The configuration the handler builds from validated settings. */
  function ConfigOf(settings: Schema.ApiSettings): (c: Config)
    ensures Schema.ParseProvider(c.preferredProvider) == Some(settings.preferredProvider)
  {
    Config(settings.openaiKey, settings.openrouterKey, settings.claudeKey,
           Schema.ProviderName(settings.preferredProvider))
  }

  /** `if (!key)`: an absent or empty key is missing. */
  predicate Configured(key: Option<string>) {
    key.Some? && key.value != []
  }

  /** The process environment, shared by every request the server handles. */
  class ProcessEnv {
    var vars: map<string, string>

    constructor(vars: map<string, string>)
      ensures this.vars == vars
    {
      this.vars := vars;
    }
  }

  /**
   * The environment after the `finally` block: the saved value is written back when it was
   * a non-empty string, and the variable is deleted otherwise.
   */
  function Restored(saved: map<string, string>, current: map<string, string>): (r: map<string, string>)
    ensures forall name :: name != ApiKeyVar ==> (name in r <==> name in current)
    ensures forall name :: name != ApiKeyVar && name in current ==> r[name] == current[name]
    ensures EnvValue(saved, ApiKeyVar) != "" ==> ApiKeyVar in r && r[ApiKeyVar] == saved[ApiKeyVar]
    ensures EnvValue(saved, ApiKeyVar) == "" ==> ApiKeyVar !in r
  {
    if EnvValue(saved, ApiKeyVar) != "" then current[ApiKeyVar := saved[ApiKeyVar]]
    else current - {ApiKeyVar}
  }

  /**
   * Swapping the key in and restoring it leaves the environment as it was, except that a
   * variable that was set to the empty string is now unset.
   */
  lemma SwapRestoreRoundTrip(vars: map<string, string>, key: string)
    ensures EnvValue(vars, ApiKeyVar) != "" || ApiKeyVar !in vars ==>
      Restored(vars, vars[ApiKeyVar := key]) == vars
    ensures ApiKeyVar in vars && vars[ApiKeyVar] == "" ==>
      Restored(vars, vars[ApiKeyVar := key]) == vars - {ApiKeyVar}
  {
    var r := Restored(vars, vars[ApiKeyVar := key]);
    if EnvValue(vars, ApiKeyVar) != "" || ApiKeyVar !in vars {
      assert r.Keys == vars.Keys;
    } else {
      assert r.Keys == (vars - {ApiKeyVar}).Keys;
    }
  }

  /** The vendor a provider name selects, if it selects one. */
  function VendorOf(provider: string): (v: Option<Vendor>)
    ensures v.Some? <==> provider == "openrouter" || provider == "openai" || provider == "claude"
  {
    if provider == "openrouter" then Some(OpenRouterApi)
    else if provider == "openai" then Some(OpenAIApi)
    else if provider == "claude" then Some(ClaudeApi)
    else None
  }

  /** The configured key of a vendor. */
  function KeyFor(config: Config, vendor: Vendor): Option<string> {
    match vendor
    case OpenRouterApi => config.openrouterKey
    case OpenAIApi => config.openaiKey
    case ClaudeApi => config.claudeKey
  }

  /**
   * `analyzeMatch`: one vendor per provider name, a missing key for it fails before any
   * request, any other name is unsupported, and whatever the vendor call throws is rethrown.
   */
  function Dispatch(config: Config, jobDescription: string, resumeText: string,
                    net: Network, parse: string -> Option<Json>): (r: Result<map<string, Json>, ProviderError>)
    ensures VendorOf(config.preferredProvider).None? ==> r == Failure(Unsupported(config.preferredProvider))
    ensures VendorOf(config.preferredProvider).Some? ==>
      var vendor := VendorOf(config.preferredProvider).value;
      if !Configured(KeyFor(config, vendor)) then r == Failure(KeyNotConfigured(vendor))
      else r == Exchange(vendor, KeyFor(config, vendor).value, BuildPrompt(jobDescription, resumeText), net, parse)
  {
    match VendorOf(config.preferredProvider)
    case None => Failure(Unsupported(config.preferredProvider))
    case Some(vendor) =>
      var key := KeyFor(config, vendor);
      if !Configured(key) then Failure(KeyNotConfigured(vendor))
      else Exchange(vendor, key.value, BuildPrompt(jobDescription, resumeText), net, parse)
  }

  /** Settings that passed validation always name a vendor, so they are never unsupported. */
  lemma ValidatedSettingsAreSupported(settings: Schema.ApiSettings, jobDescription: string, resumeText: string,
                                      net: Network, parse: string -> Option<Json>)
    ensures VendorOf(ConfigOf(settings).preferredProvider).Some?
    ensures !Dispatch(ConfigOf(settings), jobDescription, resumeText, net, parse).Failure?
      || !Dispatch(ConfigOf(settings), jobDescription, resumeText, net, parse).error.Unsupported?
  {
    var c := ConfigOf(settings);
    assert Schema.ParseProvider(c.preferredProvider).Some?;
  }

  /** A missing credential decides the outcome before the network is consulted. */
  lemma MissingKeyIgnoresNetwork(config: Config, jobDescription: string, resumeText: string,
                                 net1: Network, net2: Network, parse: string -> Option<Json>)
    requires VendorOf(config.preferredProvider).Some?
    requires !Configured(KeyFor(config, VendorOf(config.preferredProvider).value))
    ensures Dispatch(config, jobDescription, resumeText, net1, parse)
         == Dispatch(config, jobDescription, resumeText, net2, parse)
  {
  }

  /**
   * `useOpenRouter`: after the key check, save `OPENROUTER_API_KEY`, set it to the configured
   * key, run the OpenRouter client, and restore the variable whether the call succeeded or
   * failed. The client therefore always sees the configured key.
   */
  method UseOpenRouter(config: Config, env: ProcessEnv, jobDescription: string, resumeText: string,
                       net: Network, parse: string -> Option<Json>) returns (r: Result<map<string, Json>, ProviderError>)
    modifies env
    ensures !Configured(config.openrouterKey) ==>
      r == Failure(KeyNotConfigured(OpenRouterApi)) && env.vars == old(env.vars)
    ensures Configured(config.openrouterKey) ==>
      r == Exchange(OpenRouterApi, config.openrouterKey.value, BuildPrompt(jobDescription, resumeText), net, parse)
      && env.vars == Restored(old(env.vars), old(env.vars)[ApiKeyVar := config.openrouterKey.value])
  {
    if !Configured(config.openrouterKey) {
      return Failure(KeyNotConfigured(OpenRouterApi));
    }
    var saved := env.vars;
    env.vars := env.vars[ApiKeyVar := config.openrouterKey.value];
    r := OpenRouter.AnalyzeMatch(env.vars, jobDescription, resumeText, net, parse);
    if EnvValue(saved, ApiKeyVar) != "" {
      env.vars := env.vars[ApiKeyVar := saved[ApiKeyVar]];
    } else {
      env.vars := env.vars - {ApiKeyVar};
    }
  }

  /** `useOpenAI` and `useClaude`: the key check, then one exchange with that vendor. */
  method UseVendor(vendor: Vendor, key: Option<string>, jobDescription: string, resumeText: string,
                   net: Network, parse: string -> Option<Json>) returns (r: Result<map<string, Json>, ProviderError>)
    ensures !Configured(key) ==> r == Failure(KeyNotConfigured(vendor))
    ensures Configured(key) ==>
      r == Exchange(vendor, key.value, BuildPrompt(jobDescription, resumeText), net, parse)
  {
    if !Configured(key) {
      return Failure(KeyNotConfigured(vendor));
    }
    r := RequestAnalysis(vendor, key.value, jobDescription, resumeText, net, parse);
  }

  /**
   * `AIProvider.analyzeMatch` as code. Its outcome is `Dispatch`; only the OpenRouter path with
   * a configured key touches the environment, and it leaves the key restored.
   */
  method AnalyzeMatch(config: Config, env: ProcessEnv, jobDescription: string, resumeText: string,
                      net: Network, parse: string -> Option<Json>) returns (r: Result<map<string, Json>, ProviderError>)
    modifies env
    ensures r == Dispatch(config, jobDescription, resumeText, net, parse)
    ensures config.preferredProvider == "openrouter" && Configured(config.openrouterKey) ==>
      env.vars == Restored(old(env.vars), old(env.vars)[ApiKeyVar := config.openrouterKey.value])
    ensures !(config.preferredProvider == "openrouter" && Configured(config.openrouterKey)) ==>
      env.vars == old(env.vars)
  {
    var provider := config.preferredProvider;
    if provider == "openrouter" {
      assert VendorOf(provider) == Some(OpenRouterApi);
      r := UseOpenRouter(config, env, jobDescription, resumeText, net, parse);
      assert r == Dispatch(config, jobDescription, resumeText, net, parse);
    } else if provider == "openai" {
      assert VendorOf(provider) == Some(OpenAIApi);
      r := UseVendor(OpenAIApi, config.openaiKey, jobDescription, resumeText, net, parse);
      assert r == Dispatch(config, jobDescription, resumeText, net, parse);
    } else if provider == "claude" {
      assert VendorOf(provider) == Some(ClaudeApi);
      r := UseVendor(ClaudeApi, config.claudeKey, jobDescription, resumeText, net, parse);
      assert r == Dispatch(config, jobDescription, resumeText, net, parse);
    } else {
      assert VendorOf(provider) == None;
      r := Failure(Unsupported(provider));
      assert r == Dispatch(config, jobDescription, resumeText, net, parse);
    }
  }
}
