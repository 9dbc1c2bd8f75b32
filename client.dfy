/** The facade: resolves the API key and the base URL from explicit options,
    then the environment, then a default, and wires one HTTP client to the
    fold service. The environment is a parameter. */
module Facade {
  import opened Js
  import opened Errors
  import opened Http
  import opened Fold

  const API_KEY_VAR: string := "FASTFOLD_API_KEY"
  const BASE_URL_VAR: string := "FASTFOLD_BASE_URL"
  const DEFAULT_BASE_URL: string := "https://api.fastfold.ai"
  const MISSING_KEY_MESSAGE: string :=
    "FASTFOLD_API_KEY is not set and no apiKey was provided. "
    + "Set the environment variable or pass { apiKey } to new Client()."

  datatype ClientOptions = ClientOptions(apiKey: Option<string>, baseUrl: Option<string>, timeoutMs: Option<Number>)

  /** `opts.apiKey || process.env.FASTFOLD_API_KEY`, when it is a usable key. */
  function ResolveApiKey(opts: ClientOptions, env: map<string, string>): (key: Option<string>)
    ensures key.Some? ==> key.value != ""
    ensures NonEmpty(opts.apiKey) ==> key == opts.apiKey
    ensures !NonEmpty(opts.apiKey) && NonEmpty(Lookup(env, API_KEY_VAR)) ==> key == Lookup(env, API_KEY_VAR)
    ensures key.None? <==> !NonEmpty(opts.apiKey) && !NonEmpty(Lookup(env, API_KEY_VAR))
  {
    var candidates := [opts.apiKey, Lookup(env, API_KEY_VAR)];
    var key := FirstNonEmpty(candidates);
    assert NonEmpty(opts.apiKey) ==> NonEmpty(candidates[0]);
    assert NonEmpty(Lookup(env, API_KEY_VAR)) ==> NonEmpty(candidates[1]);
    key
  }

  /** `opts.baseUrl || process.env.FASTFOLD_BASE_URL || "https://api.fastfold.ai"` */
  function ResolveBaseUrl(opts: ClientOptions, env: map<string, string>): (url: string)
    ensures url != ""
    ensures NonEmpty(opts.baseUrl) ==> url == opts.baseUrl.value
    ensures !NonEmpty(opts.baseUrl) && NonEmpty(Lookup(env, BASE_URL_VAR)) ==> url == env[BASE_URL_VAR]
    ensures !NonEmpty(opts.baseUrl) && !NonEmpty(Lookup(env, BASE_URL_VAR)) ==> url == DEFAULT_BASE_URL
  {
    var candidates := [opts.baseUrl, Lookup(env, BASE_URL_VAR), Some(DEFAULT_BASE_URL)];
    assert NonEmpty(candidates[2]);
    var url := FirstNonEmpty(candidates);
    assert NonEmpty(opts.baseUrl) ==> NonEmpty(candidates[0]);
    assert NonEmpty(Lookup(env, BASE_URL_VAR)) ==> NonEmpty(candidates[1]);
    url.value
  }

  /** Resolving again from an already resolved key changes nothing. */
  lemma ResolveApiKeyStable(opts: ClientOptions, env: map<string, string>)
    ensures var again := ClientOptions(ResolveApiKey(opts, env), opts.baseUrl, opts.timeoutMs);
            ResolveApiKey(again, env) == ResolveApiKey(opts, env)
  {
  }

  class Client {
    const http: HttpClient
    const fold: FoldService

    /** The part of the constructor after the key check. */
    constructor (apiKey: string, baseUrl: string, timeoutMs: Option<Number>, packageVersion: Option<string>)
      ensures fresh(http) && fresh(fold)
      ensures http.baseUrl == StripTrailingSlashes(baseUrl)
      ensures http.timeoutMs == if timeoutMs.Some? then timeoutMs.value else Num(DEFAULT_TIMEOUT_MS)
      ensures "Authorization" in http.headers && http.headers["Authorization"] == "Bearer " + apiKey
      ensures fold.http == http
    {
      var transport := new HttpClient(HttpClientOptions(baseUrl, apiKey, timeoutMs), packageVersion);
      http := transport;
      fold := new FoldService(transport);
    }

    /** `new Client(opts)`: fails with an `AuthenticationError`, before any
        client is built, when no key resolves. */
    static method Create(opts: ClientOptions, env: map<string, string>, packageVersion: Option<string>)
      returns (r: Result<Client, Error>)
      ensures r.Failure? <==> ResolveApiKey(opts, env).None?
      ensures r.Failure? ==> r.error == Authentication(MISSING_KEY_MESSAGE)
      ensures r.Success? ==> fresh(r.value) && fresh(r.value.http) && fresh(r.value.fold)
      ensures r.Success? ==> r.value.fold.http == r.value.http
      ensures r.Success? ==> r.value.http.baseUrl == StripTrailingSlashes(ResolveBaseUrl(opts, env))
      ensures r.Success? ==> r.value.http.timeoutMs ==
                             if opts.timeoutMs.Some? then opts.timeoutMs.value else Num(DEFAULT_TIMEOUT_MS)
      ensures r.Success? ==> "Authorization" in r.value.http.headers && r.value.http.headers["Authorization"] == "Bearer " + ResolveApiKey(opts, env).value
    {
      var apiKey := ResolveApiKey(opts, env);
      if apiKey.None? {
        return Failure(Authentication(MISSING_KEY_MESSAGE));
      }
      var baseUrl := ResolveBaseUrl(opts, env);
      var client := new Client(apiKey.value, baseUrl, opts.timeoutMs, packageVersion);
      r := Success(client);
    }
  }
}
