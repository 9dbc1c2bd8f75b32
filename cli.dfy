/** The command-line entry point: `fastfold fold --sequence S --model M ...`.
    The argument vector, the environment, `JSON.parse` and the network are
    parameters; the result is the exit code. */
module Cli {
  import opened Js
  import opened Errors
  import opened Models
  import opened Http
  import opened Fold
  import opened Facade

  // The option loop

  predicate IsFlag(token: string) {
    StartsWith(token, "--")
  }

  /** The token after the flag at `i` exists, is not empty and is not a flag,
      so it is taken as the flag's value. */
  predicate TakesValue(argv: seq<string>, i: nat)
    requires i < |argv|
  {
    i + 1 < |argv| && argv[i + 1] != "" && !IsFlag(argv[i + 1])
  }

  /** The value recorded for the flag at `i`. */
  function FlagValue(argv: seq<string>, i: nat): string
    requires i < |argv|
  {
    if TakesValue(argv, i) then argv[i + 1] else "true"
  }

  /** The (key, value) pairs the loop records from position `i` on, in order. */
  function Pairs(argv: seq<string>, i: nat): seq<(string, string)>
    decreases |argv| - i
  {
    if i >= |argv| then []
    else if !IsFlag(argv[i]) then Pairs(argv, i + 1)
    else [(argv[i][2..], FlagValue(argv, i))] + Pairs(argv, if TakesValue(argv, i) then i + 2 else i + 1)
  }

  /** Records the pairs into `opts` from first to last. */
  function Apply(opts: map<string, string>, ps: seq<(string, string)>): map<string, string>
    decreases |ps|
  {
    if ps == [] then opts else Apply(opts[ps[0].0 := ps[0].1], ps[1..])
  }

  /** The options of a command line: everything after the subcommand. */
  function Options(argv: seq<string>): map<string, string> {
    Apply(map[], Pairs(argv, 1))
  }

  /** The loop of `main` that fills `opts` from `argv`. */
  method ParseArgs(argv: seq<string>) returns (opts: map<string, string>)
    ensures opts == Options(argv)
  {
    opts := map[];
    var i := 1;
    while i < |argv|
      invariant 1 <= i
      invariant Apply(opts, Pairs(argv, i)) == Options(argv)
      decreases |argv| - i
    {
      var arg := argv[i];
      if !StartsWith(arg, "--") {
        i := i + 1;
        continue;
      }
      var key := arg[2..];
      var val := "true";
      if i + 1 < |argv| && argv[i + 1] != "" && !StartsWith(argv[i + 1], "--") {
        i := i + 1;
        val := argv[i];
      }
      opts := opts[key := val];
      i := i + 1;
    }
  }

  lemma {:induction false} ApplyKeys(opts: map<string, string>, ps: seq<(string, string)>, k: string)
    ensures k in Apply(opts, ps) <==> k in opts || HasKey(ps, k)
    ensures !HasKey(ps, k) && k in opts ==> Apply(opts, ps)[k] == opts[k]
    decreases |ps|
  {
    if ps != [] {
      ApplyKeys(opts[ps[0].0 := ps[0].1], ps[1..], k);
      assert HasKey(ps, k) <==> ps[0].0 == k || HasKey(ps[1..], k) by {
        assert forall i :: 1 <= i < |ps| ==> ps[i] == ps[1..][i - 1];
      }
    }
  }

  lemma HasKeyCons(p: (string, string), ps: seq<(string, string)>, k: string)
    ensures HasKey([p] + ps, k) <==> p.0 == k || HasKey(ps, k)
  {
    var qs := [p] + ps;
    assert qs[0] == p;
    if HasKey(ps, k) {
      var i :| 0 <= i < |ps| && ps[i].0 == k;
      assert qs[i + 1] == ps[i];
    }
    if HasKey(qs, k) && p.0 != k {
      var i :| 0 <= i < |qs| && qs[i].0 == k;
      assert ps[i - 1] == qs[i];
    }
  }

  /** The flag at position `j` names key `k`. */
  predicate FlagFor(argv: seq<string>, j: nat, k: string)
    requires j < |argv|
  {
    argv[j] == "--" + k
  }

  lemma FlagForKey(token: string, k: string)
    ensures token == "--" + k <==> IsFlag(token) && token[2..] == k
  {
    if IsFlag(token) && token[2..] == k {
      assert token == token[..2] + token[2..];
    }
  }

  /** No flag from position `i` on is swallowed as a value: the keys recorded
      are exactly the keys of the flags from `i` on. */
  lemma {:induction false} PairsKeys(argv: seq<string>, i: nat, k: string)
    ensures HasKey(Pairs(argv, i), k) <==> exists j :: i <= j < |argv| && FlagFor(argv, j, k)
    decreases |argv| - i
  {
    if i < |argv| {
      FlagForKey(argv[i], k);
      var next := if !IsFlag(argv[i]) || !TakesValue(argv, i) then i + 1 else i + 2;
      PairsKeys(argv, next, k);
      if next == i + 2 {
        FlagForKey(argv[i + 1], k);
      }
      // a flag for k from i on is at i or from next on
      if j :| i <= j < |argv| && FlagFor(argv, j, k) {
        assert FlagFor(argv, i, k) || next <= j;
      }
      if FlagFor(argv, i, k) {
        assert i <= i < |argv| && FlagFor(argv, i, k);
      }
      if IsFlag(argv[i]) {
        assert Pairs(argv, i) == [(argv[i][2..], FlagValue(argv, i))] + Pairs(argv, next);
        HasKeyCons((argv[i][2..], FlagValue(argv, i)), Pairs(argv, next), k);
      } else {
        assert Pairs(argv, i) == Pairs(argv, next);
      }
    }
  }

  /** A flag name occurs among the options exactly when some token after the
      subcommand is that flag. */
  lemma OptionsKeys(argv: seq<string>, k: string)
    ensures k in Options(argv) <==> exists j :: 1 <= j < |argv| && FlagFor(argv, j, k)
  {
    ApplyKeys(map[], Pairs(argv, 1), k);
    PairsKeys(argv, 1, k);
  }

  /** The last flag for a key decides its value: a later duplicate
      overwrites an earlier one. */
  lemma {:induction false} PairsLastWins(argv: seq<string>, i: nat, opts: map<string, string>, k: string, j: nat)
    requires i <= j < |argv| && FlagFor(argv, j, k)
    requires forall m :: j < m < |argv| ==> !FlagFor(argv, m, k)
    ensures k in Apply(opts, Pairs(argv, i)) && Apply(opts, Pairs(argv, i))[k] == FlagValue(argv, j)
    decreases |argv| - i
  {
    FlagForKey(argv[j], k);
    var next := if TakesValue(argv, i) then i + 2 else i + 1;
    if i == j {
      var updated := opts[k := FlagValue(argv, j)];
      PairsKeys(argv, next, k);
      ApplyKeys(updated, Pairs(argv, next), k);
    } else if !IsFlag(argv[i]) {
      PairsLastWins(argv, i + 1, opts, k, j);
    } else {
      if TakesValue(argv, i) {
        assert j != i + 1;
      }
      PairsLastWins(argv, next, opts[argv[i][2..] := FlagValue(argv, i)], k, j);
    }
  }

  lemma OptionsLastWins(argv: seq<string>, k: string, j: nat)
    requires 1 <= j < |argv| && FlagFor(argv, j, k)
    requires forall m :: j < m < |argv| ==> !FlagFor(argv, m, k)
    ensures k in Options(argv) && Options(argv)[k] == FlagValue(argv, j)
  {
    PairsLastWins(argv, 1, map[], k, j);
  }

  /** A recorded value is "true" or a token that is neither empty nor a flag,
      so no value is ever empty and none was also read as a key. */
  lemma {:induction false} PairsValues(argv: seq<string>, i: nat)
    ensures forall p :: p in Pairs(argv, i) ==> p.1 == "true" || (p.1 != "" && !IsFlag(p.1))
    decreases |argv| - i
  {
    if i < |argv| {
      PairsValues(argv, i + 1);
      PairsValues(argv, i + 2);
    }
  }

  lemma {:induction false} ApplyValues(opts: map<string, string>, ps: seq<(string, string)>)
    requires forall k :: k in opts ==> opts[k] != ""
    requires forall p :: p in ps ==> p.1 != ""
    ensures forall k :: k in Apply(opts, ps) ==> Apply(opts, ps)[k] != ""
    decreases |ps|
  {
    if ps != [] {
      assert ps[0] in ps;
      assert forall p :: p in ps[1..] ==> p in ps;
      ApplyValues(opts[ps[0].0 := ps[0].1], ps[1..]);
    }
  }

  /** No option value is empty, so a flag given at all is truthy. */
  lemma OptionValuesNonEmpty(argv: seq<string>)
    ensures forall k :: k in Options(argv) ==> Options(argv)[k] != ""
  {
    PairsValues(argv, 1);
    ApplyValues(map[], Pairs(argv, 1));
  }

  // JSON options

  /** What `JSON.parse` does with a text: a value, or a `SyntaxError` with its message. */
  datatype Parsed = Parsed(value: Json) | Malformed(message: string)

  /** `parseJsonOpt`: nothing for an absent or empty text; the fields of a
      parsed object; a plain `Error` naming the flag for anything else. */
  function ParseJsonOpt(value: Option<string>, flag: string, parse: string -> Parsed)
    : (r: Result<Option<map<string, Json>>, Error>)
    ensures !NonEmpty(value) ==> r == Success(None)
    ensures NonEmpty(value) ==> (r.Success? <==> parse(value.value).Parsed? && parse(value.value).value.JObj?)
    ensures NonEmpty(value) && r.Success? ==> r.value == Some(parse(value.value).value.fields)
    ensures r.Failure? ==> r.error.Other? && StartsWith(r.error.message, "Invalid JSON for " + flag)
  {
    if !NonEmpty(value) then Success(None)
    else
      match parse(value.value)
      case Parsed(JObj(fields)) => Success(Some(fields))
      case Parsed(_) => Failure(Other("Invalid JSON for " + flag + ": " + flag + " must be a JSON object"))
      case Malformed(m) => Failure(Other("Invalid JSON for " + flag + ": " + if m != "" then m else "SyntaxError"))
  }

  // Exit codes

  /** The exit code of the `catch` block for a thrown error. */
  function ExitCode(e: Error): (code: int)
    ensures code == 2 <==> e.InstanceOf(AuthenticationClass)
    ensures code == 1 <==> !e.InstanceOf(AuthenticationClass)
  {
    if e.InstanceOf(AuthenticationClass) then 2
    else if e.InstanceOf(FastFoldClass) then 1
    else 1
  }

  /** A failed request exits 2 exactly when the server answered 401 with a
      message that converts to text. */
  lemma RequestFailureExitCode(status: int, data: Json)
    requires HandleResponse(status, data).Failure?
    ensures ExitCode(HandleResponse(status, data).error) == (if status == 401 && MessagePrintable(data) then 2 else 1)
  {
  }

  // main

  /** The options `main` passes to the client. A `--timeout` text is read
      with `Number`, so a text that is not a number gives `NaN`. */
  function ClientOptionsOf(opts: map<string, string>, env: map<string, string>): (c: ClientOptions)
    ensures c.apiKey.Some? <==> KeyResolves(opts, env)
    ensures NonEmpty(Lookup(opts, "api-key")) ==> c.apiKey == Lookup(opts, "api-key")
    ensures !NonEmpty(Lookup(opts, "api-key")) && KeyResolves(opts, env) ==> c.apiKey == Lookup(env, API_KEY_VAR)
    ensures NonEmpty(c.baseUrl)
    ensures NonEmpty(Lookup(opts, "base-url")) ==> c.baseUrl == Lookup(opts, "base-url")
    ensures !NonEmpty(Lookup(opts, "base-url")) && NonEmpty(Lookup(env, BASE_URL_VAR)) ==>
            c.baseUrl == Lookup(env, BASE_URL_VAR)
    ensures !NonEmpty(Lookup(opts, "base-url")) && !NonEmpty(Lookup(env, BASE_URL_VAR)) ==>
            c.baseUrl == Some(DEFAULT_BASE_URL)
    ensures c.timeoutMs.Some? <==> NonEmpty(Lookup(opts, "timeout"))
    ensures c.timeoutMs.Some? ==> c.timeoutMs.value == ToNumber(opts["timeout"])
  {
    var keys := [Lookup(opts, "api-key"), Lookup(env, API_KEY_VAR)];
    var urls := [Lookup(opts, "base-url"), Lookup(env, BASE_URL_VAR), Some(DEFAULT_BASE_URL)];
    assert NonEmpty(keys[0]) <==> NonEmpty(Lookup(opts, "api-key"));
    assert NonEmpty(keys[1]) <==> NonEmpty(Lookup(env, API_KEY_VAR));
    assert NonEmpty(urls[0]) <==> NonEmpty(Lookup(opts, "base-url"));
    assert NonEmpty(urls[1]) <==> NonEmpty(Lookup(env, BASE_URL_VAR));
    assert NonEmpty(urls[2]);
    ClientOptions(
      FirstNonEmpty(keys),
      FirstNonEmpty(urls),
      if NonEmpty(Lookup(opts, "timeout")) then Some(ToNumber(opts["timeout"])) else None)
  }

  /** The client that `main` builds has a key exactly when the flag or the
      environment gives one. */
  lemma ClientKeyResolves(opts: map<string, string>, env: map<string, string>)
    ensures ResolveApiKey(ClientOptionsOf(opts, env), env).Some? <==>
            NonEmpty(Lookup(opts, "api-key")) || NonEmpty(Lookup(env, API_KEY_VAR))
  {
    var candidates := [Lookup(opts, "api-key"), Lookup(env, API_KEY_VAR)];
    assert NonEmpty(candidates[0]) <==> NonEmpty(Lookup(opts, "api-key"));
    assert NonEmpty(candidates[1]) <==> NonEmpty(Lookup(env, API_KEY_VAR));
  }

  /** The delay after which the HTTP client aborts the request. */
  function TimeoutOf(opts: map<string, string>, env: map<string, string>): int {
    var timeout := ClientOptionsOf(opts, env).timeoutMs;
    TimerDelay(if timeout.Some? then timeout.value else Num(DEFAULT_TIMEOUT_MS))
  }

  /** Without `--timeout` the request is aborted after 30 s; `--timeout n`
      for n in 1 .. TIMEOUT_MAX aborts after n ms; a text that `Number` reads
      as NaN aborts after 1 ms. */
  lemma TimeoutFlag(opts: map<string, string>, env: map<string, string>, n: int)
    ensures !NonEmpty(Lookup(opts, "timeout")) ==> TimeoutOf(opts, env) == DEFAULT_TIMEOUT_MS
    ensures 1 <= n <= TIMEOUT_MAX && Lookup(opts, "timeout") == Some(IntToDecimal(n)) ==> TimeoutOf(opts, env) == n
    ensures NonEmpty(Lookup(opts, "timeout")) && ToNumber(opts["timeout"]).NaN? ==> TimeoutOf(opts, env) == 1
  {
    NumberRoundTrip(n);
  }

  /** The command is `fold` with both required flags given. */
  predicate FoldRequested(argv: seq<string>) {
    |argv| > 0 && argv[0] == "fold" && RequiredGiven(Options(argv))
  }

  predicate RequiredGiven(opts: map<string, string>) {
    NonEmpty(Lookup(opts, "sequence")) && NonEmpty(Lookup(opts, "model"))
  }

  /** Some API key resolves from the flag or the environment. */
  predicate KeyResolves(opts: map<string, string>, env: map<string, string>) {
    NonEmpty(Lookup(opts, "api-key")) || NonEmpty(Lookup(env, API_KEY_VAR))
  }

  function ParamsOf(opts: map<string, string>, parse: string -> Parsed): Result<Option<map<string, Json>>, Error> {
    ParseJsonOpt(Lookup(opts, "params"), "params", parse)
  }

  function ConstraintsOf(opts: map<string, string>, parse: string -> Parsed): Result<Option<map<string, Json>>, Error> {
    ParseJsonOpt(Lookup(opts, "constraints"), "constraints", parse)
  }

  /** `main`: the exit code, the request sent (if any) and the created job (if any). */
  method Run(argv: seq<string>, env: map<string, string>, parse: string -> Parsed,
             exchange: Exchange, packageVersion: Option<string>)
    returns (code: int, sent: Option<Request>, job: Option<Job>)
    ensures code == 0 || code == 1 || code == 2
    ensures (|argv| == 0 || argv[0] != "fold") ==> code == 1 && sent.None?
    ensures |argv| > 0 && argv[0] == "fold" && !RequiredGiven(Options(argv)) ==> code == 2 && sent.None?
    ensures FoldRequested(argv) ==> SubmitOutcome(Options(argv), env, parse, exchange, code, sent, job)
  {
    sent, job := None, None;
    if |argv| == 0 || argv[0] == "" {
      return 1, sent, job;
    }
    if argv[0] != "fold" {
      return 1, sent, job;
    }
    var opts := ParseArgs(argv);
    if !NonEmpty(Lookup(opts, "sequence")) || !NonEmpty(Lookup(opts, "model")) {
      return 2, sent, job;
    }
    code, sent, job := Submit(opts, env, parse, exchange, packageVersion);
  }

  /** What the `try` block of `main` promises once the required flags are there:
      a missing key exits 2 before anything else, a bad `--params` or
      `--constraints` exits 1 before any request, a sent request carries the
      options given (base URL, lineage id, key, and the payload of sequence,
      model, name, parameters and constraints), and it ends as `Answered` says. */
  ghost predicate SubmitOutcome(opts: map<string, string>, env: map<string, string>, parse: string -> Parsed,
                                exchange: Exchange, code: int, sent: Option<Request>, job: Option<Job>)
  {
    && (code == 0 || code == 1 || code == 2)
    && (!KeyResolves(opts, env) ==> code == 2 && sent.None?)
    && (KeyResolves(opts, env) && ParamsOf(opts, parse).Failure? ==> code == 1 && sent.None?)
    && (KeyResolves(opts, env) && ParamsOf(opts, parse).Success? && ConstraintsOf(opts, parse).Failure? ==>
          code == 1 && sent.None?)
    && (sent.Some? <==> KeyResolves(opts, env) && ParamsOf(opts, parse).Success? && ConstraintsOf(opts, parse).Success?)
    && (sent.None? ==> code != 0 && job.None?)
    && (sent.Some? ==> sent.value.url.target == StripTrailingSlashes(ResolveBaseUrl(ClientOptionsOf(opts, env), env)) + JOBS_PATH)
    && (sent.Some? ==> sent.value.url.search ==
                       if NonEmpty(Lookup(opts, "from-id")) then [("from", opts["from-id"])] else [])
    && (sent.Some? ==> "Authorization" in sent.value.headers &&
                       sent.value.headers["Authorization"] == "Bearer " + ResolveApiKey(ClientOptionsOf(opts, env), env).value)
    && (sent.Some? && RequiredGiven(opts) ==>
          sent.value.body.Some? &&
          IsPayloadOf(sent.value.body.value, opts["sequence"], opts["model"], Lookup(opts, "name"),
                      ParamsOf(opts, parse).value, ConstraintsOf(opts, parse).value))
    && (sent.Some? ==> Answered(exchange, TimeoutOf(opts, env), code, job))
  }

  /** How a sent request ends when the abort timer fires after `delayMs`: exit 0
      with the job of a successful response; otherwise 2 for a 401 answered in
      time whose message converts to text, and 1 for every other failure, a
      late or missing answer included. */
  ghost predicate Answered(exchange: Exchange, delayMs: int, code: int, job: Option<Job>)
  {
    && (code == 0 || code == 1 || code == 2)
    && (code == 0 <==> job.Some?)
    && (job.Some? ==> exchange.Responded? && exchange.elapsedMs < delayMs
                      && exchange.status < 400 && exchange.data != JNull
                      && job.value == JobFromApi(exchange.data))
    && (exchange.Responded? && exchange.elapsedMs < delayMs ==>
          code == (if exchange.status == 401 && MessagePrintable(exchange.data) then 2
                   else if exchange.status >= 400 || exchange.data == JNull then 1
                   else 0))
    && (exchange.NoResponse? || exchange.elapsedMs >= delayMs ==> code == 1)
  }

  /** The `try` block of `main`: build the client, read the JSON options, create the job. */
  method Submit(opts: map<string, string>, env: map<string, string>, parse: string -> Parsed,
                exchange: Exchange, packageVersion: Option<string>)
    returns (code: int, sent: Option<Request>, job: Option<Job>)
    requires RequiredGiven(opts)
    ensures SubmitOutcome(opts, env, parse, exchange, code, sent, job)
  {
    sent, job := None, None;
    ClientKeyResolves(opts, env);
    var created := Client.Create(ClientOptionsOf(opts, env), env, packageVersion);
    if created.Failure? {
      return ExitCode(created.error), sent, job;
    }
    var params := ParseJsonOpt(Lookup(opts, "params"), "params", parse);
    if params.Failure? {
      return ExitCode(params.error), sent, job;
    }
    var constraints := ParseJsonOpt(Lookup(opts, "constraints"), "constraints", parse);
    if constraints.Failure? {
      return ExitCode(constraints.error), sent, job;
    }
    var client := created.value;
    var request;
    request, code, job := CreateJob(client, opts["sequence"], opts["model"], Lookup(opts, "name"),
                                    Lookup(opts, "from-id"), params.value, constraints.value, exchange);
    sent := Some(request);
  }

  /** The last step of the `try` block: `client.fold.create` with the parsed
      options, and the exit code of its outcome. */
  method CreateJob(client: Client, sequence: string, model: string, name: Option<string>, fromId: Option<string>,
                   params: Option<map<string, Json>>, constraints: Option<map<string, Json>>, exchange: Exchange)
    returns (sent: Request, code: int, job: Option<Job>)
    requires client.fold.http == client.http
    ensures sent.url == Url(client.http.baseUrl + JOBS_PATH, if NonEmpty(fromId) then [("from", fromId.value)] else [])
    ensures sent.headers == client.http.headers
    ensures sent.body.Some? && IsPayloadOf(sent.body.value, sequence, model, name, params, constraints)
    ensures Answered(exchange, TimerDelay(client.http.timeoutMs), code, job)
  {
    var paramsObject: Option<Dict> := None;
    if params.Some? {
      var d := new Dict(params.value);
      paramsObject := Some(d);
    }
    var constraintsObject: Option<Dict> := None;
    if constraints.Some? {
      var d := new Dict(constraints.value);
      constraintsObject := Some(d);
    }
    var r;
    sent, r := client.fold.Create(FoldCreateOptions(sequence, model, name, fromId, paramsObject, constraintsObject),
                                  exchange);
    job := None;
    if r.Failure? {
      code := ExitCode(r.error);
      if exchange.Responded? && exchange.elapsedMs < TimerDelay(client.http.timeoutMs) {
        RequestFailureExitCode(exchange.status, exchange.data);
      }
    } else {
      code := 0;
      job := Some(r.value);
    }
  }
}
