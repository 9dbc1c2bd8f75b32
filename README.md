# fastfold-node core, modelled in Dafny

This project models the core of the FastFold Node.js SDK and its command-line tool:

- **`HTTPClient`**: strips trailing slashes from the base URL, builds the request URL and its search parameters, and sends an authenticated JSON POST with an abort timer. It maps the response status to a body or to an error of the SDK's taxonomy.
- **`FoldService.create`**: assembles the job-creation payload (name default, one protein chain, model parameters merged with the caller's, optional constraints and lineage id) and maps the answer to a `Job`.
- **`jobFromApi`**: normalises a server response into a `Job`.
- **`Client`**: resolves the API key and the base URL from the options, then the environment, then a default. It fails with an `AuthenticationError` when no key resolves.
- **`fastfold fold ...`**: the command-line `main`. It parses the arguments, checks the required flags, builds the client, reads `--params`/`--constraints` as JSON objects, creates the job and chooses the exit code.

Modules, one per source file: `Js` (the JavaScript values and built-ins the code relies on), `Errors` (errors.ts), `Models` (models.ts), `Http` (http.ts), `Fold` (services/fold.ts), `Facade` (client.ts) and `Cli` (cli.ts).

Some things are parameters rather than effects:

- The network is an `Exchange`: either a response after some milliseconds, with a status and the parsed body (`JNull` when the body was not JSON), or a rejection of `fetch`.
- The environment is a map.
- `JSON.parse` is a function `string -> Parsed`.
- The package version is an `Option<string>`.

Objects that the source mutates or shares are classes:

- `Dict` is a plain object written by `Object.assign`.
- `Payload`, `HttpClient`, `FoldService` and `Client` are classes too.
- The fields of `HttpClient`, `FoldService` and `Client` are `const`, because the source assigns them only in the constructor.
- The throwing `Client` constructor becomes `Client.Create`, which returns a `Result`.

Each loop becomes a `while` loop with invariants, proved against a specification function:
  - the argument loop against `Options`;
  - the query loop against `Kept`;
  - `Object.assign` against its key-by-key postcondition.

## Model

| member | source | states |
|---|---|---|
| Js.Property | src/models.ts:21-25 | a property exists exactly on an object that has the key, with that key's value |
| Js.Coalesce | src/models.ts:22-25 | `a ?? b` is `a` unless `a` is undefined or null, else `b` |
| Js.FirstNonEmpty | src/client.ts:16-17 | the logical or of optional strings (`opts.apiKey` or the environment's) followed by the truthiness test `!apiKey`: a value iff some candidate is a non-empty string, and then the first such candidate |
| Js.NatToDecimal | src/http.ts:73 | `String(n)` of a natural number is a non-empty digit string without a leading zero |
| Js.ParseDecimal | src/http.ts:73 | a text has a decimal value exactly when it is a non-empty digit string |
| Js.DecimalRoundTrip | src/http.ts:73 | reading back the decimal text of `n` gives `n` |
| Js.IntToDecimal | src/http.ts:73 | `String(n)` of any integer reads back as `n`, with a leading '-' exactly for negatives |
| Js.ToNumber | src/cli.ts:61 | `Number(text)` of a digit string is its value, with a leading "-" negated and a leading "+" dropped; any other non-empty text is NaN |
| Js.NumberRoundTrip | src/cli.ts:61 | `Number(String(n)) == n` for every integer |
| Js.JsString | src/http.ts:65-66 | `String(v)`: a string is itself; a number reads back as itself; an object is "[object Object]" unless it has an own "toString", for which the conversion throws; an array of strings always converts |
| Js.Dict.AssignFrom | src/services/fold.ts:33 | `Object.assign`: every source key except a "__proto__" that reaches the prototype setter is written with the source's value; other values are unchanged; the keys become the union less that "__proto__" |
| Errors.SpecificKindsAreFastFold | src/errors.ts:1-15 | every error is an `Error`; exactly the SDK's own errors are `FastFoldError`s |
| Errors.ApiErrorsCarryStatus | src/errors.ts:5-15 | `instanceof APIError` holds exactly for `APIError` and `RateLimitError`; `AuthenticationError` is not an `APIError` |
| Errors.Error.InstanceOf | src/errors.ts:1-15 | `e instanceof C` holds for its own class, `Error`, `FastFoldError` for each of the SDK's errors, and `APIError` for a `RateLimitError`, and for nothing else |
| Models.JobFromApi | src/models.ts:19-28 | id is `jobId` unless that is null or missing, then `id`; each optional field is the response's value or null exactly when it is missing or null; `raw` is the response |
| Models.QueuedJobScenario | src/models.ts:19-28 | a response with only `jobId` and `jobStatus` maps to that id and status, null optional fields, and the response kept |
| Models.EmptyJobIdIsKept | src/models.ts:21 | an empty-string `jobId` is kept: only null or missing falls back to `id` |
| Http.StripTrailingSlashes | src/http.ts:16 | the result is a prefix of the input, does not end in '/', and only slashes were removed |
| Http.StripTrailingSlashesUnique | src/http.ts:16 | any prefix with those three properties is the stripped string |
| Http.StripTrailingSlashesIdempotent | src/http.ts:16 | stripping twice is stripping once |
| Http.TimerDelay | src/http.ts:30 | the abort timer fires after 1 .. 2^31-1 ms: after the timeout itself when it lies in that range, else after 1 ms |
| Http.RemoveKey | src/http.ts:49 | dropping a key leaves no pair with that key, and leaves a list without that key as it was |
| Http.RemoveKeyMembers | src/http.ts:49 | dropping a key keeps exactly the pairs with other keys |
| Http.RemoveKeyConcat | src/http.ts:49 | dropping a key filters each part of a concatenation in place, so the kept pairs keep their order |
| Http.SetParamMembers | src/http.ts:49 | after `searchParams.set(k, v)`, `(k, v)` is present, it is the only pair with key `k`, and the pairs with other keys are unchanged |
| Http.SetParamReplaces | src/http.ts:49 | `searchParams.set` of a key already present puts the value on its first pair in place and drops the later pairs with that key |
| Http.QueryText | src/http.ts:49 | `String(v)` of a query value: a string is itself, a number reads back as itself, a boolean is "true" or "false" |
| Http.SetParamAppends | src/http.ts:49 | `searchParams.set` of a new key appends the pair at the end |
| Http.KeptMembership | src/http.ts:46-50 | a search pair is written iff some query entry has that key and a non-nullish value with that text |
| Http.KeptKeys | src/http.ts:46-50 | every written key comes from an entry whose value is not undefined or null |
| Http.KeptDistinct | src/http.ts:46-50 | query entries with distinct keys give search parameters with distinct keys |
| Http.MessageOr | src/http.ts:65-73 | the error message is the body's `message` converted to text when present and not null (none when that conversion throws), else the fallback |
| Http.HandleResponse | src/http.ts:55-80 | success iff status < 400 with a body, returning the body; 401 gives exactly the `AuthenticationError`s; 429 gives exactly the `RateLimitError`s, carrying 429 and the body; other statuses from 400 up give `APIError` with the status and the body; each of those only when the body's message converts to text, and otherwise the `TypeError`; a bodiless success gives "Invalid JSON response from server" with no body |
| Http.DefaultMessageNamesStatus | src/http.ts:72-74 | without a server message, two different failing statuses give different messages |
| Http.HttpClient.constructor | src/http.ts:15-25 | base URL stripped of trailing slashes; timeout given or 30000; exactly four headers, with Bearer auth, JSON types and `fastfold-ts/<version or 0>` |
| Http.HttpClient.BuildUrl | src/http.ts:44-53 | the URL is base URL + path with the search parameters `Kept(query)` |
| Http.HttpClient.Post | src/http.ts:27-42 | sends to that URL with the client's headers and a body exactly when it is truthy; a rejected fetch rejects with its reason; a response at or after the abort delay is aborted; otherwise the outcome is `HandleResponse` |
| Fold.ParamsMergedIsUnion | src/services/fold.ts:27-34 | the merged parameters are exactly `{modelName: model}` overridden key by key by the caller's parameters, a "__proto__" of the caller's left out |
| Fold.Payload.constructor | src/services/fold.ts:20-30 | the payload starts with the name, the sequences, the params object and no constraints |
| Fold.Payload.Body | src/services/fold.ts:20-37 | the payload serialises to an object with name, sequences and params, plus constraints exactly once assigned |
| Fold.BuildPayload | src/services/fold.ts:20-42 | name or "FastFold Job"; one protein chain with the sequence; params merged without touching the caller's object; constraints passed by reference; "from" in the query iff the lineage id is non-empty |
| Fold.FromQuery | src/services/fold.ts:39-44 | the jobs request carries the search parameter `from` exactly when a non-empty lineage id is given |
| Fold.FoldService.constructor | src/services/fold.ts:15-17 | the service keeps the HTTP client it is given |
| Fold.FoldService.Create | src/services/fold.ts:19-46 | POSTs the payload for the options to base URL + "/v1/jobs" (with `from` iff given), using the client's headers; fails as the transport does, and otherwise returns `jobFromApi` of the body |
| Js.Lookup | src/client.ts:16 | `process.env[name]` or `opts[key]`: a value exactly when the map holds the key, and then that value |
| Facade.ResolveApiKey | src/client.ts:16-17 | the key is the option if non-empty, else the environment's if non-empty; none exactly when both are empty |
| Facade.ResolveBaseUrl | src/client.ts:23 | option, then environment, then "https://api.fastfold.ai"; never empty |
| Facade.ResolveApiKeyStable | src/client.ts:16 | resolving again from a resolved key gives the same key |
| Facade.Client.constructor | src/client.ts:23-29 | one fresh HTTP client with the stripped base URL, the timeout and Bearer auth, shared with the fold service |
| Facade.Client.Create | src/client.ts:15-30 | fails iff no key resolves, with exactly the missing-key `AuthenticationError`; otherwise a client wired to the resolved key, base URL and timeout |
| Cli.ParseArgs | src/cli.ts:42-49 | the argument loop produces exactly `Options(argv)` |
| Cli.ApplyKeys | src/cli.ts:48 | recording pairs adds exactly their keys and leaves other keys unchanged |
| Cli.PairsKeys | src/cli.ts:43-49 | no flag is swallowed as a value: the recorded keys are exactly the names of the flags |
| Cli.OptionsKeys | src/cli.ts:43-49 | a key is an option exactly when some token after the subcommand is `--key` |
| Cli.PairsLastWins | src/cli.ts:43-49 | the last flag for a key sets its value |
| Cli.OptionsLastWins | src/cli.ts:43-49 | an option's value is the value of its last occurrence |
| Cli.PairsValues | src/cli.ts:47 | every recorded value is "true" or a token that is neither empty nor a flag |
| Cli.ApplyValues | src/cli.ts:48 | recording non-empty values keeps every value non-empty |
| Cli.OptionValuesNonEmpty | src/cli.ts:47-53 | no option value is empty, so any given flag is truthy |
| Cli.ParseJsonOpt | src/cli.ts:9-18 | nothing for an absent or empty text; the fields exactly when the text parses to an object; otherwise a plain `Error` whose message starts "Invalid JSON for <flag>" |
| Cli.ExitCode | src/cli.ts:75-86 | a caught error exits 2 iff it is an `AuthenticationError`, else 1 |
| Cli.RequestFailureExitCode | src/cli.ts:76-84 | a failed response exits 2 exactly for status 401 with a message that converts to text |
| Cli.ClientKeyResolves | src/cli.ts:59-64 | the client gets a key exactly when `--api-key` or FASTFOLD_API_KEY is non-empty |
| Cli.ClientOptionsOf | src/cli.ts:59-61 | the key is `--api-key` or FASTFOLD_API_KEY, each only when non-empty, and absent exactly when neither is; the base URL is `--base-url`, then FASTFOLD_BASE_URL, then the default, never empty; the timeout is `Number(--timeout)` exactly when that flag is non-empty |
| Cli.TimeoutFlag | src/cli.ts:61 | no `--timeout` aborts after 30 s; `--timeout n` (1 .. 2^31-1) after n ms; a NaN text after 1 ms |
| Cli.Run | src/cli.ts:36-57 | exit 1 without a request for a missing or unknown command; exit 2 without a request when `--sequence` or `--model` is missing; otherwise the `Submit` outcome |
| Cli.Submit | src/cli.ts:59-86 | no key exits 2 before any request; a bad `--params`, or good `--params` and a bad `--constraints`, exits 1 before any request; a request goes out iff key and both JSON options are fine, to the resolved base URL + "/v1/jobs" with `from` = `--from-id` iff that is non-empty, Bearer auth with `--api-key` or else FASTFOLD_API_KEY, and the payload of `--sequence`, `--model`, `--name` and the parsed `--params`/`--constraints`; then exit 0 exactly with the job of a successful response, 2 for a 401 in time whose message converts to text, 1 otherwise |
| Cli.CreateJob | src/cli.ts:65-74 | posts to the jobs URL of the client with `from` iff given, with the client's headers and the payload of exactly the given sequence, model, name, parameters and constraints; exit 0 exactly with `jobFromApi` of a successful in-time response, 2 for an in-time 401 whose message converts to text, 1 for any other failure, a late or missing answer included |

## Left out

- `fetch`, `AbortController` and `setTimeout` are an `Exchange` parameter. The abort is modelled as "a response at or after the timer delay is an `AbortError`". An abort that lands while the body is still being read counts as in time.
- `res.json()` is folded into the `Exchange`: a body that is not JSON arrives as `JNull`.
- `new URL(...)` parsing, normalisation and serialisation are not modelled. The URL is the joined text plus the list of search pairs. A base URL that `URL` rejects, which throws a `TypeError` (exit 1), is not modelled.
- `JSON.stringify` of the payload is not modelled. The body is the payload's JSON value.
- `JSON.parse` is a parameter `parse`. Its syntax errors are `Malformed(message)`.
- `process.argv`, `process.env`, `process.exit`, stdout and stderr, and the help text are not modelled. The environment is a map, the result is the exit code, and `console.log(job.id)` is not modelled.
- The package manifest's version is the `packageVersion` parameter.
- `async`/`await` sequencing is not modelled: each call runs to completion in order.
- Js.ToNumber: covers signed decimal digit strings only. Every other text is NaN here. `Number` would also read fractions, exponents, hexadecimal, surrounding whitespace and "Infinity".
- Js.Json: JSON numbers are integers. Floating point is not modelled.
- Models.JobFromApi: requires a non-null body. The transport never returns null, and `jobFromApi(null)` would throw.
- Cli.Options: a `--__proto__ x` flag is recorded here as the option "__proto__"; in the source `opts[key] = val` on the `{}` literal goes to the prototype setter, which ignores a string, so no such option exists. `main` reads only its nine named options, so no exit code or request differs.
- Js.Dict.AssignFrom: the prototype that a "__proto__" source property installs is not modelled, only that no own key is written; JSON.stringify serialises own properties only, so the sent body is unaffected.
- Js.Dict: holds immutable JSON values, so aliasing is modelled only at the level of whole objects, such as the caller's constraints object sent by reference.
- The `HTTPClient`'s private fields are not reassigned after construction, so they are `const` here.
- Errors: the `name` and stack of JavaScript errors are not modelled. The `FastFold` constructor exists for `new FastFoldError(...)`, which the core never throws directly.
