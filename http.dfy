/** The transport layer: an HTTP client configured once at construction that
    builds the request URL, sends an authenticated JSON POST and turns the
    response status into a returned body or an error of the taxonomy. The
    network exchange itself is a parameter. */
module Http {
  import opened Js
  import opened Errors

  const DEFAULT_TIMEOUT_MS: int := 30000

  /** The message of the `AbortError` that `fetch` rejects with once the
      timeout has aborted the request. */
  const ABORT_MESSAGE: string := "This operation was aborted"

  const INVALID_JSON_MESSAGE: string := "Invalid JSON response from server"

  /** The message of the `TypeError` that `String(v)` throws when `v` has no
      way to a primitive value. */
  const CONVERT_MESSAGE: string := "Cannot convert object to primitive value"

  /** The largest delay a Node.js timer honours (2^31 - 1 ms). */
  const TIMEOUT_MAX: int := 2147483647

  /** The delay after which `setTimeout(f, ms)` runs `f` under Node.js: `ms`
      itself when it lies in 1 .. TIMEOUT_MAX, otherwise (NaN included) 1 ms. */
  function TimerDelay(ms: Number): (d: int)
    ensures 1 <= d <= TIMEOUT_MAX
    ensures ms.Num? && 1 <= ms.n <= TIMEOUT_MAX ==> d == ms.n
    ensures d != 1 ==> ms == Num(d)
  {
    if ms.Num? && 1 <= ms.n <= TIMEOUT_MAX then ms.n else 1
  }

  // Trailing slashes of the base URL

  /** `s.replace(/\/+$/, "")` */
  function StripTrailingSlashes(s: string): (r: string)
    ensures r <= s
    ensures r == [] || r[|r| - 1] != '/'
    ensures forall i :: |r| <= i < |s| ==> s[i] == '/'
  {
    if s != [] && s[|s| - 1] == '/' then StripTrailingSlashes(s[..|s| - 1]) else s
  }

  /** The three facts above pin the result down: any prefix that does not end
      in '/' and leaves only slashes behind is the stripped string. */
  lemma {:induction false} StripTrailingSlashesUnique(s: string, t: string)
    requires t <= s
    requires t == [] || t[|t| - 1] != '/'
    requires forall i :: |t| <= i < |s| ==> s[i] == '/'
    ensures StripTrailingSlashes(s) == t
  {
    if |s| > |t| {
      assert s[|s| - 1] == '/';
      StripTrailingSlashesUnique(s[..|s| - 1], t);
    }
  }

  /** Stripping twice is stripping once. */
  lemma StripTrailingSlashesIdempotent(s: string)
    ensures StripTrailingSlashes(StripTrailingSlashes(s)) == StripTrailingSlashes(s)
  {
  }

  // Query parameters

  /** A query value: `string | number | boolean | undefined | null`. */
  datatype QueryValue = QUndefined | QNull | QStr(s: string) | QNum(n: int) | QBool(b: bool)

  predicate Nullish(v: QueryValue) {
    v.QUndefined? || v.QNull?
  }

  /** `String(v)` for a query value that is not nullish. */
  function QueryText(v: QueryValue): (t: string)
    requires !Nullish(v)
    ensures v.QStr? ==> t == v.s
    ensures v.QNum? ==> ToNumber(t) == Num(v.n)
    ensures v.QBool? ==> (t == "true" <==> v.b) && (t == "false" <==> !v.b)
  {
    match v
    case QStr(s) => s
    case QNum(n) => NumberRoundTrip(n); IntToDecimal(n)
    case QBool(b) => if b then "true" else "false"
  }

  /** No key occurs twice, as among the entries of one object. */
  predicate DistinctKeys<V>(ps: seq<(string, V)>) {
    forall i, j :: 0 <= i < j < |ps| ==> ps[i].0 != ps[j].0
  }

  predicate HasKey<V>(ps: seq<(string, V)>, k: string) {
    exists i :: 0 <= i < |ps| && ps[i].0 == k
  }

  /** The pairs of `ps` whose key is not `k`. */
  function RemoveKey(ps: seq<(string, string)>, k: string): (r: seq<(string, string)>)
    ensures !HasKey(r, k)
    ensures !HasKey(ps, k) ==> r == ps
  {
    if ps == [] then []
    else if ps[0].0 == k then RemoveKey(ps[1..], k)
    else [ps[0]] + RemoveKey(ps[1..], k)
  }

  /** `URLSearchParams.set(k, v)`: the first pair with key `k` takes value `v`
      and later ones are dropped; without such a pair, `(k, v)` is appended. */
  function SetParam(ps: seq<(string, string)>, k: string, v: string): seq<(string, string)> {
    if ps == [] then [(k, v)]
    else if ps[0].0 == k then [(k, v)] + RemoveKey(ps[1..], k)
    else [ps[0]] + SetParam(ps[1..], k, v)
  }

  /** Removing a key keeps exactly the pairs with other keys. */
  lemma {:induction false} RemoveKeyMembers(ps: seq<(string, string)>, k: string)
    ensures forall p :: p in RemoveKey(ps, k) <==> p in ps && p.0 != k
  {
    if ps != [] {
      RemoveKeyMembers(ps[1..], k);
      assert forall p :: p in ps <==> p == ps[0] || p in ps[1..];
    }
  }

  /** After `set`, `(k, v)` is a pair, every other pair with key `k` is gone,
      and the pairs with other keys are those there were. */
  lemma {:induction false} SetParamMembers(ps: seq<(string, string)>, k: string, v: string)
    ensures (k, v) in SetParam(ps, k, v)
    ensures forall p :: p in SetParam(ps, k, v) && p.0 == k ==> p == (k, v)
    ensures forall p: (string, string) :: p.0 != k ==> (p in SetParam(ps, k, v) <==> p in ps)
  {
    if ps != [] {
      assert forall p :: p in ps <==> p == ps[0] || p in ps[1..];
      if ps[0].0 == k {
        RemoveKeyMembers(ps[1..], k);
      } else {
        SetParamMembers(ps[1..], k, v);
      }
    }
  }

  /** Removing a key pair by pair: the pairs of a concatenation are filtered
      part by part, so the pairs kept stay in their order. */
  lemma {:induction false} RemoveKeyConcat(ps: seq<(string, string)>, qs: seq<(string, string)>, k: string)
    ensures RemoveKey(ps + qs, k) == RemoveKey(ps, k) + RemoveKey(qs, k)
  {
    if ps == [] {
      assert ps + qs == qs;
    } else {
      assert (ps + qs)[0] == ps[0];
      assert (ps + qs)[1..] == ps[1..] + qs;
      RemoveKeyConcat(ps[1..], qs, k);
      if ps[0].0 != k {
        var head, rest := [ps[0]], RemoveKey(ps[1..], k);
        assert head + (rest + RemoveKey(qs, k)) == (head + rest) + RemoveKey(qs, k);
      }
    }
  }

  /** Setting a key that is already there: the first pair with that key takes
      the value in place, and every later pair with that key is dropped. */
  lemma {:induction false} SetParamReplaces(ps: seq<(string, string)>, k: string, v: string, i: nat)
    requires i < |ps| && ps[i].0 == k
    requires forall j :: 0 <= j < i ==> ps[j].0 != k
    ensures SetParam(ps, k, v) == ps[..i] + [(k, v)] + RemoveKey(ps[i + 1..], k)
  {
    if i == 0 {
      assert ps[..0] == [];
    } else {
      var tail := ps[1..];
      assert tail[i - 1] == ps[i];
      assert forall j :: 0 <= j < i - 1 ==> tail[j] == ps[j + 1];
      SetParamReplaces(tail, k, v, i - 1);
      var rest := RemoveKey(ps[i + 1..], k);
      calc {
        SetParam(ps, k, v);
        [ps[0]] + SetParam(tail, k, v);
        [ps[0]] + (tail[..i - 1] + [(k, v)] + RemoveKey(tail[i..], k));
        { assert tail[..i - 1] == ps[1..i]; assert tail[i..] == ps[i + 1..]; }
        [ps[0]] + (ps[1..i] + [(k, v)] + rest);
        { assert ps[..i] == [ps[0]] + ps[1..i]; }
        ps[..i] + [(k, v)] + rest;
      }
    }
  }

  /** Setting a key that is not there yet appends it. */
  lemma {:induction false} SetParamAppends(ps: seq<(string, string)>, k: string, v: string)
    requires !HasKey(ps, k)
    ensures SetParam(ps, k, v) == ps + [(k, v)]
  {
    if ps != [] {
      assert ps[0].0 != k;
      assert !HasKey(ps[1..], k) by {
        forall i | 0 <= i < |ps[1..]| ensures ps[1..][i].0 != k {
          assert ps[1..][i] == ps[i + 1];
        }
      }
      SetParamAppends(ps[1..], k, v);
      assert [ps[0]] + (ps[1..] + [(k, v)]) == ps + [(k, v)];
    }
  }

  /** The search parameters that `buildUrl` writes for the entries `q`, in order:
      every entry whose value is neither undefined nor null, as text. */
  function Kept(q: seq<(string, QueryValue)>): seq<(string, string)> {
    if q == [] then []
    else
      var last := q[|q| - 1];
      Kept(q[..|q| - 1]) + (if Nullish(last.1) then [] else [(last.0, QueryText(last.1))])
  }

  /** A pair is written exactly when some entry with that key holds a value
      that is not nullish and whose text it is. */
  lemma {:induction false} KeptMembership(q: seq<(string, QueryValue)>, k: string, s: string)
    ensures (k, s) in Kept(q) <==>
            exists i :: 0 <= i < |q| && q[i].0 == k && !Nullish(q[i].1) && QueryText(q[i].1) == s
  {
    if q != [] {
      var init := q[..|q| - 1];
      KeptMembership(init, k, s);
      assert forall i :: 0 <= i < |init| ==> init[i] == q[i];
    }
  }

  /** Every key written comes from an entry with a value that is not nullish. */
  lemma KeptKeys(q: seq<(string, QueryValue)>, k: string)
    ensures HasKey(Kept(q), k) ==> exists i :: 0 <= i < |q| && q[i].0 == k && !Nullish(q[i].1)
  {
    if HasKey(Kept(q), k) {
      var j :| 0 <= j < |Kept(q)| && Kept(q)[j].0 == k;
      KeptMembership(q, k, Kept(q)[j].1);
    }
  }

  /** Entries with distinct keys give search parameters with distinct keys,
      so each kept entry appears exactly once. */
  lemma {:induction false} KeptDistinct(q: seq<(string, QueryValue)>)
    requires DistinctKeys(q)
    ensures DistinctKeys(Kept(q))
  {
    if q != [] {
      var init := q[..|q| - 1];
      var last := q[|q| - 1];
      KeptDistinct(init);
      if !Nullish(last.1) {
        KeptKeys(init, last.0);
        assert !HasKey(Kept(init), last.0);
      }
    }
  }

  // Requests and responses

  /** The request URL: the base URL joined with the path, and its search parameters. */
  datatype Url = Url(target: string, search: seq<(string, string)>)

  /** What is sent: always a POST, with these headers and this JSON body, if any. */
  datatype Request = Request(url: Url, headers: map<string, string>, body: Option<Json>)

  /** What the network does with a request: a response after `elapsedMs`
      milliseconds, whose body parsed to `data` (`JNull` when it was not
      JSON), or a rejection of `fetch` itself. */
  datatype Exchange =
    | Responded(elapsedMs: nat, status: int, data: Json)
    | NoResponse(reason: string)

  datatype HttpClientOptions = HttpClientOptions(baseUrl: string, apiKey: string, timeoutMs: Option<Number>)

  /** `data?.message ?? fallback`, as the text the `Error` constructor makes
      of it; `None` when that conversion throws. */
  function MessageOr(data: Json, fallback: string): (m: Option<string>)
    ensures HasValue(data, "message") ==> m == JsString(data.fields["message"])
    ensures !HasValue(data, "message") ==> m == Some(fallback)
  {
    var message := Property(data, "message");
    if message.Some? && message.value != JNull then JsString(message.value) else Some(fallback)
  }

  /** The body's `message`, if any, converts to text, so constructing an
      error of the SDK from it does not throw. */
  predicate MessagePrintable(data: Json) {
    !HasValue(data, "message") || JsString(data.fields["message"]).Some?
  }

  /** The error `new E(m, ...)` ends in: the SDK's error when `m` converts to
      text, the `TypeError` of the conversion otherwise. */
  function Raise(m: Option<string>, make: string -> Error): (e: Error)
    ensures m.Some? ==> e == make(m.value)
    ensures m.None? ==> e == Other(CONVERT_MESSAGE)
  {
    if m.Some? then make(m.value) else Other(CONVERT_MESSAGE)
  }

  /** `handleResponse`: the status policy, checked in the order 401, 429,
      any other status from 400 up, then a missing body. */
  function HandleResponse(status: int, data: Json): (r: Result<Json, Error>)
    ensures r.Success? <==> status < 400 && data != JNull
    ensures r.Success? ==> r.value == data
    ensures r.Failure? ==> (r.error.InstanceOf(FastFoldClass) <==> status < 400 || MessagePrintable(data))
    ensures r.Failure? && !r.error.InstanceOf(FastFoldClass) ==> r.error == Other(CONVERT_MESSAGE)
    ensures r.Failure? && r.error.InstanceOf(AuthenticationClass) <==> status == 401 && MessagePrintable(data)
    ensures status == 401 && MessagePrintable(data) ==>
            r.error == Authentication(MessageOr(data, "Unauthorized").value)
    ensures r.Failure? && r.error.InstanceOf(RateLimitClass) <==> status == 429 && MessagePrintable(data)
    ensures status == 429 && MessagePrintable(data) ==>
            r.error == RateLimit(MessageOr(data, "Too Many Requests").value, Some(429), Some(data))
    ensures r.Failure? && r.error.Api? && r.error.responseBody.Some? <==>
            status >= 400 && status != 401 && status != 429 && MessagePrintable(data)
    ensures status >= 400 && status != 401 && status != 429 && MessagePrintable(data) ==>
            r.error == Api(MessageOr(data, "HTTP " + IntToDecimal(status)).value, Some(status), Some(data))
    ensures status < 400 && data == JNull ==> r.error == Api(INVALID_JSON_MESSAGE, Some(status), None)
  {
    if status == 401 then
      Failure(Raise(MessageOr(data, "Unauthorized"), m => Authentication(m)))
    else if status == 429 then
      Failure(Raise(MessageOr(data, "Too Many Requests"), m => RateLimit(m, Some(429), Some(data))))
    else if status >= 400 then
      Failure(Raise(MessageOr(data, "HTTP " + IntToDecimal(status)), m => Api(m, Some(status), Some(data))))
    else if data == JNull then
      Failure(Api(INVALID_JSON_MESSAGE, Some(status), None))
    else
      Success(data)
  }

  /** Two different failing statuses other than 401 and 429 give errors with
      different messages when the server sends none: the message names the status. */
  lemma DefaultMessageNamesStatus(s1: int, s2: int)
    requires 400 <= s1 && 400 <= s2 && s1 != s2
    requires s1 != 401 && s1 != 429 && s2 != 401 && s2 != 429
    ensures HandleResponse(s1, JNull).error.message != HandleResponse(s2, JNull).error.message
  {
    var m1, m2 := "HTTP " + IntToDecimal(s1), "HTTP " + IntToDecimal(s2);
    assert m1[5..] == IntToDecimal(s1) && m2[5..] == IntToDecimal(s2);
    assert ParseDecimal(m1[5..]) != ParseDecimal(m2[5..]);
  }

  class HttpClient {
    const baseUrl: string
    const timeoutMs: Number
    const headers: map<string, string>

    /** `packageVersion` is the version read from the package manifest, if any. */
    constructor (opts: HttpClientOptions, packageVersion: Option<string>)
      ensures baseUrl == StripTrailingSlashes(opts.baseUrl)
      ensures timeoutMs == if opts.timeoutMs.Some? then opts.timeoutMs.value else Num(DEFAULT_TIMEOUT_MS)
      ensures headers.Keys == {"Authorization", "Content-Type", "Accept", "User-Agent"}
      ensures headers["Authorization"] == "Bearer " + opts.apiKey
      ensures headers["Content-Type"] == "application/json" && headers["Accept"] == "application/json"
      ensures headers["User-Agent"] == "fastfold-ts/" + if NonEmpty(packageVersion) then packageVersion.value else "0"
    {
      baseUrl := StripTrailingSlashes(opts.baseUrl);
      timeoutMs := if opts.timeoutMs.Some? then opts.timeoutMs.value else Num(DEFAULT_TIMEOUT_MS);
      var version := if NonEmpty(packageVersion) then packageVersion.value else "0";
      headers := map[
        "Authorization" := "Bearer " + opts.apiKey,
        "Content-Type" := "application/json",
        "Accept" := "application/json",
        "User-Agent" := "fastfold-ts/" + version];
    }

    /** `buildUrl`: the base URL and path, then a search parameter for each
        query entry whose value is neither undefined nor null. */
    method BuildUrl(path: string, query: seq<(string, QueryValue)>) returns (url: Url)
      requires DistinctKeys(query)
      ensures url == Url(baseUrl + path, Kept(query))
    {
      var search: seq<(string, string)> := [];
      var i := 0;
      while i < |query|
        invariant 0 <= i <= |query|
        invariant search == Kept(query[..i])
      {
        var (k, v) := query[i];
        assert query[..i + 1][..i] == query[..i];
        if !Nullish(v) {
          KeptKeys(query[..i], k);
          SetParamAppends(search, k, QueryText(v));
          search := SetParam(search, k, QueryText(v));
        }
        i := i + 1;
      }
      assert query[..i] == query;
      url := Url(baseUrl + path, search);
    }

    /** `post`: sends the request and classifies the response. A response that
        arrives only once the abort timer has fired was aborted instead. */
    method Post(path: string, body: Option<Json>, query: seq<(string, QueryValue)>, exchange: Exchange)
      returns (sent: Request, r: Result<Json, Error>)
      requires DistinctKeys(query)
      ensures sent.url == Url(baseUrl + path, Kept(query))
      ensures sent.headers == headers
      ensures sent.body == if body.Some? && Truthy(body.value) then body else None
      ensures exchange.NoResponse? ==> r == Failure(Other(exchange.reason))
      ensures exchange.Responded? && exchange.elapsedMs >= TimerDelay(timeoutMs) ==> r == Failure(Other(ABORT_MESSAGE))
      ensures exchange.Responded? && exchange.elapsedMs < TimerDelay(timeoutMs) ==>
              r == HandleResponse(exchange.status, exchange.data)
    {
      var url := BuildUrl(path, query);
      sent := Request(url, headers, if body.Some? && Truthy(body.value) then body else None);
      match exchange
      case NoResponse(reason) =>
        r := Failure(Other(reason));
      case Responded(elapsedMs, status, data) =>
        if elapsedMs >= TimerDelay(timeoutMs) {
          r := Failure(Other(ABORT_MESSAGE));
        } else {
          r := HandleResponse(status, data);
        }
    }
  }
}
