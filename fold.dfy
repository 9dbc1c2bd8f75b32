/** The fold request builder: assembles the job-creation payload, posts it to
    the jobs endpoint and maps the answer to a `Job`. */
module Fold {
  import opened Js
  import opened Errors
  import opened Models
  import opened Http

  const DEFAULT_JOB_NAME: string := "FastFold Job"
  const JOBS_PATH: string := "/v1/jobs"

  /** `FoldCreateOptions`. `params` and `constraints` are the caller's objects,
      held by reference. */
  datatype FoldCreateOptions = FoldCreateOptions(
    sequence: string,
    model: string,
    name: Option<string>,
    fromId: Option<string>,
    params: Option<Dict>,
    constraints: Option<Dict>)

  /** `{ proteinChain: { sequence } }` */
  function ProteinChain(sequence: string): Json {
    JObj(map["proteinChain" := JObj(map["sequence" := JStr(sequence)])])
  }

  /** `params` is the model name under "modelName" overridden key by key by
      the caller's parameters `supplied`: it holds every supplied key other
      than "__proto__" with the caller's value, "modelName" with `model` unless
      supplied, and nothing else. */
  predicate ParamsMerged(params: map<string, Json>, model: string, supplied: map<string, Json>) {
    && params.Keys == (supplied.Keys - {PROTO_KEY}) + {"modelName"}
    && (forall k :: k in supplied && k != PROTO_KEY ==> params[k] == supplied[k])
    && ("modelName" !in supplied ==> params["modelName"] == JStr(model))
  }

  /** The merge is exactly a map union in which the caller's keys win, with
      the caller's "__proto__" left out. */
  lemma ParamsMergedIsUnion(params: map<string, Json>, model: string, supplied: map<string, Json>)
    ensures ParamsMerged(params, model, supplied) <==>
            params == map["modelName" := JStr(model)] + (supplied - {PROTO_KEY})
  {
    var u := map["modelName" := JStr(model)] + (supplied - {PROTO_KEY});
    if ParamsMerged(params, model, supplied) {
      assert params.Keys == u.Keys;
      assert forall k :: k in params ==> params[k] == u[k];
    }
  }

  /** The job-creation payload: the record that `create` builds and then fills in. */
  class Payload {
    var name: string
    var sequences: seq<Json>
    var params: Dict
    var constraints: Option<Dict>

    constructor (name: string, sequences: seq<Json>, params: Dict)
      ensures this.name == name && this.sequences == sequences && this.params == params
      ensures constraints.None?
    {
      this.name := name;
      this.sequences := sequences;
      this.params := params;
      constraints := None;
    }

    /** The JSON the payload serialises to; "constraints" only once assigned. */
    function Body(): (j: Json)
      reads this, params, if constraints.Some? then {constraints.value} else {}
      ensures j.JObj?
      ensures j.fields.Keys == {"name", "sequences", "params"} + if constraints.Some? then {"constraints"} else {}
    {
      JObj(map["name" := JStr(name), "sequences" := JArr(sequences), "params" := JObj(params.entries)]
           + if constraints.Some? then map["constraints" := JObj(constraints.value.entries)] else map[])
    }
  }

  /** What `create` builds before it posts: the payload and the query. Only
      fresh objects are written; the caller's objects are left as they were. */
  method BuildPayload(opts: FoldCreateOptions) returns (payload: Payload, query: seq<(string, QueryValue)>)
    ensures fresh(payload) && fresh(payload.params)
    ensures payload.name == if NonEmpty(opts.name) then opts.name.value else DEFAULT_JOB_NAME
    ensures payload.sequences == [ProteinChain(opts.sequence)]
    ensures opts.params.None? ==> payload.params.entries == map["modelName" := JStr(opts.model)]
    ensures opts.params.Some? ==> ParamsMerged(payload.params.entries, opts.model, opts.params.value.entries)
    ensures opts.params.Some? ==> opts.params.value.entries == old(opts.params.value.entries)
    ensures payload.constraints == opts.constraints
    ensures query == if NonEmpty(opts.fromId) then [("from", QStr(opts.fromId.value))] else []
  {
    var params := new Dict(map["modelName" := JStr(opts.model)]);
    payload := new Payload(if NonEmpty(opts.name) then opts.name.value else DEFAULT_JOB_NAME,
                           [ProteinChain(opts.sequence)], params);
    if opts.params.Some? {
      payload.params.AssignFrom(opts.params.value);
    }
    if opts.constraints.Some? {
      payload.constraints := opts.constraints;
    }
    query := [];
    if NonEmpty(opts.fromId) {
      query := [("from", QStr(opts.fromId.value))];
    }
  }

  /** The search parameters of the jobs request: "from" exactly when a
      lineage id is given. */
  lemma FromQuery(fromId: Option<string>)
    ensures Kept(if NonEmpty(fromId) then [("from", QStr(fromId.value))] else [])
            == if NonEmpty(fromId) then [("from", fromId.value)] else []
  {
    if NonEmpty(fromId) {
      var q := [("from", QStr(fromId.value))];
      assert q[..0] == [];
    }
  }

  /** `body` is the payload for a sequence, a model, an optional name and the
      caller's parameters and constraints as data: the name or its default,
      one protein chain with the sequence, the merged parameters, and the
      constraints exactly when given. */
  ghost predicate IsPayloadOf(body: Json, sequence: string, model: string, name: Option<string>,
                              params: Option<map<string, Json>>, constraints: Option<map<string, Json>>)
  {
    && body.JObj?
    && body.fields.Keys == {"name", "sequences", "params"} + (if constraints.Some? then {"constraints"} else {})
    && body.fields["name"] == JStr(if NonEmpty(name) then name.value else DEFAULT_JOB_NAME)
    && body.fields["sequences"] == JArr([ProteinChain(sequence)])
    && body.fields["params"].JObj?
    && (params.None? ==> body.fields["params"].fields == map["modelName" := JStr(model)])
    && (params.Some? ==> ParamsMerged(body.fields["params"].fields, model, params.value))
    && (constraints.Some? ==> body.fields["constraints"] == JObj(constraints.value))
  }

  /** `body` is the payload for `opts`, with the caller's objects as they are now. */
  ghost predicate IsPayloadFor(body: Json, opts: FoldCreateOptions)
    reads if opts.params.Some? then {opts.params.value} else {}
    reads if opts.constraints.Some? then {opts.constraints.value} else {}
  {
    IsPayloadOf(body, opts.sequence, opts.model, opts.name,
                if opts.params.Some? then Some(opts.params.value.entries) else None,
                if opts.constraints.Some? then Some(opts.constraints.value.entries) else None)
  }

  class FoldService {
    const http: HttpClient

    constructor (http: HttpClient)
      ensures this.http == http
    {
      this.http := http;
    }

    /** `create`: posts the payload to the jobs endpoint of the configured
        service and maps the returned body to a `Job`. */
    method Create(opts: FoldCreateOptions, exchange: Exchange) returns (sent: Request, r: Result<Job, Error>)
      ensures sent.url == Url(http.baseUrl + JOBS_PATH,
                              if NonEmpty(opts.fromId) then [("from", opts.fromId.value)] else [])
      ensures sent.headers == http.headers
      ensures sent.body.Some? && IsPayloadFor(sent.body.value, opts)
      ensures exchange.NoResponse? ==> r == Failure(Other(exchange.reason))
      ensures exchange.Responded? && exchange.elapsedMs >= TimerDelay(http.timeoutMs) ==> r == Failure(Other(ABORT_MESSAGE))
      ensures exchange.Responded? && exchange.elapsedMs < TimerDelay(http.timeoutMs) ==>
              var h := HandleResponse(exchange.status, exchange.data);
              r == if h.Success? then Success(JobFromApi(h.value)) else Failure(h.error)
    {
      var payload, query := BuildPayload(opts);
      FromQuery(opts.fromId);
      var data;
      sent, data := http.Post(JOBS_PATH, Some(payload.Body()), query, exchange);
      match data
      case Success(v) =>
        r := Success(JobFromApi(v));
      case Failure(e) =>
        r := Failure(e);
    }
  }
}
