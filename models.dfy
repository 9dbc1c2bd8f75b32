/** The normalised job record and its mapping from the server's loosely
    typed response. */
module Models {
  import opened Js

  /** A created job. `id` is `None` when the response has neither `jobId` nor
      `id` (the source then leaves it `undefined`); the other normalised fields
      are `JNull` when the server did not send them. `raw` is the response. */
  datatype Job = Job(
    id: Option<Json>,
    runId: Json,
    name: Json,
    status: Json,
    sequenceIds: Json,
    raw: Json)

  /** `jobFromApi`: total over every non-null response (property access on
      null would throw, and the transport never passes one). */
  function JobFromApi(data: Json): (job: Job)
    requires data != JNull
    ensures HasValue(data, "jobId") ==> job.id == Some(data.fields["jobId"])
    ensures !HasValue(data, "jobId") ==> job.id == Property(data, "id")
    ensures job.runId != JNull <==> HasValue(data, "jobRunId")
    ensures job.runId != JNull ==> job.runId == data.fields["jobRunId"]
    ensures job.name != JNull <==> HasValue(data, "jobName")
    ensures job.name != JNull ==> job.name == data.fields["jobName"]
    ensures job.status != JNull <==> HasValue(data, "jobStatus")
    ensures job.status != JNull ==> job.status == data.fields["jobStatus"]
    ensures job.sequenceIds != JNull <==> HasValue(data, "sequencesIds")
    ensures job.sequenceIds != JNull ==> job.sequenceIds == data.fields["sequencesIds"]
    ensures job.raw == data
  {
    var jobId := Property(data, "jobId");
    Job(
      id := if jobId.Some? && jobId.value != JNull then jobId else Property(data, "id"),
      runId := Coalesce(Property(data, "jobRunId"), JNull),
      name := Coalesce(Property(data, "jobName"), JNull),
      status := Coalesce(Property(data, "jobStatus"), JNull),
      sequenceIds := Coalesce(Property(data, "sequencesIds"), JNull),
      raw := data)
  }

  /** A response that names the job and its status and nothing else maps to a
      job with that id and status, null optional fields, and the response kept. */
  lemma QueuedJobScenario()
    ensures var data := JObj(map["jobId" := JStr("j1"), "jobStatus" := JStr("QUEUED")]);
            JobFromApi(data) == Job(Some(JStr("j1")), JNull, JNull, JStr("QUEUED"), JNull, data)
  {
  }

  /** An empty-string `jobId` still wins over `id`: only null and a missing
      property fall back. */
  lemma EmptyJobIdIsKept(other: Json)
    ensures JobFromApi(JObj(map["jobId" := JStr(""), "id" := other])).id == Some(JStr(""))
  {
  }
}
