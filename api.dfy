// The HTTP client of the generation server (src/services/api.ts).
//
// The transport is left out: a reply is either the body the server sent or
// the error the request threw. What is modelled is how a reply becomes the
// client's `ApiResponse`: the job id picked from a submission reply, the job
// built from a status reply with its defaults, and the error message
// fallbacks.

module Api {
  import opened Types

  /** The server the client talks to when it is given none. */
  const DefaultBaseUrl := "http://localhost:8000"
  const GenerateFallback := "Failed to start generation"
  const StatusFallback := "Failed to get job status"

  /** The untyped body of `GET /jobs/{id}`: every field may be missing. */
  datatype DownloadsBody = DownloadsBody(glb: Option<string>, ply: Option<string>, mp4: Option<string>)

  datatype StatusBody = StatusBody(
    name: Option<string>,
    status: Option<string>,
    progress: Option<real>,
    createdAt: Option<string>,
    completedAt: Option<string>,
    downloads: Option<DownloadsBody>,
    thumbnail: Option<string>)

  /** The body of `POST /generate`, which may name the id `job_id` or `jobId`. */
  datatype GenerateBody = GenerateBody(snakeJobId: Option<string>, camelJobId: Option<string>)

  /** A thrown request error: `error.response?.data?.message` and `error.message`. */
  datatype RequestError = RequestError(responseMessage: Option<string>, message: Option<string>)

  datatype Reply<T> = Replied(body: T) | Threw(error: RequestError)

  /** `error.response?.data?.message || error.message || fallback`. */
  function ErrorMessage(e: RequestError, fallback: string): (m: string)
    ensures Truthy(e.responseMessage) ==> m == e.responseMessage.value
    ensures !Truthy(e.responseMessage) && Truthy(e.message) ==> m == e.message.value
    ensures !Truthy(e.responseMessage) && !Truthy(e.message) ==> m == fallback
  {
    OrElse(e.responseMessage, OrElse(e.message, fallback))
  }

  /** `response.data.job_id || response.data.jobId`; `None` is `undefined`. */
  function ChooseJobId(body: GenerateBody): Option<string> {
    if Truthy(body.snakeJobId) then body.snakeJobId else body.camelJobId
  }

  /** The id is `job_id` whenever that is not empty, and `jobId` otherwise, even when `jobId` is missing too. */
  lemma ChooseJobIdPrefersSnakeCase(body: GenerateBody)
    ensures Truthy(body.snakeJobId) ==> ChooseJobId(body) == body.snakeJobId
    ensures !Truthy(body.snakeJobId) ==> ChooseJobId(body) == body.camelJobId
    ensures GenerateResult(Replied(body)).success
  {
  }

  /** The multipart form of a submission. */
  datatype FormField = ImageField(file: ImageFile) | NameField(name: string) | SettingsField(settings: RequestSettings)

  /** `image` always; `name` and `settings` only when the request carries them (a name only when not empty). */
  function FormFields(request: GenerateRequest): (fields: seq<FormField>)
    ensures |fields| == 1 + (if Truthy(request.name) then 1 else 0) + (if request.settings.Some? then 1 else 0)
    ensures fields[0] == ImageField(request.image)
    ensures Truthy(request.name) ==> NameField(request.name.value) in fields
    ensures (exists n :: NameField(n) in fields) <==> Truthy(request.name)
    ensures (exists s :: SettingsField(s) in fields) <==> request.settings.Some?
    ensures request.settings.Some? ==> SettingsField(request.settings.value) in fields
  {
    [ImageField(request.image)]
    + (if Truthy(request.name) then [NameField(request.name.value)] else [])
    + (if request.settings.Some? then [SettingsField(request.settings.value)] else [])
  }

  /** The outcome of `generateModel` for a reply. */
  function GenerateResult(reply: Reply<GenerateBody>): ApiResponse<Option<string>> {
    match reply
    case Replied(body) => Succeeded(ChooseJobId(body))
    case Threw(e) => Rejected(ErrorMessage(e, GenerateFallback))
  }

  /** `'Job ' + jobId`. */
  function DefaultName(jobId: string): string {
    "Job " + jobId
  }

  /**
   * The job `getJobStatus` builds from a status body. `now` stands for
   * `new Date().toISOString()`. The status string is not checked.
   */
  function StatusSnapshot(jobId: string, body: StatusBody, now: string): Job {
    Job(jobId,
        OrElse(body.name, DefaultName(jobId)),
        if Truthy(body.status) then ParseStatus(body.status.value) else Pending,
        if body.progress.Some? then body.progress.value else 0.0,
        None,
        OrElse(body.createdAt, now),
        body.completedAt,
        if body.downloads.Some? then
          Some(Downloads(body.downloads.value.glb, body.downloads.value.ply, body.downloads.value.mp4))
        else None,
        body.thumbnail,
        None)
  }

  /** The outcome of `getJobStatus` for a reply. */
  function StatusResult(jobId: string, reply: Reply<StatusBody>, now: string): ApiResponse<Job> {
    match reply
    case Replied(body) => Succeeded(StatusSnapshot(jobId, body, now))
    case Threw(e) => Rejected(ErrorMessage(e, StatusFallback))
  }

  /**
   * The snapshot always carries the id that was asked about; a missing name
   * becomes `Job <id>`, a missing or empty status `pending`, a missing
   * progress 0, a missing creation time the current time; any other name,
   * status string, progress or creation time is kept as it is, the
   * completion time and thumbnail are copied, and the job has no image or
   * settings of its own.
   */
  lemma SnapshotDefaults(jobId: string, body: StatusBody, now: string)
    ensures StatusSnapshot(jobId, body, now).id == jobId
    ensures Truthy(body.name) ==> StatusSnapshot(jobId, body, now).name == body.name.value
    ensures !Truthy(body.name) ==> StatusSnapshot(jobId, body, now).name == "Job " + jobId
    ensures !Truthy(body.status) ==> StatusSnapshot(jobId, body, now).status == Pending
    ensures Truthy(body.status) ==> StatusName(StatusSnapshot(jobId, body, now).status) == body.status.value
    ensures body.progress.None? ==> StatusSnapshot(jobId, body, now).progress == 0.0
    ensures body.progress.Some? ==> StatusSnapshot(jobId, body, now).progress == body.progress.value
    ensures Truthy(body.createdAt) ==> StatusSnapshot(jobId, body, now).createdAt == body.createdAt.value
    ensures !Truthy(body.createdAt) ==> StatusSnapshot(jobId, body, now).createdAt == now
    ensures StatusSnapshot(jobId, body, now).completedAt == body.completedAt
    ensures StatusSnapshot(jobId, body, now).thumbnail == body.thumbnail
    ensures StatusSnapshot(jobId, body, now).image.None? && StatusSnapshot(jobId, body, now).settings.None?
  {
  }

  /** An unrecognised status string, such as "queued", reaches the job unchanged. */
  lemma UnknownStatusPassesThrough(jobId: string, body: StatusBody, now: string)
    requires Truthy(body.status) && !IsStatusName(body.status.value)
    ensures StatusSnapshot(jobId, body, now).status == Other(body.status.value)
  {
  }

  /** `downloads` is undefined exactly when the body has none, and otherwise copies the three links. */
  lemma SnapshotDownloads(jobId: string, body: StatusBody, now: string, f: Format)
    ensures StatusSnapshot(jobId, body, now).downloads.None? <==> body.downloads.None?
    ensures body.downloads.Some? ==>
      var d := body.downloads.value;
      DownloadUrl(StatusSnapshot(jobId, body, now).downloads.value, f) ==
        match f case Glb => d.glb case Ply => d.ply case Mp4 => d.mp4
  {
  }

  /** Every thrown error yields `success == false`, no data, and a message that is never empty. */
  lemma ThrownIsFailure(jobId: string, e: RequestError, now: string)
    ensures !StatusResult(jobId, Threw(e), now).success && StatusResult(jobId, Threw(e), now).data.None?
    ensures StatusResult(jobId, Threw(e), now).error.Some? && StatusResult(jobId, Threw(e), now).error.value != ""
    ensures !GenerateResult(Threw(e)).success && GenerateResult(Threw(e)).data.None?
    ensures GenerateResult(Threw(e)).error.Some? && GenerateResult(Threw(e)).error.value != ""
  {
  }

  class ApiService {
    var baseUrl: string

    /** Without an argument the client talks to `DefaultBaseUrl`. */
    constructor(baseUrl: string := DefaultBaseUrl)
      ensures this.baseUrl == baseUrl
    {
      this.baseUrl := baseUrl;
    }

    method SetBaseUrl(url: string)
      modifies this
      ensures baseUrl == url
    {
      baseUrl := url;
    }

    /** `generateModel`: the request it sends and what it answers for the reply. */
    method GenerateModel(request: GenerateRequest, reply: Reply<GenerateBody>)
      returns (url: string, form: seq<FormField>, r: ApiResponse<Option<string>>)
      ensures url == baseUrl + "/generate"
      ensures form == FormFields(request)
      ensures r == GenerateResult(reply)
    {
      url := baseUrl + "/generate";
      form := FormFields(request);
      r := GenerateResult(reply);
    }

    /** `getJobStatus`: the URL it asks and what it answers for the reply. */
    method GetJobStatus(jobId: string, reply: Reply<StatusBody>, now: string)
      returns (url: string, r: ApiResponse<Job>)
      ensures url == baseUrl + "/jobs/" + jobId
      ensures r == StatusResult(jobId, reply, now)
    {
      url := baseUrl + "/jobs/" + jobId;
      r := StatusResult(jobId, reply, now);
    }
  }
}
