// The shared data model of the client: jobs, their status, download links,
// generation settings, image files and the `ApiResponse` envelope
// (src/types/index.ts).

module Types {

  datatype Option<+T> = None | Some(value: T)

  /** JavaScript truthiness of an optional string: present and not empty. */
  predicate Truthy(s: Option<string>) {
    s.Some? && s.value != ""
  }

  /** `a || b` where `a` is an optional string and `b` a string. */
  function OrElse(a: Option<string>, b: string): string {
    if Truthy(a) then a.value else b
  }

  /** The value of a spread `{ ...obj, ...patch }` at one key: the patch's when it carries the key. */
  function Pick<T>(key: Option<T>, current: T): T {
    if key.Some? then key.value else current
  }

  /**
   * A job's status. The type declares four names, but the client copies the
   * status string of a server reply without checking it, so any other
   * string can reach a job: `Other` carries it.
   */
  datatype Status = Pending | Processing | Completed | Failed | Other(text: string)

  predicate IsStatusName(text: string) {
    text == "pending" || text == "processing" || text == "completed" || text == "failed"
  }

  /** A status as the client itself can hold it: `Other` never spells one of the four names. */
  predicate WellFormedStatus(s: Status) {
    s.Other? ==> !IsStatusName(s.text)
  }

  function StatusName(s: Status): string {
    match s
    case Pending => "pending"
    case Processing => "processing"
    case Completed => "completed"
    case Failed => "failed"
    case Other(text) => text
  }

  /** Reads a status string the way the rest of the client compares it: by its exact spelling. */
  function ParseStatus(text: string): (s: Status)
    ensures WellFormedStatus(s)
    ensures StatusName(s) == text
  {
    if text == "pending" then Pending
    else if text == "processing" then Processing
    else if text == "completed" then Completed
    else if text == "failed" then Failed
    else Other(text)
  }

  lemma ParseStatusName(s: Status)
    requires WellFormedStatus(s)
    ensures ParseStatus(StatusName(s)) == s
  {
  }

  /** The three asset formats a completed job can be downloaded in. */
  datatype Format = Glb | Ply | Mp4

  function FormatName(f: Format): string {
    match f
    case Glb => "glb"
    case Ply => "ply"
    case Mp4 => "mp4"
  }

  datatype Downloads = Downloads(glb: Option<string>, ply: Option<string>, mp4: Option<string>)

  function DownloadUrl(d: Downloads, f: Format): Option<string> {
    match f
    case Glb => d.glb
    case Ply => d.ply
    case Mp4 => d.mp4
  }

  /** `job.downloads?.[format]` is truthy. */
  predicate HasDownload(downloads: Option<Downloads>, f: Format) {
    downloads.Some? && Truthy(DownloadUrl(downloads.value, f))
  }

  /** The optional generation parameters of a request (`GenerateRequest.settings`). */
  datatype RequestSettings = RequestSettings(
    seed: Option<int>,
    guidanceStrength1: Option<real>,
    samplingSteps1: Option<int>,
    guidanceStrength2: Option<real>,
    samplingSteps2: Option<int>,
    symmetry: Option<string>)

  /**
   * One generation job. Timestamps, ids and URLs are opaque strings;
   * `progress` is a JavaScript number.
   */
  datatype Job = Job(
    id: string,
    name: string,
    status: Status,
    progress: real,
    image: Option<string>,
    createdAt: string,
    completedAt: Option<string>,
    downloads: Option<Downloads>,
    thumbnail: Option<string>,
    settings: Option<RequestSettings>)

  /** A browser `File`, reduced to what the client inspects: its name and its size in bytes. */
  datatype ImageFile = ImageFile(name: string, size: nat)

  /** The `{ success, data?, error? }` envelope every service call returns. */
  datatype ApiResponse<T> = ApiResponse(success: bool, data: Option<T>, error: Option<string>)

  function Succeeded<T>(value: T): ApiResponse<T> {
    ApiResponse(true, Some(value), None)
  }

  function Rejected<T>(message: string): ApiResponse<T> {
    ApiResponse(false, None, Some(message))
  }

  datatype GenerateRequest = GenerateRequest(image: ImageFile, name: Option<string>, settings: Option<RequestSettings>)

  /** A toast shown to the user. */
  datatype Notice = Notice(title: string, description: string, destructive: bool)
}
