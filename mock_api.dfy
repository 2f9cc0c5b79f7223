// The in-memory stand-in for the generation server
// (src/services/mockApi.ts).
//
// A map from job id to job. Submitting stores a job and starts it at once
// (status processing, progress 0); a timer then raises its progress by a
// random amount each second, capped at 95, and completes it as soon as the
// progress reaches 90: progress 100, a completion time, download links for
// all three formats, and the source image as thumbnail. The timer's random
// amount is a parameter here (any non-negative amount), and so are the job
// id, the object URL and the clock.

module MockBackend {
  import opened Types
  import Text

  /** The server address the mock claims when it is given none. */
  const DefaultBaseUrl := "http://localhost:8000"
  const ProgressCap: real := 95.0
  const CompleteAt: real := 90.0
  const NotFound := "Job not found"

  /** `generateMockDownloadUrl(format)`, with `Date.now()` given as `stamp`. */
  function MockDownloadUrl(stamp: string, f: Format): string {
    "https://example.com/downloads/" + stamp + "." + FormatName(f)
  }

  /** The job `generateModel` builds before storing it. */
  function Submitted(request: GenerateRequest, jobId: string, imageUrl: string, now: string): Job {
    Job(jobId, OrElse(request.name, Text.StripExtension(request.image.name)), Pending, 0.0,
        Some(imageUrl), now, None, None, None, request.settings)
  }

  /** The synchronous start of `simulateProcessing`. */
  function Started(job: Job): Job {
    job.(status := Processing, progress := 0.0)
  }

  /** `Math.min(progress + increment, 95)`. */
  function NextProgress(progress: real, increment: real): (r: real)
    requires 0.0 <= increment
    ensures r <= ProgressCap
    ensures progress <= ProgressCap ==> progress <= r
    ensures r == progress + increment || r == ProgressCap
    ensures r <= progress + increment
  {
    if progress + increment < ProgressCap then progress + increment else ProgressCap
  }

  /** `completeJob` applied to a stored job. */
  function Complete(job: Job, now: string, stamp: string): Job {
    job.(status := Completed, progress := 100.0, completedAt := Some(now),
         downloads := Some(Downloads(Some(MockDownloadUrl(stamp, Glb)), Some(MockDownloadUrl(stamp, Ply)),
                                     Some(MockDownloadUrl(stamp, Mp4)))),
         thumbnail := job.image)
  }

  /** One firing of the progress timer on a processing job. */
  function Advance(job: Job, increment: real, now: string, stamp: string): Job
    requires 0.0 <= increment
  {
    var p := NextProgress(job.progress, increment);
    if p >= CompleteAt then Complete(job.(progress := p), now, stamp) else job.(progress := p)
  }

  /**
   * The shapes a stored job can have: processing below 90 with nothing
   * downloadable, or completed at 100 with a completion time, every format
   * downloadable, and its image as thumbnail.
   */
  predicate WellFormed(job: Job) {
    match job.status
    case Processing =>
      0.0 <= job.progress < CompleteAt && job.completedAt.None? && job.downloads.None?
    case Completed =>
      job.progress == 100.0 && job.completedAt.Some? && job.thumbnail == job.image &&
      HasDownload(job.downloads, Glb) && HasDownload(job.downloads, Ply) && HasDownload(job.downloads, Mp4)
    case _ => false
  }

  /** The name of a submitted job is the request's name, else the image name without its extension. */
  lemma SubmittedName(request: GenerateRequest, jobId: string, imageUrl: string, now: string)
    ensures Truthy(request.name) ==> Submitted(request, jobId, imageUrl, now).name == request.name.value
    ensures !Truthy(request.name) ==>
      Submitted(request, jobId, imageUrl, now).name == Text.StripExtension(request.image.name)
  {
  }

  /** What a submission stores: the job under its id, already processing at progress 0. */
  lemma StartedIsWellFormed(request: GenerateRequest, jobId: string, imageUrl: string, now: string)
    ensures WellFormed(Started(Submitted(request, jobId, imageUrl, now)))
    ensures Started(Submitted(request, jobId, imageUrl, now)).id == jobId
  {
  }

  /**
   * A timer firing on a well-formed processing job keeps it well formed and
   * never lowers its progress; it completes the job exactly when the new
   * progress reaches 90, and otherwise adds the whole increment.
   */
  lemma AdvanceKeepsShape(job: Job, increment: real, now: string, stamp: string)
    requires WellFormed(job) && job.status == Processing && 0.0 <= increment
    ensures WellFormed(Advance(job, increment, now, stamp))
    ensures Advance(job, increment, now, stamp).progress >= job.progress
    ensures Advance(job, increment, now, stamp).id == job.id
    ensures Advance(job, increment, now, stamp).status == Completed <==> job.progress + increment >= CompleteAt
    ensures Advance(job, increment, now, stamp).status == Processing ==>
      Advance(job, increment, now, stamp).progress == job.progress + increment
  {
    var p := NextProgress(job.progress, increment);
    var url := MockDownloadUrl(stamp, Glb);
    assert url[|url| - 1] == 'b';
    url := MockDownloadUrl(stamp, Ply);
    assert url[|url| - 1] == 'y';
    url := MockDownloadUrl(stamp, Mp4);
    assert url[|url| - 1] == '4';
  }

  /** Downloads exist on a stored job exactly when it is completed. */
  lemma DownloadsIffCompleted(job: Job)
    requires WellFormed(job)
    ensures job.downloads.Some? <==> job.status == Completed
  {
  }

  predicate Distinct(keys: seq<string>) {
    forall i, j :: 0 <= i < j < |keys| ==> keys[i] != keys[j]
  }

  /** `keys` with every occurrence of `k` taken out, the rest in order. */
  function Without(keys: seq<string>, k: string): (r: seq<string>)
    ensures forall x :: x in r <==> x in keys && x != k
    ensures Distinct(keys) ==> Distinct(r)
  {
    if keys == [] then []
    else if keys[0] == k then Without(keys[1..], k)
    else
      var rest := Without(keys[1..], k);
      assert Distinct(keys) ==> Distinct(keys[1..]) && keys[0] !in keys[1..] by {
        if Distinct(keys) {
          forall i, j | 0 <= i < j < |keys| - 1 ensures keys[1..][i] != keys[1..][j] {
            assert keys[1..][i] == keys[i + 1] && keys[1..][j] == keys[j + 1];
          }
        }
      }
      [keys[0]] + rest
  }

  /** `Array.from(map.values())`: the stored jobs in the order their keys were inserted. */
  function ValuesInOrder(m: map<string, Job>, keys: seq<string>): (r: seq<Job>)
    requires forall k :: k in keys ==> k in m
    ensures |r| == |keys|
    ensures forall i :: 0 <= i < |keys| ==> r[i] == m[keys[i]]
  {
    if keys == [] then [] else [m[keys[0]]] + ValuesInOrder(m, keys[1..])
  }

  /** Newest `createdAt` first, with `timeOf` standing for `new Date(createdAt).getTime()`. */
  predicate NewestFirst(s: seq<Job>, timeOf: string -> int) {
    forall i, j :: 0 <= i < j < |s| ==> timeOf(s[i].createdAt) >= timeOf(s[j].createdAt)
  }

  /** Inserts `x` before the first job that is not newer than it. */
  function InsertNewest(x: Job, s: seq<Job>, timeOf: string -> int): (r: seq<Job>)
    ensures multiset(r) == multiset(s) + multiset{x}
    ensures |r| == |s| + 1
    ensures r[0] == x || (s != [] && r[0] == s[0])
  {
    if s == [] || timeOf(x.createdAt) >= timeOf(s[0].createdAt) then [x] + s
    else
      assert s == [s[0]] + s[1..];
      [s[0]] + InsertNewest(x, s[1..], timeOf)
  }

  lemma {:induction false} InsertKeepsNewestFirst(x: Job, s: seq<Job>, timeOf: string -> int)
    requires NewestFirst(s, timeOf)
    ensures NewestFirst(InsertNewest(x, s, timeOf), timeOf)
  {
    var r := InsertNewest(x, s, timeOf);
    if s != [] && timeOf(x.createdAt) < timeOf(s[0].createdAt) {
      var rest := InsertNewest(x, s[1..], timeOf);
      InsertKeepsNewestFirst(x, s[1..], timeOf);
      assert r == [s[0]] + rest;
      assert timeOf(s[0].createdAt) >= timeOf(rest[0].createdAt);
      forall i, j | 0 <= i < j < |r| ensures timeOf(r[i].createdAt) >= timeOf(r[j].createdAt) {
        if i == 0 {
          assert r[j] == rest[j - 1];
        } else {
          assert r[i] == rest[i - 1] && r[j] == rest[j - 1];
        }
      }
    } else {
      assert r == [x] + s;
      forall i, j | 0 <= i < j < |r| ensures timeOf(r[i].createdAt) >= timeOf(r[j].createdAt) {
        if i == 0 {
          assert r[j] == s[j - 1];
        } else {
          assert r[i] == s[i - 1] && r[j] == s[j - 1];
        }
      }
    }
  }

  /** The sort of `getAllJobs`: newest first, a rearrangement of its input. */
  function SortNewest(s: seq<Job>, timeOf: string -> int): (r: seq<Job>)
    ensures multiset(r) == multiset(s)
    ensures NewestFirst(r, timeOf)
  {
    if s == [] then []
    else
      assert s == [s[0]] + s[1..];
      var sortedRest := SortNewest(s[1..], timeOf);
      InsertKeepsNewestFirst(s[0], sortedRest, timeOf);
      InsertNewest(s[0], sortedRest, timeOf)
  }

  class MockApiService {
    /** The `Map<string, Job>` store. */
    var jobs: map<string, Job>
    /** The store's keys in insertion order, which a JavaScript `Map` keeps. */
    var order: seq<string>
    var baseUrl: string

    ghost predicate Valid()
      reads this
    {
      Distinct(order) &&
      (forall k :: k in jobs <==> k in order) &&
      (forall k :: k in jobs ==> jobs[k].id == k && WellFormed(jobs[k]))
    }

    /** Without an argument the mock claims the server address `DefaultBaseUrl`. */
    constructor(baseUrl: string := DefaultBaseUrl)
      ensures Valid() && jobs == map[] && order == [] && this.baseUrl == baseUrl
    {
      jobs := map[];
      order := [];
      this.baseUrl := baseUrl;
    }

    method SetBaseUrl(url: string)
      modifies this
      ensures baseUrl == url && jobs == old(jobs) && order == old(order)
    {
      baseUrl := url;
    }

    /**
     * `generateModel`: stores the new job under `jobId` (a store that held
     * that id already is overwritten in place), starts it, and answers with
     * the id.
     */
    method GenerateModel(request: GenerateRequest, jobId: string, imageUrl: string, now: string)
      returns (r: ApiResponse<string>)
      requires Valid()
      modifies this
      ensures Valid()
      ensures r == Succeeded(jobId)
      ensures jobs == old(jobs)[jobId := Started(Submitted(request, jobId, imageUrl, now))]
      ensures order == if jobId in old(order) then old(order) else old(order) + [jobId]
      ensures baseUrl == old(baseUrl)
    {
      var job := Submitted(request, jobId, imageUrl, now);
      jobs := jobs[jobId := job];
      if jobId !in order {
        order := order + [jobId];
      }
      SimulateProcessing(jobId);
      StartedIsWellFormed(request, jobId, imageUrl, now);
      return Succeeded(jobId);
    }

    /** The part of `simulateProcessing` that runs before its timer is set. */
    method SimulateProcessing(jobId: string)
      modifies this
      ensures jobs == if jobId in old(jobs) then old(jobs)[jobId := Started(old(jobs)[jobId])] else old(jobs)
      ensures order == old(order) && baseUrl == old(baseUrl)
    {
      if jobId !in jobs {
        return;
      }
      jobs := jobs[jobId := Started(jobs[jobId])];
    }

    /** `getJobStatus`. */
    function GetJobStatus(jobId: string): (r: ApiResponse<Job>)
      reads this
      ensures r.success <==> jobId in jobs
      ensures r.success ==> r.data == Some(jobs[jobId]) && r.error.None?
      ensures !r.success ==> r.data.None? && r.error == Some(NotFound)
    {
      if jobId !in jobs then Rejected(NotFound) else Succeeded(jobs[jobId])
    }

    /** The mock never reports a pending job, and reports downloads exactly for completed ones. */
    lemma ReportedStatus(jobId: string)
      requires Valid()
      ensures GetJobStatus(jobId).success ==>
        var job := GetJobStatus(jobId).data.value;
        job.id == jobId && (job.status == Processing || job.status == Completed) &&
        (job.downloads.Some? <==> job.status == Completed)
    {
    }

    /** `getAllJobs`: every stored job, newest first. */
    method GetAllJobs(timeOf: string -> int) returns (r: ApiResponse<seq<Job>>)
      requires Valid()
      ensures r.success && r.data.Some?
      ensures multiset(r.data.value) == multiset(ValuesInOrder(jobs, order))
      ensures NewestFirst(r.data.value, timeOf)
      ensures forall k :: k in jobs ==> jobs[k] in r.data.value
      ensures forall x :: x in r.data.value ==> x.id in jobs && jobs[x.id] == x
    {
      var values := ValuesInOrder(jobs, order);
      var sorted := SortNewest(values, timeOf);
      forall k | k in jobs ensures jobs[k] in sorted {
        var i :| 0 <= i < |order| && order[i] == k;
        assert values[i] in multiset(values);
      }
      forall x | x in sorted ensures x.id in jobs && jobs[x.id] == x {
        assert x in multiset(values);
        var i :| 0 <= i < |values| && values[i] == x;
      }
      return Succeeded(sorted);
    }

    /** `deleteJob`: forgets the id and reports success whether or not it was stored. */
    method DeleteJob(jobId: string) returns (r: ApiResponse<()>)
      requires Valid()
      modifies this
      ensures Valid()
      ensures r.success && r.error.None?
      ensures jobs == old(jobs) - {jobId}
      ensures order == Without(old(order), jobId)
      ensures baseUrl == old(baseUrl)
    {
      jobs := jobs - {jobId};
      order := Without(order, jobId);
      return ApiResponse(true, None, None);
    }

    /**
     * One firing of the progress timer for `jobId`. Returns whether the timer
     * keeps running: it stops when the job is gone or no longer processing,
     * and when this firing completes the job.
     */
    method ProcessingTick(jobId: string, increment: real, now: string, stamp: string)
      returns (keepTicking: bool)
      requires Valid() && 0.0 <= increment
      modifies this
      ensures Valid()
      ensures order == old(order) && baseUrl == old(baseUrl)
      ensures jobId !in old(jobs) || old(jobs)[jobId].status != Processing ==>
        !keepTicking && jobs == old(jobs)
      ensures jobId in old(jobs) && old(jobs)[jobId].status == Processing ==>
        jobs == old(jobs)[jobId := Advance(old(jobs)[jobId], increment, now, stamp)] &&
        keepTicking == (jobs[jobId].status == Processing)
    {
      if jobId !in jobs || jobs[jobId].status != Processing {
        return false;
      }
      var current := jobs[jobId];
      var p := NextProgress(current.progress, increment);
      jobs := jobs[jobId := current.(progress := p)];
      if p >= CompleteAt {
        CompleteJob(jobId, now, stamp);
        AdvanceKeepsShape(current, increment, now, stamp);
        return false;
      }
      AdvanceKeepsShape(current, increment, now, stamp);
      return true;
    }

    /** `completeJob`: does nothing for an id that is not stored. */
    method CompleteJob(jobId: string, now: string, stamp: string)
      modifies this
      ensures jobs == if jobId in old(jobs) then old(jobs)[jobId := Complete(old(jobs)[jobId], now, stamp)] else old(jobs)
      ensures order == old(order) && baseUrl == old(baseUrl)
    {
      if jobId !in jobs {
        return;
      }
      jobs := jobs[jobId := Complete(jobs[jobId], now, stamp)];
    }
  }
}
