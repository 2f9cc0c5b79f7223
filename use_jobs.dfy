// The client's job registry and its poll loop (src/hooks/useJobs.ts).
//
// The hook keeps an ordered list of jobs, newest first, and a polling flag.
// While the flag is set, a timer ticks: each tick asks the server for the
// status of every active job (pending or processing), merges each reply into
// the list, and clears the flag when there was nothing to ask about or when
// every reply said "stop". Here a tick is one sequential step that is handed
// the replies; the timer and the promises stay outside the model.

module Jobs {
  import opened Types
  import Lists

  /**
   * A `Partial<Job>` object. A field is `Some` when the object carries that
   * key. For the optional fields of a job the key's value may itself be
   * `undefined`, so those fields are `Option<Option<_>>`.
   */
  datatype JobPatch = JobPatch(
    id: Option<string>,
    name: Option<string>,
    status: Option<Status>,
    progress: Option<real>,
    image: Option<Option<string>>,
    createdAt: Option<string>,
    completedAt: Option<Option<string>>,
    downloads: Option<Option<Downloads>>,
    thumbnail: Option<Option<string>>,
    settings: Option<Option<RequestSettings>>)

  /** `{ ...job, ...updates }`: every key the patch carries overwrites that field, wholesale. */
  function Merge(job: Job, p: JobPatch): Job {
    Job(Pick(p.id, job.id), Pick(p.name, job.name), Pick(p.status, job.status),
        Pick(p.progress, job.progress), Pick(p.image, job.image),
        Pick(p.createdAt, job.createdAt), Pick(p.completedAt, job.completedAt),
        Pick(p.downloads, job.downloads), Pick(p.thumbnail, job.thumbnail),
        Pick(p.settings, job.settings))
  }

  /** The patch keeps the id of the job it is merged into. */
  predicate KeepsId(p: JobPatch, id: string) {
    p.id.None? || p.id.value == id
  }

  /**
   * The keys of a status snapshot built by the API client: every field of a
   * job except `image` and `settings`. Keys whose value is `undefined` are
   * carried all the same, so merging a snapshot erases a known
   * `completedAt`, `downloads` or `thumbnail` that the reply leaves out.
   */
  function SnapshotPatch(s: Job): JobPatch {
    JobPatch(Some(s.id), Some(s.name), Some(s.status), Some(s.progress), None,
             Some(s.createdAt), Some(s.completedAt), Some(s.downloads), Some(s.thumbnail), None)
  }

  lemma MergeSnapshot(job: Job, s: Job)
    ensures Merge(job, SnapshotPatch(s)) == s.(image := job.image, settings := job.settings)
  {
  }

  lemma MergeIdempotent(job: Job, p: JobPatch)
    ensures Merge(Merge(job, p), p) == Merge(job, p)
  {
  }

  /**
   * No merge is refused: a patch with a status overwrites the status of a
   * completed or failed job just as of any other.
   */
  lemma NoTerminalGuard(job: Job, p: JobPatch)
    requires job.status == Completed || job.status == Failed
    requires p.status.Some?
    ensures Merge(job, p).status == p.status.value
  {
  }

  /** `setJobs(prev => prev.map(job => job.id === jobId ? { ...job, ...updates } : job))`. */
  function UpdateJobs(jobs: seq<Job>, jobId: string, p: JobPatch): (r: seq<Job>)
    ensures |r| == |jobs|
    ensures forall i :: 0 <= i < |jobs| && jobs[i].id == jobId ==> r[i] == Merge(jobs[i], p)
    ensures forall i :: 0 <= i < |jobs| && jobs[i].id != jobId ==> r[i] == jobs[i]
  {
    if jobs == [] then []
    else [if jobs[0].id == jobId then Merge(jobs[0], p) else jobs[0]] + UpdateJobs(jobs[1..], jobId, p)
  }

  predicate HasId(jobs: seq<Job>, jobId: string) {
    exists i :: 0 <= i < |jobs| && jobs[i].id == jobId
  }

  /** Updating an id that no job carries leaves the list as it was. */
  lemma UpdateAbsentIsNoOp(jobs: seq<Job>, jobId: string, p: JobPatch)
    requires !HasId(jobs, jobId)
    ensures UpdateJobs(jobs, jobId, p) == jobs
  {
  }

  /**
   * Updates of two different jobs commute, as long as neither patch renames
   * its job: replies for different jobs may be applied in either order.
   */
  lemma UpdatesCommute(jobs: seq<Job>, a: string, p: JobPatch, b: string, q: JobPatch)
    requires a != b && KeepsId(p, a) && KeepsId(q, b)
    ensures UpdateJobs(UpdateJobs(jobs, a, p), b, q) == UpdateJobs(UpdateJobs(jobs, b, q), a, p)
  {
    var left := UpdateJobs(UpdateJobs(jobs, a, p), b, q);
    var right := UpdateJobs(UpdateJobs(jobs, b, q), a, p);
    forall i | 0 <= i < |jobs| ensures left[i] == right[i] {
      if jobs[i].id == a {
        assert Merge(jobs[i], p).id == a;
      } else if jobs[i].id == b {
        assert Merge(jobs[i], q).id == b;
      }
    }
  }

  /** A job is polled while its status string is `pending` or `processing`. */
  predicate IsActive(job: Job) {
    StatusName(job.status) == "pending" || StatusName(job.status) == "processing"
  }

  /**
   * `jobs.filter(job => job.status === 'pending' || job.status === 'processing')`;
   * as a filter it keeps list order and multiplicity (`Lists.FilterIsSubsequence`,
   * `Lists.FilterCounts`).
   */
  function ActiveJobs(jobs: seq<Job>): (r: seq<Job>)
    ensures |r| <= |jobs|
    ensures forall x :: x in r <==> x in jobs && IsActive(x)
  {
    Lists.Filter(jobs, IsActive)
  }

  function Ids(jobs: seq<Job>): (r: seq<string>)
    ensures |r| == |jobs|
    ensures forall i :: 0 <= i < |jobs| ==> r[i] == jobs[i].id
  {
    if jobs == [] then [] else [jobs[0].id] + Ids(jobs[1..])
  }

  /** The ids a tick asks the server about: those of the active jobs, in list order. */
  function PolledIds(jobs: seq<Job>): seq<string> {
    Ids(ActiveJobs(jobs))
  }

  lemma {:induction false} PolledIffActive(jobs: seq<Job>, jobId: string)
    ensures jobId in PolledIds(jobs) <==> exists j :: j in jobs && IsActive(j) && j.id == jobId
  {
    var active := ActiveJobs(jobs);
    var ids := PolledIds(jobs);
    if jobId in ids {
      var i :| 0 <= i < |ids| && ids[i] == jobId;
      assert active[i] in active;
    }
    if j :| j in jobs && IsActive(j) && j.id == jobId {
      assert j in active;
      var i :| 0 <= i < |active| && active[i] == j;
      assert ids[i] == jobId;
    }
  }

  /** The fetched status reads `completed` or `failed`: compared by spelling, as the hook does. */
  predicate IsTerminal(s: Status) {
    StatusName(s) == "completed" || StatusName(s) == "failed"
  }

  /**
   * The outcome of `pollJob`: `false` (stop) when the request failed, or
   * when the fetched status is `completed` or `failed`; `true` otherwise.
   */
  function PollOutcome(r: ApiResponse<Job>): bool {
    r.success && r.data.Some? && !IsTerminal(r.data.value.status)
  }

  /** What one reply does to the list: a successful reply is merged into every job with that id. */
  function ApplyPoll(jobs: seq<Job>, jobId: string, r: ApiResponse<Job>): seq<Job> {
    if r.success && r.data.Some? then UpdateJobs(jobs, jobId, SnapshotPatch(r.data.value)) else jobs
  }

  /** The replies of a tick applied in turn, the last one last. */
  function ApplyPolls(jobs: seq<Job>, ids: seq<string>, rs: seq<ApiResponse<Job>>): seq<Job>
    requires |ids| == |rs|
    decreases |ids|
  {
    if ids == [] then jobs
    else ApplyPoll(ApplyPolls(jobs, ids[..|ids| - 1], rs[..|rs| - 1]), ids[|ids| - 1], rs[|rs| - 1])
  }

  /** A tick keeps the length of the list and every job that was not asked about. */
  lemma {:induction false} ApplyPollsFrame(jobs: seq<Job>, ids: seq<string>, rs: seq<ApiResponse<Job>>)
    requires |ids| == |rs|
    ensures |ApplyPolls(jobs, ids, rs)| == |jobs|
    ensures forall i :: 0 <= i < |jobs| && jobs[i].id !in ids ==> ApplyPolls(jobs, ids, rs)[i] == jobs[i]
  {
    if ids != [] {
      var n := |ids| - 1;
      ApplyPollsFrame(jobs, ids[..n], rs[..n]);
      var mid := ApplyPolls(jobs, ids[..n], rs[..n]);
      forall i | 0 <= i < |jobs| && jobs[i].id !in ids ensures ApplyPolls(jobs, ids, rs)[i] == jobs[i] {
        assert jobs[i].id !in ids[..n];
        assert mid[i] == jobs[i];
      }
    }
  }

  /** When every request of a tick failed, the list is untouched. */
  lemma {:induction false} FailedPollsChangeNothing(jobs: seq<Job>, ids: seq<string>, rs: seq<ApiResponse<Job>>)
    requires |ids| == |rs|
    requires forall k :: 0 <= k < |rs| ==> !rs[k].success
    ensures ApplyPolls(jobs, ids, rs) == jobs
  {
    if ids != [] {
      FailedPollsChangeNothing(jobs, ids[..|ids| - 1], rs[..|rs| - 1]);
    }
  }

  /**
   * A reply that reports an unrecognised status string says "continue", yet
   * the job it is merged into is no longer active and is never asked about
   * again.
   */
  lemma UnknownStatusDropsJob(job: Job, s: Job)
    requires s.status.Other? && !IsStatusName(s.status.text)
    ensures PollOutcome(Succeeded(s))
    ensures !IsActive(Merge(job, SnapshotPatch(s)))
  {
  }

  /** A reply that says "continue" leaves the job in a non-terminal status. */
  lemma ContinueMeansNotTerminal(job: Job, r: ApiResponse<Job>)
    requires PollOutcome(r)
    ensures Merge(job, SnapshotPatch(r.data.value)).status !in {Completed, Failed}
  {
  }

  class JobRegistry {
    var jobs: seq<Job>
    var isPolling: bool

    constructor()
      ensures jobs == [] && !isPolling
    {
      jobs := [];
      isPolling := false;
    }

    /** `addJob`: prepends, with no check for a job already carrying that id. */
    method AddJob(job: Job)
      modifies this
      ensures jobs == [job] + old(jobs)
      ensures isPolling == old(isPolling)
    {
      jobs := [job] + jobs;
    }

    /** `updateJob`: merges `updates` into every job whose id is `jobId`. */
    method UpdateJob(jobId: string, updates: JobPatch)
      modifies this
      ensures jobs == UpdateJobs(old(jobs), jobId, updates)
      ensures isPolling == old(isPolling)
    {
      jobs := UpdateJobs(jobs, jobId, updates);
    }

    /** `pollJob`, given the reply of `getJobStatus(jobId)`. */
    method PollJob(jobId: string, response: ApiResponse<Job>) returns (keepPolling: bool)
      modifies this
      ensures jobs == ApplyPoll(old(jobs), jobId, response)
      ensures isPolling == old(isPolling)
      ensures keepPolling == PollOutcome(response)
    {
      if response.success && response.data.Some? {
        var job := response.data.value;
        UpdateJob(jobId, SnapshotPatch(job));
        if StatusName(job.status) == "completed" {
          return false;
        } else if StatusName(job.status) == "failed" {
          return false;
        }
      } else {
        return false;
      }
      return true;
    }

    /** `startPolling`: does nothing while the flag is set. */
    method StartPolling() returns (started: bool)
      modifies this
      ensures started == !old(isPolling)
      ensures isPolling
      ensures jobs == old(jobs)
    {
      if isPolling {
        return false;
      }
      isPolling := true;
      return true;
    }

    /** The effect that runs on every change of `jobs` or `isPolling`. */
    method SyncPolling() returns (started: bool)
      modifies this
      ensures started == (ActiveJobs(old(jobs)) != [] && !old(isPolling))
      ensures isPolling == (old(isPolling) || started)
      ensures jobs == old(jobs)
    {
      started := false;
      if ActiveJobs(jobs) != [] && !isPolling {
        started := StartPolling();
      }
    }

    /**
     * One tick of the poll timer. `responses[k]` is the reply to the k-th
     * request, and requests go out for the active jobs in list order.
     * Returns the ids asked about.
     */
    method Tick(responses: seq<ApiResponse<Job>>) returns (polled: seq<string>)
      requires isPolling
      requires |responses| == |ActiveJobs(jobs)|
      modifies this
      ensures polled == PolledIds(old(jobs))
      ensures jobs == ApplyPolls(old(jobs), polled, responses)
      ensures isPolling <==> polled != [] && exists k :: 0 <= k < |responses| && PollOutcome(responses[k])
    {
      polled := PolledIds(jobs);
      if |polled| == 0 {
        isPolling := false;
        return;
      }
      var anyContinue := false;
      var i := 0;
      while i < |polled|
        invariant 0 <= i <= |polled|
        invariant isPolling
        invariant jobs == ApplyPolls(old(jobs), polled[..i], responses[..i])
        invariant anyContinue <==> exists k :: 0 <= k < i && PollOutcome(responses[k])
      {
        var result := PollJob(polled[i], responses[i]);
        assert polled[..i + 1][..i] == polled[..i];
        assert responses[..i + 1][..i] == responses[..i];
        anyContinue := anyContinue || result;
        i := i + 1;
      }
      assert polled[..i] == polled && responses[..i] == responses;
      if !anyContinue {
        isPolling := false;
      }
    }
  }

  /**
   * The scenario of a single job: it is created pending, a tick reports it
   * processing at 45, the next reports it completed, and polling stops.
   */
  method SingleJobScenario(created: Job, processing: Job, completed: Job)
    requires created.status == Pending && created.progress == 0.0
    requires processing.id == created.id && processing.status == Processing && processing.progress == 45.0
    requires completed.id == created.id && completed.status == Completed
  {
    var registry := new JobRegistry();
    registry.AddJob(created);
    var started := registry.SyncPolling();
    assert started && registry.isPolling;

    assert ActiveJobs(registry.jobs) == [created];
    var polled := registry.Tick([Succeeded(processing)]);
    assert polled == [created.id];
    assert registry.jobs[0].status == Processing && registry.jobs[0].progress == 45.0;
    assert registry.isPolling;

    polled := registry.Tick([Succeeded(completed)]);
    assert registry.jobs[0].status == Completed;
    assert !registry.isPolling;
    assert ActiveJobs(registry.jobs) == [];
    started := registry.SyncPolling();
    assert !started && !registry.isPolling;
  }
}
