// The history list (src/components/HistoryPanel.tsx): the search and status
// filter over the jobs it is given, the completed/total counts, and which
// actions each listed job offers. The search text and the filter are the
// panel's inputs.

module History {
  import opened Types
  import Text
  import Lists
  import Files

  /** The status select: 'all' or one status name. */
  datatype StatusFilter = All | Only(status: Status)

  /** A job's name contains the search term, both lower-cased, and its status passes the filter. */
  predicate Matches(job: Job, searchTerm: string, filter: StatusFilter) {
    Text.Contains(Text.ToLower(job.name), Text.ToLower(searchTerm)) &&
    (filter.All? || StatusName(job.status) == StatusName(filter.status))
  }

  /** `filteredJobs`. */
  function FilteredJobs(jobs: seq<Job>, searchTerm: string, filter: StatusFilter): seq<Job> {
    Lists.Filter(jobs, (job: Job) => Matches(job, searchTerm, filter))
  }

  /**
   * A job is listed exactly when it matches, as often as `jobs` holds it,
   * the listed jobs keep the order of `jobs`, and a status filter lists
   * only jobs of that status.
   */
  lemma FilteredJobsSpec(jobs: seq<Job>, searchTerm: string, filter: StatusFilter)
    ensures forall job :: job in FilteredJobs(jobs, searchTerm, filter) <==>
      job in jobs && Text.Contains(Text.ToLower(job.name), Text.ToLower(searchTerm)) &&
      (filter.All? || StatusName(job.status) == StatusName(filter.status))
    ensures Lists.IsSubsequence(FilteredJobs(jobs, searchTerm, filter), jobs)
    ensures |FilteredJobs(jobs, searchTerm, filter)| <= |jobs|
    ensures forall job: Job :: multiset(FilteredJobs(jobs, searchTerm, filter))[job] ==
                               (if Matches(job, searchTerm, filter) then multiset(jobs)[job] else 0)
  {
    Lists.FilterIsSubsequence(jobs, (job: Job) => Matches(job, searchTerm, filter));
    Lists.FilterCounts(jobs, (job: Job) => Matches(job, searchTerm, filter));
  }

  /** With an empty search and the filter at 'all' every job is listed, in order. */
  lemma EmptySearchListsAll(jobs: seq<Job>)
    ensures FilteredJobs(jobs, "", All) == jobs
  {
    forall i | 0 <= i < |jobs| ensures Matches(jobs[i], "", All) {
      Text.ContainsEmpty(Text.ToLower(jobs[i].name));
    }
    Lists.FilterAll(jobs, (job: Job) => Matches(job, "", All));
  }

  /** The search ignores the case of ASCII letters on both sides. */
  lemma SearchIgnoresCase(jobs: seq<Job>, searchTerm: string, filter: StatusFilter)
    ensures FilteredJobs(jobs, Text.ToLower(searchTerm), filter) == FilteredJobs(jobs, searchTerm, filter)
  {
    Text.ToLowerIdempotent(searchTerm);
    Lists.FilterSamePredicate(jobs, (job: Job) => Matches(job, Text.ToLower(searchTerm), filter),
      (job: Job) => Matches(job, searchTerm, filter));
  }

  /** `job.status === 'completed'`. */
  predicate IsCompleted(job: Job) {
    StatusName(job.status) == "completed"
  }

  /** `completedJobs`: the number of completed jobs. */
  function CompletedCount(jobs: seq<Job>): nat {
    |Lists.Filter(jobs, IsCompleted)|
  }

  /**
   * The completed count never exceeds the total and is the length of the
   * list the 'completed' filter shows for an empty search.
   */
  lemma CompletedCountSpec(jobs: seq<Job>)
    ensures CompletedCount(jobs) <= |jobs|
    ensures CompletedCount(jobs) == |FilteredJobs(jobs, "", Only(Completed))|
    ensures CompletedCount(jobs) == |jobs| <==> forall i :: 0 <= i < |jobs| ==> IsCompleted(jobs[i])
  {
    SameFilter(jobs);
    if CompletedCount(jobs) == |jobs| {
      forall i | 0 <= i < |jobs| ensures IsCompleted(jobs[i]) {
        FullFilterKeepsAll(jobs, IsCompleted, i);
      }
    } else {
      if forall i :: 0 <= i < |jobs| ==> IsCompleted(jobs[i]) {
        Lists.FilterAll(jobs, IsCompleted);
      }
    }
  }

  lemma {:induction false} SameFilter(jobs: seq<Job>)
    ensures Lists.Filter(jobs, IsCompleted) == FilteredJobs(jobs, "", Only(Completed))
  {
    if jobs != [] {
      SameFilter(jobs[1..]);
      Text.ContainsEmpty(Text.ToLower(jobs[0].name));
      assert IsCompleted(jobs[0]) <==> Matches(jobs[0], "", Only(Completed));
    }
  }

  /** A filter that keeps as many elements as there are keeps every one of them. */
  lemma {:induction false} FullFilterKeepsAll<T(!new)>(s: seq<T>, p: T -> bool, i: int)
    requires |Lists.Filter(s, p)| == |s| && 0 <= i < |s|
    ensures p(s[i])
  {
    assert p(s[0]);
    if i > 0 {
      FullFilterKeepsAll(s[1..], p, i - 1);
    }
  }

  /** The View action is shown for completed jobs only. */
  predicate ShowsView(job: Job) {
    IsCompleted(job)
  }

  /**
   * The download buttons of a listed job, in the order GLB, PLY, MP4: one
   * per format with a link, and only on a job that also shows View.
   */
  function DownloadButtons(job: Job): (r: seq<Format>)
    ensures forall f :: f in r <==> IsCompleted(job) && HasDownload(job.downloads, f)
    ensures forall i, j :: 0 <= i < j < |r| ==> r[i] != r[j]
    ensures r != [] ==> ShowsView(job)
  {
    if IsCompleted(job) && job.downloads.Some? then
      (if Truthy(job.downloads.value.glb) then [Glb] else []) +
      (if Truthy(job.downloads.value.ply) then [Ply] else []) +
      (if Truthy(job.downloads.value.mp4) then [Mp4] else [])
    else []
  }

  /**
   * Every download button the panel shows passes the guard of
   * `downloadModel`: the request it starts is for that format's link.
   */
  lemma DownloadButtonsPassGuard(job: Job, f: Format, host: Option<Files.HostDownload>)
    requires f in DownloadButtons(job)
    ensures Files.DownloadModel(job, f, host).started.Some?
    ensures Files.DownloadModel(job, f, host).started.value.url == DownloadUrl(job.downloads.value, f).value
  {
    Files.DownloadModelGuard(job, f, host);
  }
}
