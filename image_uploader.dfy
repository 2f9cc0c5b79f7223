// The image uploader of the main window (src/components/ImageUploader.tsx):
// how a submission is named, the generation settings it sends, and what
// comes of the server's answer. The submission rule is shared with the
// upload panel (src/components/UploadPanel.tsx), which differs only in the
// settings it sends and in the wording of one notice.
//
// The reply of `generateModel` is a parameter, and so are `Math.random()`,
// the object URL of the image and the creation time.

module Uploader {
  import opened Types
  import Text
  import Jobs

  /** The seed is `Math.floor(Math.random() * 1000000)`. */
  const SeedRange: int := 1000000

  const NoImageTitle := "No image selected"
  const UploadHint := "Please upload an image to generate a 3D model."
  const StartedTitle := "Generation Started!"
  const StartedDescription := "Your 3D model generation has been queued."
  const FailedTitle := "Generation Failed"
  const StartFallback := "Failed to start generation"
  const FailedFallback := "Failed to start 3D model generation."

  /** `name || file.name.replace(/\.[^/.]+$/, '')`. */
  function JobName(name: string, file: ImageFile): string {
    if name != "" then name else Text.StripExtension(file.name)
  }

  /**
   * A typed name wins; otherwise the file name loses exactly the suffix the
   * regular expression matches, and is kept whole when there is none.
   */
  lemma JobNameSpec(name: string, file: ImageFile)
    ensures name != "" ==> JobName(name, file) == name
    ensures name == "" ==> forall k :: Text.ExtensionAt(file.name, k) ==> JobName(name, file) == file.name[..k]
    ensures name == "" && (forall k :: !Text.ExtensionAt(file.name, k)) ==> JobName(name, file) == file.name
  {
    Text.StripExtensionMatchesRegex(file.name);
  }

  /** `Math.floor(random * 1000000)` for a `random` in [0, 1). */
  function Seed(random: real): (seed: int)
    requires 0.0 <= random < 1.0
    ensures 0 <= seed < SeedRange
  {
    (random * 1000000.0).Floor
  }

  /** The settings every request of the uploader carries. */
  function FixedSettings(seed: int): RequestSettings {
    RequestSettings(Some(seed), Some(7.5), Some(12), Some(3.0), Some(12), Some("off"))
  }

  /** What one click on Generate leads to: the request sent, the job handed on, the notice shown. */
  datatype Outcome = Outcome(request: Option<GenerateRequest>, created: Option<Job>, notice: Notice)

  /** The job a successful submission creates. */
  function NewJob(id: string, name: string, imageUrl: string, now: string): Job {
    Job(id, name, Pending, 0.0, Some(imageUrl), now, None, None, None, None)
  }

  /**
   * The submission both components run: without an image, a notice and
   * nothing else; otherwise a request, and a job exactly when the reply
   * succeeded with an id. A failed reply's message becomes the thrown
   * error's message, shown in the notice.
   */
  function Submission(image: Option<ImageFile>, name: string, settings: Option<RequestSettings>,
                      missingHint: string, reply: ApiResponse<string>, imageUrl: string, now: string): Outcome
  {
    if image.None? then Outcome(None, None, Notice(NoImageTitle, missingHint, true))
    else
      var jobName := JobName(name, image.value);
      var request := GenerateRequest(image.value, Some(jobName), settings);
      if reply.success && reply.data.Some? then
        Outcome(Some(request), Some(NewJob(reply.data.value, jobName, imageUrl, now)),
                Notice(StartedTitle, StartedDescription, false))
      else
        Outcome(Some(request), None,
                Notice(FailedTitle, OrElse(Some(OrElse(reply.error, StartFallback)), FailedFallback), true))
  }

  /**
   * A request goes out exactly when there is an image; a job is handed on
   * exactly when, in addition, the reply succeeded with an id. That job
   * carries the id, the submitted name, status pending and progress 0, so
   * the poll loop will pick it up. A failure is always announced with a
   * message that is not empty.
   */
  lemma SubmissionSpec(image: Option<ImageFile>, name: string, settings: Option<RequestSettings>,
                       missingHint: string, reply: ApiResponse<string>, imageUrl: string, now: string)
    ensures var o := Submission(image, name, settings, missingHint, reply, imageUrl, now);
      (o.request.Some? <==> image.Some?) &&
      (o.request.Some? ==> o.request.value.image == image.value && o.request.value.settings == settings &&
                           o.request.value.name == Some(JobName(name, image.value))) &&
      (o.created.Some? <==> image.Some? && reply.success && reply.data.Some?) &&
      (o.created.Some? ==> o.created.value.id == reply.data.value && o.created.value.status == Pending &&
                           o.created.value.progress == 0.0 && o.created.value.name == o.request.value.name.value &&
                           o.created.value.image == Some(imageUrl) && Jobs.IsActive(o.created.value)) &&
      (o.notice.destructive <==> o.created.None?) &&
      (o.request.Some? && o.created.None? ==>
        o.notice.description != "" && (Truthy(reply.error) ==> o.notice.description == reply.error.value))
  {
  }

  /** `handleGenerate` of the uploader: the project name, the fixed settings and a random seed. */
  function GenerateOutcome(uploadedImage: Option<ImageFile>, projectName: string, random: real,
                           reply: ApiResponse<string>, imageUrl: string, now: string): Outcome
    requires 0.0 <= random < 1.0
  {
    Submission(uploadedImage, projectName, Some(FixedSettings(Seed(random))), UploadHint, reply, imageUrl, now)
  }

  /** Every request of the uploader carries guidance 7.5 and 3, 12 and 12 steps, symmetry off and a seed below one million. */
  lemma GenerateOutcomeSettings(uploadedImage: Option<ImageFile>, projectName: string, random: real,
                                reply: ApiResponse<string>, imageUrl: string, now: string)
    requires 0.0 <= random < 1.0
    ensures var o := GenerateOutcome(uploadedImage, projectName, random, reply, imageUrl, now);
      o.request.Some? ==>
        exists seed :: 0 <= seed < SeedRange &&
          o.request.value.settings == Some(RequestSettings(Some(seed), Some(7.5), Some(12), Some(3.0), Some(12), Some("off")))
  {
    var seed := Seed(random);
    assert 0 <= seed < SeedRange;
  }

  class ImageUploader {
    var isGenerating: bool

    constructor()
      ensures !isGenerating
    {
      isGenerating := false;
    }

    /**
     * `handleGenerate`. `busy` is `isGenerating` while the request is out.
     * With no image the method returns before touching the flag; otherwise
     * the flag is set for the request and cleared on every path.
     */
    method HandleGenerate(uploadedImage: Option<ImageFile>, projectName: string, random: real,
                          reply: ApiResponse<string>, imageUrl: string, now: string)
      returns (o: Outcome, busy: bool)
      requires 0.0 <= random < 1.0
      modifies this
      ensures o == GenerateOutcome(uploadedImage, projectName, random, reply, imageUrl, now)
      ensures uploadedImage.None? ==> isGenerating == old(isGenerating) && !busy
      ensures uploadedImage.Some? ==> busy && !isGenerating
    {
      busy := false;
      if uploadedImage.None? {
        o := Outcome(None, None, Notice(NoImageTitle, UploadHint, true));
        return;
      }
      isGenerating := true;
      var file := uploadedImage.value;
      var request := GenerateRequest(file, Some(JobName(projectName, file)), Some(FixedSettings(Seed(random))));
      busy := isGenerating;
      if reply.success && reply.data.Some? {
        var job := NewJob(reply.data.value, JobName(projectName, file), imageUrl, now);
        o := Outcome(Some(request), Some(job), Notice(StartedTitle, StartedDescription, false));
      } else {
        var message := OrElse(reply.error, StartFallback);
        o := Outcome(Some(request), None, Notice(FailedTitle, OrElse(Some(message), FailedFallback), true));
      }
      isGenerating := false;
    }
  }
}
