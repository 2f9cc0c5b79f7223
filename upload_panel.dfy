// The stand-alone upload panel (src/components/UploadPanel.tsx): it keeps
// the chosen file, the job name being typed and a busy flag, fills the name
// from a dropped file, and submits without generation settings. The
// submission itself is the uploader's rule (image_uploader.dfy).

module Upload {
  import opened Types
  import Text
  import Uploader

  const SelectHint := "Please select an image to generate a 3D model."

  /** `handleGenerate` of the panel for the panel's current file and name. */
  function PanelOutcome(selectedFile: Option<ImageFile>, jobName: string, reply: ApiResponse<string>,
                        imageUrl: string, now: string): Uploader.Outcome
  {
    Uploader.Submission(selectedFile, jobName, None, SelectHint, reply, imageUrl, now)
  }

  /**
   * The panel sends no generation settings, and it creates a job only
   * for a file it holds and a reply that succeeded with an id.
   */
  lemma PanelOutcomeSpec(selectedFile: Option<ImageFile>, jobName: string, reply: ApiResponse<string>,
                         imageUrl: string, now: string)
    ensures var o := PanelOutcome(selectedFile, jobName, reply, imageUrl, now);
      (o.request.Some? ==> o.request.value.settings.None?) &&
      (o.request.None? <==> selectedFile.None?) &&
      (o.created.Some? <==> selectedFile.Some? && reply.success && reply.data.Some?) &&
      (selectedFile.None? ==> o.notice == Notice("No image selected", SelectHint, true))
  {
    Uploader.SubmissionSpec(selectedFile, jobName, None, SelectHint, reply, imageUrl, now);
  }

  class UploadPanel {
    var selectedFile: Option<ImageFile>
    var jobName: string
    var isGenerating: bool

    constructor()
      ensures selectedFile.None? && jobName == "" && !isGenerating
    {
      selectedFile := None;
      jobName := "";
      isGenerating := false;
    }

    /**
     * `onDrop`: the first accepted file becomes the selection; the name is
     * filled from it, extension stripped, only while the name is empty.
     */
    method OnDrop(acceptedFiles: seq<ImageFile>)
      modifies this
      ensures acceptedFiles == [] ==> selectedFile == old(selectedFile) && jobName == old(jobName)
      ensures acceptedFiles != [] ==> selectedFile == Some(acceptedFiles[0])
      ensures acceptedFiles != [] && old(jobName) == "" ==> jobName == Text.StripExtension(acceptedFiles[0].name)
      ensures old(jobName) != "" ==> jobName == old(jobName)
      ensures isGenerating == old(isGenerating)
    {
      if |acceptedFiles| > 0 {
        var file := acceptedFiles[0];
        selectedFile := Some(file);
        if jobName == "" {
          jobName := Text.StripExtension(file.name);
        }
      }
    }

    /**
     * `handleGenerate`. The form (file and name) is reset only when a job
     * was created; `busy` is the flag while the request is out, and the
     * flag is cleared on every path that sent one.
     */
    method HandleGenerate(reply: ApiResponse<string>, imageUrl: string, now: string)
      returns (o: Uploader.Outcome, busy: bool)
      modifies this
      ensures o == PanelOutcome(old(selectedFile), old(jobName), reply, imageUrl, now)
      ensures o.created.Some? ==> selectedFile.None? && jobName == ""
      ensures o.created.None? ==> selectedFile == old(selectedFile) && jobName == old(jobName)
      ensures old(selectedFile).None? ==> isGenerating == old(isGenerating) && !busy
      ensures old(selectedFile).Some? ==> busy && !isGenerating
    {
      busy := false;
      if selectedFile.None? {
        o := Uploader.Outcome(None, None, Notice(Uploader.NoImageTitle, SelectHint, true));
        return;
      }
      isGenerating := true;
      var file := selectedFile.value;
      var name := Uploader.JobName(jobName, file);
      var request := GenerateRequest(file, Some(name), None);
      busy := isGenerating;
      if reply.success && reply.data.Some? {
        var job := Uploader.NewJob(reply.data.value, name, imageUrl, now);
        o := Uploader.Outcome(Some(request), Some(job), Notice(Uploader.StartedTitle, Uploader.StartedDescription, false));
        selectedFile := None;
        jobName := "";
      } else {
        var message := OrElse(reply.error, Uploader.StartFallback);
        o := Uploader.Outcome(Some(request), None,
                              Notice(Uploader.FailedTitle, OrElse(Some(message), Uploader.FailedFallback), true));
      }
      isGenerating := false;
    }
  }

  /** A dropped "a.tar.gz" names an empty form "a.tar"; a second drop keeps that name and takes the new file. */
  method DropScenario()
  {
    var panel := new UploadPanel();
    panel.OnDrop([ImageFile("a.tar.gz", 10)]);
    Text.StripExtensionExamples();
    assert panel.jobName == "a.tar";
    panel.OnDrop([ImageFile("noext", 20)]);
    assert panel.jobName == "a.tar" && panel.selectedFile == Some(ImageFile("noext", 20));
  }
}
