// The main window (src/App.tsx): the uploaded image and project name, the
// selected job, the job registry it shares with its children, and the
// effects that load and save the history through the desktop host.
//
// The host is a parameter: `None` (or `false`) where the desktop API is
// missing, its answer otherwise. The clipboard, the URL encoding and the
// debounce timer of the save are left out or passed in.

module Shell {
  import opened Types
  import Text
  import Lists
  import Jobs
  import Uploader

  /** The host's answer to `loadHistory()`. */
  datatype HistoryReply = HistoryReply(success: bool, data: seq<Job>)

  /**
   * The project name `handleImageUpload` leaves, as written: `None` where it
   * throws, because with an empty name it reads `name` of the file even
   * when the file is `null` (as `removeImage` passes it).
   */
  function UploadNameAsWritten(projectName: string, file: Option<ImageFile>): Option<string> {
    if projectName != "" then Some(projectName)
    else if file.None? then None
    else Some(Text.StripExtension(file.value.name))
  }

  /** The handler throws exactly when the name is empty and the file is `null`. */
  lemma UploadThrowsOnRemovedImage(projectName: string, file: Option<ImageFile>)
    ensures UploadNameAsWritten(projectName, file).None? <==> projectName == "" && file.None?
    ensures UploadNameAsWritten("", None).None?
  {
  }

  /** The name rule as evidently intended, `if (!projectName && file)`: it never throws. */
  function UploadName(projectName: string, file: Option<ImageFile>): (r: string)
    ensures UploadNameAsWritten(projectName, file).Some? ==> r == UploadNameAsWritten(projectName, file).value
    ensures file.None? ==> r == projectName
    ensures projectName == "" && file.Some? ==> r == Text.StripExtension(file.value.name)
  {
    if projectName == "" && file.Some? then Text.StripExtension(file.value.name) else projectName
  }

  /** `https://modelviewer.dev/editor/?src=<glb>&title=<name>`, both already URL-encoded. */
  function ShareUrl(encodedGlb: string, encodedName: string): string {
    "https://modelviewer.dev/editor/?src=" + encodedGlb + "&title=" + encodedName
  }

  class App {
    var selectedJob: Option<Job>
    var uploadedImage: Option<ImageFile>
    var projectName: string
    const registry: Jobs.JobRegistry
    const uploader: Uploader.ImageUploader

    constructor()
      ensures selectedJob.None? && uploadedImage.None? && projectName == ""
      ensures fresh(registry) && registry.jobs == [] && !registry.isPolling
      ensures fresh(uploader) && !uploader.isGenerating
    {
      selectedJob := None;
      uploadedImage := None;
      projectName := "";
      registry := new Jobs.JobRegistry();
      uploader := new Uploader.ImageUploader();
    }

    /** `handleImageUpload`, with the null check it lacks (see `UploadNameAsWritten`). */
    method HandleImageUpload(file: Option<ImageFile>)
      modifies this
      ensures uploadedImage == file
      ensures projectName == UploadName(old(projectName), file)
      ensures selectedJob == old(selectedJob)
    {
      uploadedImage := file;
      if projectName == "" && file.Some? {
        projectName := Text.StripExtension(file.value.name);
      }
    }

    /** The uploader's `onDrop`: the first accepted file, if any, is uploaded. */
    method DropImage(acceptedFiles: seq<ImageFile>)
      modifies this
      ensures acceptedFiles != [] ==> uploadedImage == Some(acceptedFiles[0]) &&
                                      projectName == UploadName(old(projectName), Some(acceptedFiles[0]))
      ensures acceptedFiles == [] ==> uploadedImage == old(uploadedImage) && projectName == old(projectName)
      ensures selectedJob == old(selectedJob)
    {
      if |acceptedFiles| > 0 {
        HandleImageUpload(Some(acceptedFiles[0]));
      }
    }

    /** The uploader's `removeImage`: the upload handler with `null`, then an empty project name. */
    method RemoveImage()
      modifies this
      ensures uploadedImage.None? && projectName == ""
      ensures selectedJob == old(selectedJob)
    {
      HandleImageUpload(None);
      projectName := "";
    }

    /** `handleJobCreated` is `addJob`. */
    method HandleJobCreated(job: Job)
      modifies registry
      ensures registry.jobs == [job] + old(registry.jobs)
      ensures registry.isPolling == old(registry.isPolling)
    {
      registry.AddJob(job);
    }

    /**
     * A click on the uploader's Generate: its outcome for the current image
     * and name, and the created job, if any, added to the registry.
     */
    method Generate(random: real, reply: ApiResponse<string>, imageUrl: string, now: string)
      returns (o: Uploader.Outcome)
      requires 0.0 <= random < 1.0
      modifies uploader, registry
      ensures o == Uploader.GenerateOutcome(uploadedImage, projectName, random, reply, imageUrl, now)
      ensures o.created.Some? ==> registry.jobs == [o.created.value] + old(registry.jobs)
      ensures o.created.None? ==> registry.jobs == old(registry.jobs)
      ensures (uploadedImage.Some? && reply.success && reply.data.Some?) <==> |registry.jobs| == |old(registry.jobs)| + 1
      ensures registry.isPolling == old(registry.isPolling)
      ensures uploadedImage.None? ==> uploader.isGenerating == old(uploader.isGenerating)
      ensures uploadedImage.Some? ==> !uploader.isGenerating
    {
      var busy;
      o, busy := uploader.HandleGenerate(uploadedImage, projectName, random, reply, imageUrl, now);
      Uploader.SubmissionSpec(uploadedImage, projectName, Some(Uploader.FixedSettings(Uploader.Seed(random))),
                              Uploader.UploadHint, reply, imageUrl, now);
      if o.created.Some? {
        HandleJobCreated(o.created.value);
      }
    }

    /**
     * The history-loading effect, as written: on a successful, non-empty
     * answer each stored job is added in turn, and since `addJob`
     * prepends, the registry receives them in reverse order.
     */
    method LoadHistory(host: Option<HistoryReply>) returns (loaded: bool)
      modifies registry
      ensures loaded <==> host.Some? && host.value.success && |host.value.data| > 0
      ensures loaded ==> registry.jobs == Lists.Reversed(host.value.data) + old(registry.jobs)
      ensures !loaded ==> registry.jobs == old(registry.jobs)
      ensures registry.isPolling == old(registry.isPolling)
    {
      loaded := host.Some? && host.value.success && |host.value.data| > 0;
      if !loaded {
        return;
      }
      var data := host.value.data;
      for i := 0 to |data|
        invariant registry.jobs == Lists.Reversed(data[..i]) + old(registry.jobs)
        invariant registry.isPolling == old(registry.isPolling)
      {
        registry.AddJob(data[i]);
        assert data[..i + 1][..i] == data[..i];
      }
      assert data[..|data|] == data;
    }

    /**
     * The history-loading effect as evidently intended: the stored jobs are
     * added from the last to the first, so the registry holds them in their
     * stored order.
     */
    method LoadHistoryInOrder(host: Option<HistoryReply>) returns (loaded: bool)
      modifies registry
      ensures loaded <==> host.Some? && host.value.success && |host.value.data| > 0
      ensures loaded ==> registry.jobs == host.value.data + old(registry.jobs)
      ensures !loaded ==> registry.jobs == old(registry.jobs)
      ensures registry.isPolling == old(registry.isPolling)
    {
      loaded := host.Some? && host.value.success && |host.value.data| > 0;
      if !loaded {
        return;
      }
      var data := host.value.data;
      var i := |data|;
      while i > 0
        invariant 0 <= i <= |data|
        invariant registry.jobs == data[i..] + old(registry.jobs)
        invariant registry.isPolling == old(registry.isPolling)
      {
        i := i - 1;
        registry.AddJob(data[i]);
        assert data[i..] == [data[i]] + data[i + 1..];
      }
    }

    /**
     * The history-saving effect: nothing is written without the host or
     * while the registry is empty (so an empty list never overwrites the
     * stored history); otherwise the registry is written as it stands.
     */
    method SaveHistory(hostPresent: bool) returns (written: Option<seq<Job>>)
      ensures written.Some? <==> hostPresent && registry.jobs != []
      ensures written.Some? ==> written.value == registry.jobs && |written.value| > 0
    {
      if hostPresent && |registry.jobs| > 0 {
        written := Some(registry.jobs);
      } else {
        written := None;
      }
    }

    /**
     * `handlePublish`. Without a selected job that has a GLB link nothing
     * is copied and an error is shown; otherwise the share link is copied,
     * and `clipboardAccepts` says whether the clipboard took it.
     */
    method HandlePublish(encode: string -> string, clipboardAccepts: bool) returns (copied: Option<string>, notice: Notice)
      ensures copied.Some? <==> selectedJob.Some? && HasDownload(selectedJob.value.downloads, Glb)
      ensures copied.Some? ==>
        copied.value == ShareUrl(encode(selectedJob.value.downloads.value.glb.value), encode(selectedJob.value.name))
      ensures notice.destructive <==> copied.None? || !clipboardAccepts
    {
      if selectedJob.None? || !HasDownload(selectedJob.value.downloads, Glb) {
        copied := None;
        notice := Notice("No Model to Publish", "Please generate a 3D model first.", true);
        return;
      }
      var job := selectedJob.value;
      var url := ShareUrl(encode(job.downloads.value.glb.value), encode(job.name));
      copied := Some(url);
      if clipboardAccepts {
        notice := Notice("Model Published!", "Shareable link copied to clipboard. Anyone can view your 3D model now.", false);
      } else {
        notice := Notice("Publish Failed", "Failed to publish the model. Please try again.", true);
      }
    }
  }

  /**
   * A stored history `[a, b]` comes back as `[b, a]`: what the next save
   * writes is the reversal of what was loaded, so the stored order flips on
   * every start; loading in order writes back what was stored.
   */
  method HistoryReloadScenario(a: Job, b: Job)
    requires a != b
  {
    var app := new App();
    var loaded := app.LoadHistory(Some(HistoryReply(true, [a, b])));
    var r := Lists.Reversed([a, b]);
    assert r[0] == b && r[1] == a;
    assert r == [b, a];
    assert app.registry.jobs == [b, a];
    var written := app.SaveHistory(true);
    assert written == Some([b, a]);
    Lists.ReversedChanges([a, b]);

    var fixed := new App();
    loaded := fixed.LoadHistoryInOrder(Some(HistoryReply(true, [a, b])));
    assert fixed.registry.jobs == [a, b];
    written := fixed.SaveHistory(true);
    assert written == Some([a, b]);
  }

  /** Removing the image with an empty project name: as written the handler throws, corrected it clears the image. */
  method RemoveImageScenario(file: ImageFile)
  {
    var app := new App();
    app.HandleImageUpload(Some(file));
    app.projectName := "";
    UploadThrowsOnRemovedImage("", None);
    assert UploadNameAsWritten(app.projectName, None).None?;
    app.RemoveImage();
    assert app.uploadedImage.None? && app.projectName == "";
  }
}
