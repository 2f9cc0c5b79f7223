// Upload validation and the host-facing file helpers
// (src/services/fileManager.ts).
//
// The host (the desktop shell's dialogs and downloads) is a parameter: `None`
// stands for the browser, where the desktop API is missing, and `Some(r)`
// for the host's answer `r`.

module Files {
  import opened Types
  import Text

  const MaxFileSize: nat := 50 * 1024 * 1024
  const SupportedFormats: seq<string> := [".jpg", ".jpeg", ".png", ".gif", ".bmp", ".webp"]
  const TooLargeMessage := "File size too large. Maximum size is 50MB"
  const UnsupportedMessage := "Unsupported file format. Supported formats: .jpg, .jpeg, .png, .gif, .bmp, .webp"
  const NoFileMessage := "No file selected"
  const NoDirectoryMessage := "No directory selected"
  const WebDirectoryMessage := "Directory selection not available in web mode"
  const DownloadFailedMessage := "Download failed"
  /** The name a path without a last segment gets. */
  const FallbackImageName := "image.jpg"
  /** `createFileFromPath` builds its file from the text 'mock file content'. */
  const MockContentSize: nat := 17

  datatype UploadResult = UploadResult(success: bool, file: Option<ImageFile>, error: Option<string>)

  /** An answer of the host's open dialog. */
  datatype DialogResult = DialogResult(canceled: bool, filePaths: seq<string>)

  /** `'.' + name.split('.').pop().toLowerCase()`. */
  function Extension(name: string): string {
    "." + Text.ToLower(Text.AfterLast(name, '.'))
  }

  /** `validateImageFile`: the size is checked first, then the extension. */
  function ValidateImageFile(file: ImageFile): UploadResult {
    if file.size > MaxFileSize then UploadResult(false, None, Some(TooLargeMessage))
    else if Extension(file.name) !in SupportedFormats then UploadResult(false, None, Some(UnsupportedMessage))
    else UploadResult(true, Some(file), None)
  }

  /**
   * A file is accepted exactly when it is at most 50 MiB and its extension is
   * one of the six; an accepted file is handed back as it is, and an oversize
   * file reports the size whatever its extension.
   */
  lemma ValidateImageFileAccepts(file: ImageFile)
    ensures ValidateImageFile(file).success <==> file.size <= MaxFileSize && Extension(file.name) in SupportedFormats
    ensures ValidateImageFile(file).success ==> ValidateImageFile(file).file == Some(file)
    ensures !ValidateImageFile(file).success ==> ValidateImageFile(file).file.None?
    ensures file.size > MaxFileSize ==> ValidateImageFile(file).error == Some(TooLargeMessage)
    ensures file.size <= MaxFileSize && Extension(file.name) !in SupportedFormats ==>
      ValidateImageFile(file).error == Some(UnsupportedMessage)
  {
  }

  /** The extension is the lower-cased text after the last '.', and a name without '.' is tested whole. */
  lemma ExtensionShape(name: string)
    ensures Extension(name) == "." + Text.ToLower(name[|name| - |Text.AfterLast(name, '.')|..])
    ensures '.' !in name ==> Extension(name) == "." + Text.ToLower(name)
    ensures '.' !in Extension(name)[1..]
  {
    var after := Text.AfterLast(name, '.');
    var lowered := Text.ToLower(after);
    assert Extension(name)[1..] == lowered;
    forall i | 0 <= i < |lowered| ensures lowered[i] != '.' {
      assert after[i] in after;
    }
  }

  lemma ValidateImageFileExamples()
    ensures ValidateImageFile(ImageFile("photo.png", MaxFileSize)).success
    ensures !ValidateImageFile(ImageFile("photo.png", MaxFileSize + 1)).success
    ensures ValidateImageFile(ImageFile("scan.tiff", MaxFileSize + 1)).error == Some(TooLargeMessage)
    ensures ValidateImageFile(ImageFile("png", 10)).success
  {
    assert Text.AfterLast("photo.png", '.') == "png" by {
      assert Text.LastIndexOf("photo.png", '.') == 5 by {
        assert "photo.png"[5] == '.' && "photo.png"[6..] == "png" && '.' !in "png";
      }
    }
    assert Text.ToLower("png") == "png";
    assert Extension("photo.png") == ".png" == SupportedFormats[2];
    assert '.' !in "png";
    assert Text.AfterLast("png", '.') == "png";
    assert Extension("png") == ".png";
  }

  /** `createFileFromPath`'s name: the last '/'-segment of the path, or 'image.jpg' when that is empty. */
  function NameFromPath(path: string): (name: string)
    ensures (name != "" && '/' !in name) || name == FallbackImageName
    ensures Text.AfterLast(path, '/') != "" ==> name == Text.AfterLast(path, '/') && name == path[|path| - |name|..]
    ensures Text.AfterLast(path, '/') == "" ==> name == FallbackImageName
  {
    var last := Text.AfterLast(path, '/');
    if last == "" then FallbackImageName else last
  }

  lemma NameFromPathExamples()
    ensures NameFromPath("/home/me/cat.png") == "cat.png"
    ensures NameFromPath("/home/me/") == FallbackImageName
  {
    var p := "/home/me/cat.png";
    assert p[8] == '/' && p[9..] == "cat.png" && '/' !in "cat.png";
    assert Text.LastIndexOf(p, '/') == 8;
    var q := "/home/me/";
    assert Text.LastIndexOf(q, '/') == 8;
  }

  /** `createFileFromPath`: a stand-in file named after the path. */
  function FileFromPath(path: string): ImageFile {
    ImageFile(NameFromPath(path), MockContentSize)
  }

  /**
   * `selectImageFile`. In the browser the chosen file (if any) is
   * `webChoice`; on the desktop the host's dialog answers.
   */
  function SelectImageFile(host: Option<DialogResult>, webChoice: Option<ImageFile>): UploadResult {
    match host
    case None =>
      if webChoice.Some? then ValidateImageFile(webChoice.value) else UploadResult(false, None, Some(NoFileMessage))
    case Some(d) =>
      if d.canceled || |d.filePaths| == 0 then UploadResult(false, None, Some(NoFileMessage))
      else ValidateImageFile(FileFromPath(d.filePaths[0]))
  }

  /**
   * A canceled or empty dialog, or no file picked in the browser, reports
   * 'No file selected'. On the desktop only the first chosen path matters,
   * and only its extension can reject it (the stand-in file is tiny); in
   * the browser the picked file is validated as it is.
   */
  lemma SelectImageFileSpec(host: Option<DialogResult>, webChoice: Option<ImageFile>)
    ensures (host.Some? && (host.value.canceled || |host.value.filePaths| == 0)) || (host.None? && webChoice.None?) ==>
      SelectImageFile(host, webChoice) == UploadResult(false, None, Some(NoFileMessage))
    ensures host.Some? && !host.value.canceled && |host.value.filePaths| > 0 ==>
      (SelectImageFile(host, webChoice).success <==> Extension(NameFromPath(host.value.filePaths[0])) in SupportedFormats) &&
      (SelectImageFile(host, webChoice).success ==>
        SelectImageFile(host, webChoice).file == Some(FileFromPath(host.value.filePaths[0])))
    ensures host.None? && webChoice.Some? ==> SelectImageFile(host, webChoice) == ValidateImageFile(webChoice.value)
  {
  }

  datatype DirectoryResult = DirectoryResult(success: bool, path: Option<string>, error: Option<string>)

  /** `selectSaveDirectory`. */
  function SelectSaveDirectory(host: Option<DialogResult>): (r: DirectoryResult)
    ensures r.success <==> host.Some? && !host.value.canceled && |host.value.filePaths| > 0
    ensures r.success ==> r.path == Some(host.value.filePaths[0]) && r.error.None?
    ensures !r.success ==> r.path.None? && r.error.Some?
  {
    match host
    case None => DirectoryResult(false, None, Some(WebDirectoryMessage))
    case Some(d) =>
      if d.canceled || |d.filePaths| == 0 then DirectoryResult(false, None, Some(NoDirectoryMessage))
      else DirectoryResult(true, Some(d.filePaths[0]), None)
  }

  function FormatUpper(f: Format): string {
    match f
    case Glb => "GLB"
    case Ply => "PLY"
    case Mp4 => "MP4"
  }

  /** `${job.name}.${format}`. */
  function DownloadFilename(job: Job, f: Format): string {
    job.name + "." + FormatName(f)
  }

  /** What the host answers to a download request. */
  datatype HostDownload = HostDownload(success: bool, error: Option<string>)

  /** The download that is started: its URL and the file name offered. */
  datatype DownloadRequest = DownloadRequest(url: string, filename: string)

  datatype DownloadResult = DownloadResult(success: bool, error: Option<string>, started: Option<DownloadRequest>)

  /**
   * `downloadModel`. `host` is `None` in the browser (a link is clicked,
   * which always reports success) and the desktop host's answer otherwise.
   */
  function DownloadModel(job: Job, f: Format, host: Option<HostDownload>): DownloadResult {
    if !HasDownload(job.downloads, f) then
      DownloadResult(false, Some(FormatUpper(f) + " download not available"), None)
    else
      var request := DownloadRequest(DownloadUrl(job.downloads.value, f).value, DownloadFilename(job, f));
      match host
      case None => DownloadResult(true, None, Some(request))
      case Some(answer) =>
        if answer.success then DownloadResult(true, None, Some(request))
        else DownloadResult(false, Some(OrElse(answer.error, DownloadFailedMessage)), Some(request))
  }

  /**
   * A job without a link for the format fails before anything is asked of
   * the host; otherwise the download asks for that link under the name
   * `<job name>.<format>`.
   */
  lemma DownloadModelGuard(job: Job, f: Format, host: Option<HostDownload>)
    ensures !HasDownload(job.downloads, f) ==>
      !DownloadModel(job, f, host).success && DownloadModel(job, f, host).started.None? &&
      DownloadModel(job, f, host).error == Some(FormatUpper(f) + " download not available")
    ensures HasDownload(job.downloads, f) ==>
      DownloadModel(job, f, host).started.Some? &&
      DownloadModel(job, f, host).started.value.url == DownloadUrl(job.downloads.value, f).value &&
      DownloadModel(job, f, host).started.value.filename == job.name + "." + FormatName(f)
    ensures HasDownload(job.downloads, f) ==>
      (DownloadModel(job, f, host).success <==> host.None? || host.value.success)
  {
  }
}
