# Envision3d job lifecycle, in Dafny

Envision3d is a desktop and browser client that turns a photo into a 3D
model: the user drops an image, names the project and starts a generation;
the generation server answers with a job id; the client keeps a list of
jobs, polls the server every few seconds for the jobs still pending or
processing, merges each snapshot it gets back into its list, stores the
list through the desktop host, and offers the finished model for download
in GLB, PLY or MP4.

This project models that lifecycle and the code around it:

- `types.dfy` (module `Types`): the shared data model — jobs, the status
  strings, download links, the reply envelope of the API, generation
  requests and toast notices — and JavaScript truthiness and `||` on
  optional strings.
- `text.dfy` (`Text`): the string rules the components use — ASCII
  lower-casing, substring search, text after the last separator and the
  extension-stripping regular expression `/\.[^/.]+$/`.
- `lists.dfy` (`Lists`): order-keeping filter and reversal, with
  subsequence and round-trip lemmas.
- `use_jobs.dfy` (`Jobs`): the job registry hook — `addJob`, `updateJob`
  as a shallow merge, `pollJob`, the single poll loop and the effect that
  starts it — as the class `JobRegistry`, with the poll tick as a loop.
- `mock_api.dfy` (`MockBackend`): the in-memory stand-in server — job
  submission, simulated progress capped at 95 %, completion with mock
  download links, listing newest first, deletion — as the class
  `MockApiService` over a map and an insertion order.
- `api.dfy` (`Api`): the HTTP client — the form it posts, how it picks
  the job id out of the reply, the defaults it fills into a status
  snapshot and the error message of a failed call — with the server's
  reply as a parameter.
- `file_manager.dfy` (`Files`): image validation by extension and size,
  file and directory choice through the host or the browser, and the
  download request for one format of a finished job.
- `use_settings.dfy` (`SettingsHook`): the settings hook — defaults,
  loading a stored partial object over them, and updates as shallow
  merges that are written back — as the class `SettingsStore`.
- `image_uploader.dfy` (`Uploader`) and `upload_panel.dfy` (`Upload`):
  what one click on Generate sends and creates, in the two components
  that offer it.
- `app.dfy` (`Shell`): the main window — image upload and project name,
  job creation, loading and saving the history through the host, and
  publishing a share link.
- `history_panel.dfy` (`History`) and `files_panel.dfy` (`FileList`): the
  search, status filter, counts and per-job actions of the two list views.

The model follows the code; in particular:

- `updateJob` merges every snapshot, also into a job that is already
  completed or failed; nothing keeps a terminal job terminal
  (`Jobs.NoTerminalGuard`).
- A status value other than the four known ones is passed through by the
  API client and overwrites the job's status, and `pollJob` answers
  "continue" for it (`Jobs.UnknownStatusDropsJob`). The interval that is
  running filters the job list it captured when it started, so it goes
  on polling that job for as long as some poll answers "continue"; an
  interval started later no longer counts the job as active and skips
  it. In the model each tick reads the current list, so the job is
  skipped from the next tick on.
- `addJob` neither rejects nor replaces a job whose id is already listed.
- `useJobs` offers no delete (src/hooks/useJobs.ts:96-101 returns only the
  list, `addJob`, `updateJob` and the polling flag); the History panel's
  delete button calls an `onDeleteJob` callback
  (src/components/HistoryPanel.tsx:162) that no component supplies, so no
  job ever leaves the registry, and `JobRegistry` has no delete either.
- The client stamps no `completedAt` and does not force progress to 100
  on completion; it keeps whatever the server reports.

Inputs from outside the program are parameters: the server's replies, the
host's answers (`None` where the desktop API is missing), `Math.random()`,
the current time, object URLs, the URL encoder and whether the clipboard
accepted a write.

## Model

| member | source | states |
|---|---|---|
| Types.ParseStatus | src/services/api.ts:58 | any status string received is kept: the parsed status is well-formed and its name is the string received |
| Types.ParseStatusName | src/types/index.ts:4 | parsing the name of a well-formed status gives that status back |
| Text.ToLowerIdempotent | src/components/HistoryPanel.tsx:34 | lower-casing twice is lower-casing once |
| Text.AfterLast | src/services/fileManager.ts:212 | the text after the last separator holds no separator, ends the input, and is the whole input or preceded by the separator |
| Text.StripExtension | src/components/UploadPanel.tsx:29 | the result of the extension regex is a prefix of the file name |
| Text.ExtensionAtUnique | src/components/UploadPanel.tsx:29 | the regex `\.[^/.]+$` can match at one position at most |
| Text.StripExtensionMatchesRegex | src/components/UploadPanel.tsx:29 | the name loses exactly the suffix the regex matches, and is unchanged when it matches nowhere |
| Text.StripExtensionExamples | src/components/UploadPanel.tsx:29 | "a.tar.gz" becomes "a.tar" and ".png" becomes "" |
| Text.StripExtensionExamplesUnchanged | src/components/UploadPanel.tsx:29 | "noext", "dir.v1/file" and "trailing." are left as they are |
| Text.ContainsEmpty | src/components/FilesPanel.tsx:74 | every string contains the empty search term |
| Lists.Filter | src/components/HistoryPanel.tsx:33-37 | `Array.filter`: an element is kept exactly when it is in the list and passes, every kept element passes, and the result is no longer than the list |
| Lists.FilterCounts | src/components/HistoryPanel.tsx:33-37 | an element that passes is kept as often as the list holds it, any other is dropped |
| Lists.FilterIsSubsequence | src/components/HistoryPanel.tsx:33-37 | the filtered list keeps the order of the list it came from |
| Lists.FilterAll | src/components/FilesPanel.tsx:73-75 | a filter every element passes returns the list unchanged |
| Lists.Reversed | src/App.tsx:34 | prepending each element in turn lays them out last first: position k holds the element k from the end |
| Lists.ReversedTwice | src/App.tsx:34 | reversing twice gives the list back |
| Lists.ReversedChanges | src/App.tsx:34 | a list whose first and last elements differ is changed by reversal |
| Jobs.MergeSnapshot | src/hooks/useJobs.ts:26 | merging a status snapshot makes the job the snapshot, keeping only its own image and settings; a link or completion time the snapshot lacks is erased |
| Jobs.MergeIdempotent | src/hooks/useJobs.ts:17 | applying the same patch twice is applying it once |
| Jobs.NoTerminalGuard | src/hooks/useJobs.ts:16-18 | a patch with a status overwrites the status of a completed or failed job as of any other: the merge has no terminal guard |
| Jobs.UpdateJobs | src/hooks/useJobs.ts:15-19 | the list keeps its length and order; jobs with the id are merged with the patch, the others are unchanged |
| Jobs.Merge | src/hooks/useJobs.ts:17 | `{ ...job, ...updates }`; its laws are `Jobs.MergeSnapshot`, `Jobs.MergeIdempotent` and `Jobs.NoTerminalGuard` |
| Jobs.UpdateAbsentIsNoOp | src/hooks/useJobs.ts:15-19 | an update for an id no job carries changes nothing |
| Jobs.UpdatesCommute | src/hooks/useJobs.ts:70-71 | updates of two different ids that keep ids give the same list in either order |
| Jobs.ActiveJobs | src/hooks/useJobs.ts:60-62 | a job is active exactly when it is in the list and its status reads pending or processing; as a `Lists.Filter` it keeps list order and multiplicity (`Lists.FilterIsSubsequence`, `Lists.FilterCounts`) |
| Jobs.PolledIffActive | src/hooks/useJobs.ts:60-70 | one tick asks about an id exactly when some active job carries it |
| Jobs.ApplyPollsFrame | src/hooks/useJobs.ts:70-71 | applying a tick's results leaves the jobs whose ids were not polled unchanged |
| Jobs.PollOutcome | src/hooks/useJobs.ts:24-51 | the answer of `pollJob`: "continue" only for a successful reply whose status string is neither completed nor failed; see `Jobs.ContinueMeansNotTerminal` and `Jobs.UnknownStatusDropsJob` |
| Jobs.ApplyPoll | src/hooks/useJobs.ts:22-26 | one reply's effect on the list: a successful snapshot merged into the jobs with that id; see `Jobs.JobRegistry.PollJob` |
| Jobs.ApplyPolls | src/hooks/useJobs.ts:70-71 | a tick's replies applied in turn; its frame and failure laws are `Jobs.ApplyPollsFrame` and `Jobs.FailedPollsChangeNothing` |
| Jobs.FailedPollsChangeNothing | src/hooks/useJobs.ts:42-49 | when every status request of a tick failed, the job list is unchanged |
| Jobs.UnknownStatusDropsJob | src/hooks/useJobs.ts:28-51 | a reply with an unrecognised status answers "continue", yet the merged job is no longer active, so a tick that filters the current list skips it |
| Jobs.ContinueMeansNotTerminal | src/hooks/useJobs.ts:28-51 | a reply that answers "continue" leaves the merged job neither completed nor failed |
| Jobs.JobRegistry.constructor | src/hooks/useJobs.ts:7-8 | the registry starts empty and not polling |
| Jobs.JobRegistry.AddJob | src/hooks/useJobs.ts:11-13 | the job is put in front of the list, the rest unchanged |
| Jobs.JobRegistry.UpdateJob | src/hooks/useJobs.ts:15-19 | the list becomes the merged list of `UpdateJobs` |
| Jobs.JobRegistry.PollJob | src/hooks/useJobs.ts:21-52 | a successful reply's snapshot is merged into the jobs with that id; the answer is "stop" for a failed request or a completed or failed status, "continue" otherwise |
| Jobs.JobRegistry.StartPolling | src/hooks/useJobs.ts:54-57 | a start while polling does nothing and reports so; otherwise polling is switched on; the jobs are untouched |
| Jobs.JobRegistry.SyncPolling | src/hooks/useJobs.ts:86-94 | polling is started exactly when an active job exists and it was off |
| Jobs.JobRegistry.Tick | src/hooks/useJobs.ts:59-78 | one interval run: with no active job polling stops; otherwise each active job's result is applied, and polling stops exactly when no result asks to continue |
| MockBackend.NextProgress | src/services/mockApi.ts:141 | `Math.min(progress + increment, 95)`: the new progress is at most the cap and at most the old progress plus the increment, and equals one of the two; it never falls below a progress within the cap |
| MockBackend.SubmittedName | src/services/mockApi.ts:25-33 | a submitted job takes the request's name when it is not empty, else the image name without its extension |
| MockBackend.StartedIsWellFormed | src/services/mockApi.ts:25-38 | the job stored by a submission carries its id and is well-formed: processing below 90 with no completion time and no links |
| MockBackend.AdvanceKeepsShape | src/services/mockApi.ts:134-148 | a timer step keeps a processing job well-formed, its id and its progress from falling; it completes the job exactly when progress plus increment reaches 90, and otherwise adds the whole increment |
| MockBackend.Advance | src/services/mockApi.ts:134-148 | one firing of the progress timer; its properties are `MockBackend.AdvanceKeepsShape` |
| MockBackend.DownloadsIffCompleted | src/services/mockApi.ts:151-165 | a stored job has download links exactly when it is completed |
| MockBackend.Complete | src/services/mockApi.ts:151-165 | `completeJob` on a stored job; see `MockBackend.MockApiService.CompleteJob` and `MockBackend.DownloadsIffCompleted` |
| MockBackend.Without | src/services/mockApi.ts:104 | the insertion order loses exactly the deleted id, and distinct keys stay distinct |
| MockBackend.ValuesInOrder | src/services/mockApi.ts:79 | `Object.values` of the jobs: one job per stored id, in insertion order |
| MockBackend.InsertNewest | src/services/mockApi.ts:79-81 | insertion gives the old elements plus the new one, as a multiset, one longer |
| MockBackend.InsertKeepsNewestFirst | src/services/mockApi.ts:79-81 | insertion keeps a list sorted newest first |
| MockBackend.SortNewest | src/services/mockApi.ts:79-81 | the listing is a permutation of the jobs, sorted by creation time, newest first |
| MockBackend.MockApiService.constructor | src/services/mockApi.ts:8-10 | the mock server starts with no jobs and the given base URL, `http://localhost:8000` when none is given |
| MockBackend.MockApiService.SetBaseUrl | src/services/mockApi.ts:12-14 | only the base URL changes |
| MockBackend.MockApiService.GenerateModel | src/services/mockApi.ts:17-50 | the submitted job is stored under its id already processing (replacing a job with that id), the id enters the insertion order once, the store stays well-formed, and the reply is the id |
| MockBackend.MockApiService.SimulateProcessing | src/services/mockApi.ts:125-131 | a stored job becomes processing at progress 0; an unknown id changes nothing |
| MockBackend.MockApiService.GetJobStatus | src/services/mockApi.ts:52-74 | a stored id is answered with its job, an unknown one with the "Job not found" error |
| MockBackend.MockApiService.ReportedStatus | src/services/mockApi.ts:125-165 | a reported job carries the id asked about, is processing or completed (never pending), and has links exactly when completed |
| MockBackend.MockApiService.GetAllJobs | src/services/mockApi.ts:76-93 | succeeds with every stored job and nothing else, a permutation of the store's values, newest first |
| MockBackend.MockApiService.DeleteJob | src/services/mockApi.ts:95-115 | the id leaves the store and the insertion order, the store stays well-formed, and the reply is success whether or not the id was stored |
| MockBackend.MockApiService.ProcessingTick | src/services/mockApi.ts:134-148 | a processing job advances one step and the timer goes on exactly while the job is still processing; a missing or finished job stops the timer and changes nothing |
| MockBackend.MockApiService.CompleteJob | src/services/mockApi.ts:151-165 | a stored job becomes completed at 100 with the three mock links and its image as thumbnail; an unknown id changes nothing |
| Api.ErrorMessage | src/services/api.ts:74-78 | the error text is the server's message when not empty, else the request error's message when not empty, else the fallback |
| Api.ChooseJobIdPrefersSnakeCase | src/services/api.ts:35-38 | the id is `job_id` when it is not empty and `jobId` otherwise, and any reply counts as success |
| Api.ChooseJobId | src/services/api.ts:37 | `job_id`, or `jobId` when that is empty; see `Api.ChooseJobIdPrefersSnakeCase` |
| Api.GenerateResult | src/services/api.ts:35-44 | the `ApiResponse` of `generateModel` for a reply or a thrown error; see `Api.ChooseJobIdPrefersSnakeCase` and `Api.ThrownIsFailure` |
| Api.FormFields | src/services/api.ts:17-22 | the form carries the image first, the name only when given and the settings as JSON only when given, and no other field |
| Api.SnapshotDefaults | src/services/api.ts:55-59 | a snapshot carries the id asked about; a given name, status string, progress and creation time are kept, and when missing become `Job <id>`, pending, 0 and the current time; the completion time and thumbnail are copied; image and settings are absent |
| Api.StatusSnapshot | src/services/api.ts:54-68 | the job built from a status body; its defaults and copies are `Api.SnapshotDefaults`, `Api.UnknownStatusPassesThrough` and `Api.SnapshotDownloads` |
| Api.StatusResult | src/services/api.ts:47-80 | the `ApiResponse` of `getJobStatus` for a reply or a thrown error; see `Api.ThrownIsFailure` |
| Api.UnknownStatusPassesThrough | src/services/api.ts:58 | an unrecognised status string is handed on unchanged |
| Api.SnapshotDownloads | src/services/api.ts:62-66 | the snapshot has download links exactly when the reply carries them |
| Api.ThrownIsFailure | src/services/api.ts:39-44 | a failed call yields `success: false` with the error message and no data |
| Api.ApiService.constructor | src/services/api.ts:7-9 | the client starts with the given base URL, `http://localhost:8000` when none is given |
| Api.ApiService.SetBaseUrl | src/services/api.ts:11-13 | the base URL becomes the given one |
| Api.ApiService.GenerateModel | src/services/api.ts:15-45 | the form is posted to `<base>/generate`; a reply gives its job id, a thrown error the error message |
| Api.ApiService.GetJobStatus | src/services/api.ts:47-80 | `<base>/jobs/<id>` is asked; a reply becomes the status snapshot, a thrown error the error message |
| Files.ValidateImageFileAccepts | src/services/fileManager.ts:202-224 | a file is accepted, unchanged, exactly when it is at most 50 MiB and its extension is one of the six; an oversize file reports the size first, whatever its extension |
| Files.ValidateImageFile | src/services/fileManager.ts:202-224 | `validateImageFile`; its behaviour is stated by `Files.ValidateImageFileAccepts` |
| Files.ExtensionShape | src/services/fileManager.ts:212 | the extension is a dot and the lower-cased text after the last dot, holds no further dot, and a name without a dot is tested whole |
| Files.ValidateImageFileExamples | src/services/fileManager.ts:204-213 | "photo.png" passes at exactly 50 MiB and fails one byte above, an oversize "scan.tiff" reports the size, and a dotless "png" passes as `.png` |
| Files.NameFromPath | src/services/fileManager.ts:197 | the file name is the non-empty text after the last slash, which ends the path, or `image.jpg` when there is none |
| Files.NameFromPathExamples | src/services/fileManager.ts:197 | "/home/me/cat.png" names "cat.png" and "/home/me/" falls back to `image.jpg` |
| Files.FileFromPath | src/services/fileManager.ts:194-200 | `createFileFromPath`: a 17-byte stand-in file named by `Files.NameFromPath` |
| Files.SelectImageFileSpec | src/services/fileManager.ts:19-42 | a cancelled or empty choice gives "No file selected"; on the desktop success is decided by the extension of the first path's name; in the browser the chosen file is validated |
| Files.SelectImageFile | src/services/fileManager.ts:19-42 | `selectImageFile` on the host's dialog answer or the browser's choice; stated by `Files.SelectImageFileSpec` |
| Files.SelectSaveDirectory | src/services/fileManager.ts:44-66 | the first chosen directory is returned exactly when the host is present and the dialog was neither cancelled nor empty; otherwise an error and no path |
| Files.DownloadModelGuard | src/services/fileManager.ts:96-128 | without a link for the format nothing starts and the error names the format; otherwise that link is fetched as `<job name>.<format>`, and the result succeeds in the browser or when the host reports success |
| Files.DownloadModel | src/services/fileManager.ts:96-128 | `downloadModel`; stated by `Files.DownloadModelGuard` |
| SettingsHook.MergeChangesOnlyNamedFields | src/hooks/useSettings.ts:28 | an update changes exactly the fields it names |
| SettingsHook.Merge | src/hooks/useSettings.ts:28 | `{ ...settings, ...updates }`; its laws are `SettingsHook.MergeChangesOnlyNamedFields`, `SettingsHook.MergeIdempotent`, `SettingsHook.MergeSequence` and `SettingsHook.MergeFull` |
| SettingsHook.MergeIdempotent | src/hooks/useSettings.ts:28 | applying the same update twice is applying it once |
| SettingsHook.MergeSequence | src/hooks/useSettings.ts:27-31 | two updates in a row equal one update with the later values winning |
| SettingsHook.MergeFull | src/hooks/useSettings.ts:20 | merging a complete settings object gives that object |
| SettingsHook.LoadedOverridesDefaults | src/hooks/useSettings.ts:4-20 | loading starts from the defaults, not the current settings: stored keys override them, absent keys keep the default, an empty object gives the defaults |
| SettingsHook.Loaded | src/hooks/useSettings.ts:15-25 | the settings the mount effect leaves; stated by `SettingsHook.LoadedOverridesDefaults`, `SettingsHook.LoadedFallsBack` and `SettingsHook.PersistedRoundTrip` |
| SettingsHook.LoadedFallsBack | src/hooks/useSettings.ts:15-25 | nothing stored, empty text, or text that does not parse leaves the settings as they were |
| SettingsHook.PersistedRoundTrip | src/hooks/useSettings.ts:15-30 | a stored object that parses back to all the keys of some settings loads as exactly those settings |
| SettingsHook.SettingsStore.constructor | src/hooks/useSettings.ts:13-25 | the hook starts from the defaults and the mount effect's result: the stored object over the defaults, or the defaults |
| SettingsHook.SettingsStore.UpdateSettings | src/hooks/useSettings.ts:27-31 | the settings become the merge of the update, and exactly those settings are stored |
| Uploader.JobNameSpec | src/components/ImageUploader.tsx:61 | a typed name wins; otherwise the file name loses exactly the suffix the regex matches |
| Uploader.JobName | src/components/ImageUploader.tsx:61 | the project name, or the file name without its extension when that is empty; stated by `Uploader.JobNameSpec` |
| Uploader.Seed | src/components/ImageUploader.tsx:63 | the seed lies in [0, 1000000) |
| Uploader.SubmissionSpec | src/components/ImageUploader.tsx:46-100 | a request is sent exactly with an image, a job is created exactly when the reply succeeded with an id; the job is pending at 0 under the submitted name; a failure notice always has a message |
| Uploader.NewJob | src/components/ImageUploader.tsx:73-80 | the job handed on after a successful submission; its fields are stated by `Uploader.SubmissionSpec` |
| Uploader.Submission | src/components/ImageUploader.tsx:46-100 | what one click on Generate sends, creates and announces; stated by `Uploader.SubmissionSpec` |
| Uploader.GenerateOutcomeSettings | src/components/ImageUploader.tsx:62-69 | every request carries guidance 7.5 and 3.0, 12 and 12 steps, symmetry off, and a seed in [0, 1000000) |
| Uploader.GenerateOutcome | src/components/ImageUploader.tsx:46-100 | the uploader's submission with the fixed settings and a random seed; see `Uploader.GenerateOutcomeSettings` and `Uploader.ImageUploader.HandleGenerate` |
| Uploader.ImageUploader.constructor | src/components/ImageUploader.tsx:28 | the uploader starts not generating |
| Uploader.ImageUploader.HandleGenerate | src/components/ImageUploader.tsx:46-100 | the outcome is the submission rule; without an image the flag is untouched, otherwise it is set while the request is out and cleared after |
| Upload.PanelOutcomeSpec | src/components/UploadPanel.tsx:42-92 | the panel sends no settings, sends a request exactly with a file, creates a job exactly on a successful reply with an id |
| Upload.PanelOutcome | src/components/UploadPanel.tsx:42-92 | the panel's submission, without settings; stated by `Upload.PanelOutcomeSpec` |
| Upload.UploadPanel.constructor | src/components/UploadPanel.tsx:19-21 | the panel starts with no file, an empty name and not generating |
| Upload.UploadPanel.OnDrop | src/components/UploadPanel.tsx:24-32 | the first dropped file is selected and names an empty form, extension stripped; a typed name is kept |
| Upload.UploadPanel.HandleGenerate | src/components/UploadPanel.tsx:42-92 | the outcome is the panel's submission; the form is cleared exactly when a job was created; the busy flag is set while a request is out and cleared after |
| Shell.UploadThrowsOnRemovedImage | src/App.tsx:58-63 | the upload handler as written fails exactly when the project name is empty and the file is `null` |
| Shell.UploadNameAsWritten | src/App.tsx:58-63 | the name `handleImageUpload` leaves as written, `None` where it throws; stated by `Shell.UploadThrowsOnRemovedImage` |
| Shell.UploadName | src/App.tsx:58-63 | the corrected name rule agrees with the written one wherever that does not throw, and keeps the name for a removed file |
| Shell.App.constructor | src/App.tsx:15-19 | no selected job, no image, an empty name, an empty registry not polling |
| Shell.App.HandleImageUpload | src/App.tsx:58-63 | the image is stored and names an empty project, extension stripped; a `null` image leaves the name |
| Shell.App.DropImage | src/components/ImageUploader.tsx:31-36 | the first dropped file, if any, is uploaded |
| Shell.App.RemoveImage | src/components/ImageUploader.tsx:102-105 | the image is cleared and the project name emptied |
| Shell.App.HandleJobCreated | src/App.tsx:54-56 | the created job is put in front of the registry |
| Shell.App.Generate | src/components/ImageUploader.tsx:72-82 | the uploader's outcome, and the registry grows by the created job exactly when the reply succeeded with an id; the polling flag is left to the effect, and the busy flag ends cleared after a request |
| Shell.App.LoadHistory | src/App.tsx:29-40 | as written: a successful non-empty load prepends the stored jobs reversed; anything else changes nothing |
| Shell.App.LoadHistoryInOrder | src/App.tsx:29-40 | corrected: a successful non-empty load prepends the stored jobs in their stored order |
| Shell.App.SaveHistory | src/App.tsx:43-52 | the registry is written exactly when the host is present and the registry is not empty |
| Shell.App.HandlePublish | src/App.tsx:65-96 | a link is made exactly for a selected job with a GLB link, from the encoded link and name; the notice is an error exactly when no link was made or the clipboard refused it |
| Shell.ShareUrl | src/App.tsx:80 | the model-viewer share link; see `Shell.App.HandlePublish` |
| History.FilteredJobsSpec | src/components/HistoryPanel.tsx:33-37 | a job is listed exactly when its lower-cased name contains the lower-cased term and its status passes the filter, as often as the list holds it, in the original order |
| History.FilteredJobs | src/components/HistoryPanel.tsx:33-37 | `filteredJobs`; stated by `History.FilteredJobsSpec`, `History.EmptySearchListsAll` and `History.SearchIgnoresCase` |
| History.EmptySearchListsAll | src/components/HistoryPanel.tsx:33-37 | an empty search with filter 'all' lists every job in order |
| History.SearchIgnoresCase | src/components/HistoryPanel.tsx:34 | the search term's letter case does not change the list |
| History.CompletedCountSpec | src/components/HistoryPanel.tsx:39-40 | the completed count is at most the total, is the length of the 'completed' list, and equals the total exactly when every job is completed |
| History.CompletedCount | src/components/HistoryPanel.tsx:39 | `completedJobs`; stated by `History.CompletedCountSpec` |
| History.DownloadButtons | src/components/HistoryPanel.tsx:169-203 | a format gets a button exactly when the job is completed and has a link for it, each at most once, and only beside View |
| History.ShowsView | src/components/HistoryPanel.tsx:147-157 | the View action appears for completed jobs; `History.DownloadButtons` shows downloads appear only beside it |
| History.DownloadButtonsPassGuard | src/components/HistoryPanel.tsx:169-203 | every button shown starts a download of that format's link |
| FileList.FilteredFilesSpec | src/components/FilesPanel.tsx:73-75 | a file is listed exactly when its lower-cased name contains the lower-cased term, as often as the list holds it, in order; an empty term lists all |
| FileList.FilteredFiles | src/components/FilesPanel.tsx:73-75 | `filteredFiles`; stated by `FileList.FilteredFilesSpec` |
| FileList.WithoutIdSpec | src/components/FilesPanel.tsx:116-118 | deleting removes the files with that id and keeps every other entry, duplicates included, in order; an unknown id changes nothing |
| FileList.WithoutId | src/components/FilesPanel.tsx:116-118 | the list `deleteFile` leaves; stated by `FileList.WithoutIdSpec` |
| FileList.CountsSum | src/components/FilesPanel.tsx:202-218 | the three per-type counts add up to the number of files |
| FileList.CountType | src/components/FilesPanel.tsx:202-218 | the per-type count of the summary cards; see `FileList.CountsSum` and `FileList.FilesPanel.constructor` |
| FileList.TypeColorsDistinct | src/components/FilesPanel.tsx:89-100 | each file type has a badge colour of its own |
| FileList.TypeColor | src/components/FilesPanel.tsx:89-100 | `getFileTypeColor`; see `FileList.TypeColorsDistinct` |
| FileList.FilesPanel.constructor | src/components/FilesPanel.tsx:40-71 | the panel holds the three demonstration files, one of each type |
| FileList.FilesPanel.DeleteFile | src/components/FilesPanel.tsx:116-118 | the files lose the entries with that id |

## Left out

- Timers, `setInterval`, the 3-second period, the 1-second save debounce and `Promise.all` concurrency: a tick is one call, and the results of one tick are applied in list order (`Jobs.UpdatesCommute` shows the order does not matter for distinct ids).
- React's scheduling: stale closures over `jobs`, batching of state updates and StrictMode's double effects are not modelled; each handler sees the state as it stands. In the program the running interval filters the job list captured when `startPolling` ran, so it keeps polling jobs (for instance one with an unknown status) that the current list no longer counts as active.
- Jobs.JobRegistry.Tick: the interval keeps running while any poll asks to continue; the model gives one run and the flag it leaves, not the sequence of runs.
- Text.ToLower: lower-cases ASCII letters only, because `toLowerCase` on non-ASCII text depends on Unicode tables that are not modelled.
- MockBackend.SortNewest: sorts by an integer timestamp passed in, because parsing date strings and `NaN` comparisons are not modelled; the order of jobs with equal timestamps is not stated.
- The separate `new Date()` and `Date.now()` calls inside one operation are taken as one time stamp.
- The mock server returns its stored job objects by reference; that aliasing is not modelled, the model returns values.
- Uploader.Submission: takes the job id as `ApiResponse<string>`, so a reply that carries neither `job_id` nor `jobId` (an `undefined` id) is not modelled.
- `saveJobData`, `exportProject`, `formatFileSize` and `getFileInfo` of the file manager are not modelled; they only forward to the host.
- The toasts `pollJob` shows are not modelled; its answer and its merge are.
- Stored settings with JSON `null` or wrongly typed values: the parser is a parameter that returns a patch of well-typed fields.
- `JSON.stringify` of the settings and the form is not modelled; the form carries the settings object.
- A server reply whose JSON body is `null`: `Api.Reply` always carries a body, so the TypeError that reading `job_id` or `name` of `null` throws, which the client's `catch` turns into `success: false` with that error's message, is not modelled.
- Exceptions thrown inside the host or the mock server (the `catch` branches of the file manager and the mock) are not modelled.
- The accepted MIME types and size limits handed to react-dropzone are not modelled; only the file manager's own validation is.
- The effect of the main window that copies `settings.apiUrl` into the API client is not modelled; `SetBaseUrl` is.
- `handleFileSelect` of the upload panel is not modelled; it forwards to the file manager's `selectImageFile`.
- `refreshFiles`, the loading flag, `openFile` and `openInExplorer` of the files panel are not modelled; they only call the host or a timer.
- The unused `publishId` of `handlePublish` is not computed.
- MockBackend.MockApiService.DeleteJob: does not model `URL.revokeObjectURL` of the deleted job's image, because object URLs are opaque parameters here.
- The upload panel is not mounted by the main window; it is modelled on its own.
- Shell.App.HandleImageUpload: uses the corrected name rule `UploadName`, so it does not fail where the code as written throws (see Findings).

## Findings

| source | as written | input that shows it | evidently intended | confidence | as-written member | corrected member |
|---|---|---|---|---|---|---|
| src/App.tsx:58-63 | `handleImageUpload` reads `file.name` whenever the project name is empty, and `removeImage` (src/components/ImageUploader.tsx:102-105) calls it with `null` | project name "" and the image removed: `setUploadedImage(null)` has already run, then `null.name` throws a TypeError in the click handler, so `onProjectNameChange('')` is skipped; the name is already "", so the state ends as intended and the only effect is the uncaught error | read the file name only when there is a file: `if (!projectName && file)` | not executed | Shell.UploadThrowsOnRemovedImage | Shell.UploadName |
| src/App.tsx:33-35 | each stored job is passed to `addJob`, which prepends, and the save effect writes the registry back as it stands | stored history `[a, b]` with `a != b` loads as `[b, a]` and is saved as `[b, a]`; the stored order flips on every start | load the stored jobs in their stored order | not executed | Shell.App.LoadHistory | Shell.App.LoadHistoryInOrder |
