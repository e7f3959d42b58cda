# Upload workflow of the AI log analyzer, in Dafny

The log analyzer's web front end lets a user pick a log file, optionally type a
question about it, post both to the analysis service, and read the report it
returns. This project models the controller of that workflow:

- **App** (`frontend/src/App.tsx`) owns four state cells: `file`, `analysis`,
  `isLoading` and `error`. `handleUpload(query)` guards on a selected file, sets
  loading, clears the error, builds a two-part form (`file`, then `query`) and
  awaits the post. It then stores the report, or classifies the failure into one
  of three messages, and always clears loading. `handleReset` drops the file, the
  report and the error. App renders the uploader while there is no report and the
  dashboard once there is one.
- **FileUploader** (`frontend/src/components/FileUploader.tsx`) owns `query` and
  `isDragOver`. Its handlers select the first dropped or browsed file, clear the
  file ("Change file"), edit the question, and start the analysis only with a
  file. Its start button is disabled while loading.

Layout of the model:

- `wrappers.dfy`: `Option`.
- `report.dfy`: the report's data shape (`AnalysisReport`, `Anomaly`, `AnomalyType`).
- `app_logic.dfy`: App's logic as values. It holds the form, the outcome of the
  awaited post, the failure classifier and messages, and the state transitions.
  `handleUpload` is split at its `await` into `BeginUpload` and `CompleteUpload`.
- `app_component.dfy`: class `App`. Its fields are the four cells, and each
  handler is a method proved equal to the matching transition.
- `uploader_logic.dfy`: the uploader's own cells and its file selection, as values.
- `uploader_component.dfy`: class `FileUploader`. Its fields are its cells, and
  its props are the parent `App` object.
- `workflow.dfy`: the whole page, one event at a time. It captures which child
  is mounted, which controls are visible or enabled, how many posts are in
  flight, and which forms were posted. The invariants proved here hold after
  every sequence of events.

The classes and the page model are two renderings of the same handlers. They
share the transition functions of `app_logic.dfy` and `uploader_logic.dfy`:
each class method is proved equal to one of them, and each page event applies
them. No lemma relates a class object to a page value directly.

The post itself is not modelled. Its settling is an event that carries an
abstract `Outcome`:

- `Ok(report)`;
- `Response(detail, statusText)`;
- `NoResponse`;
- `Other`.

### Behaviour as written

The model follows the code, which differs from a tidier design in these ways:

- Replacing the file does not reset the question or clear a shown error.
  `ReplacingFileKeepsQueryAndError` proves this.
- "Change file" is not blocked while a post is in flight. As a result, a report
  can arrive for a file that is no longer selected (`ReportMayOutliveItsFile`).
- `handleUpload` never looks at `isLoading`. Only the disabled start button stops
  a second post; `AtMostOneUploadInFlight` proves that this is enough.
- The question is reset only when the uploader is remounted after
  "Analyze New File" (`ResetReturnsToStart`), because React discards an
  unmounted component's state.
- The "not responding" message is `"Error: The server is not responding. Is the backend running?"`.
  The model builds it as the error prefix `"Error: "` followed by that sentence.

## Model

| member | source | states |
|---|---|---|
| `AppLogic.BuildForm` | frontend/src/App.tsx:27-29 | the form has exactly two parts, `file` then `query`, and reading them back yields the selected file and the query unchanged |
| `AppLogic.DetailOr` | frontend/src/App.tsx:43 | `detail \|\| statusText`: a present, non-empty detail wins; an absent or empty one falls back to the status text |
| `AppLogic.Classify` | frontend/src/App.tsx:42-48 | every failure falls in exactly one category: rejected by the server iff it has a response, unreachable iff it has a request but no response, unknown iff neither |
| `AppLogic.MessageIdentifiesKind` | frontend/src/App.tsx:42-48 | two categories give the same message only if they are equal, or if the server's detail is the "not responding" sentence itself |
| `AppLogic.FailureMessage` | frontend/src/App.tsx:42-48 | the message is "An unknown error occurred." exactly for the failures with neither a response nor a request (errors that are not Axios errors among them), and otherwise starts with "Error: ". For a response, the text after the prefix is the detail or the status text. With no response, it is the "not responding" message |
| `AppLogic.ClassifierExamples` | frontend/src/App.tsx:42-48 | concrete messages: a detail "bad format" gives "Error: bad format"; an empty or absent detail gives "Error: " plus the status text; the two fixed messages |
| `AppLogic.SetFile` | frontend/src/App.tsx:14 | `setFile` replaces the file and leaves the report, loading and error alone |
| `AppLogic.BeginUpload` | frontend/src/App.tsx:20-25 | with no file nothing changes; with a file, loading is on and the error is cleared before any outcome; the file and the report are kept |
| `AppLogic.Submission` | frontend/src/App.tsx:21-29 | a form is posted iff a file is selected, and it carries exactly that file and the query |
| `AppLogic.CompleteUpload` | frontend/src/App.tsx:38-51 | loading ends whatever the outcome and the file is kept; success stores exactly the response data; failure stores the classified message and keeps the report |
| `AppLogic.Reset` | frontend/src/App.tsx:54-58 | file, report and error become null; loading is unchanged |
| `AppLogic.ViewOf` | frontend/src/App.tsx:65-80 | the uploader is rendered iff there is no report; otherwise the dashboard shows exactly the stored report |
| `AppLogic.UploadLifecycle` | frontend/src/App.tsx:20-52 | a whole upload with a file: loading ends, the file stays, success leaves the report and no error, failure leaves the message and the old report |
| `AppComponent.App.constructor` | frontend/src/App.tsx:14-17 | the cells start as no file, no report, not loading, no error |
| `AppComponent.App.SetFile` | frontend/src/App.tsx:14 | the object's cells change as `AppLogic.SetFile` says |
| `AppComponent.App.BeginUpload` | frontend/src/App.tsx:20-29 | the cells change as `AppLogic.BeginUpload` says, and the returned form is `AppLogic.Submission` |
| `AppComponent.App.CompleteUpload` | frontend/src/App.tsx:31-51 | the cells change as `AppLogic.CompleteUpload` says |
| `AppComponent.App.HandleReset` | frontend/src/App.tsx:54-58 | the cells change as `AppLogic.Reset` says |
| `AppComponent.App.Render` | frontend/src/App.tsx:65-80 | the rendered child is the one `AppLogic.ViewOf` selects |
| `UploaderLogic.Dragged` | frontend/src/components/FileUploader.tsx:18-22 | the highlight becomes the given flag and the question is kept |
| `UploaderLogic.WithQuery` | frontend/src/components/FileUploader.tsx:104 | the question becomes the new text and the highlight is kept |
| `UploaderLogic.FirstFile` | frontend/src/components/FileUploader.tsx:26-29 | a file is picked iff the list is present and non-empty, and it is the list's first element |
| `UploaderLogic.SelectFiles` | frontend/src/components/FileUploader.tsx:24-37 | an empty or missing list changes nothing; otherwise the file becomes the first element; report, loading and error are never touched |
| `UploaderLogic.StartAnalysis` | frontend/src/components/FileUploader.tsx:43-47 | `onUpload` is called iff a file is present, and then with the current question |
| `UploaderComponent.FileUploader.constructor` | frontend/src/components/FileUploader.tsx:13-15 | a mounted uploader starts with no highlight and an empty question |
| `UploaderComponent.FileUploader.HandleDrag` | frontend/src/components/FileUploader.tsx:18-22 | the cells change as `UploaderLogic.Dragged` says |
| `UploaderComponent.FileUploader.HandleDrop` | frontend/src/components/FileUploader.tsx:24-30 | the highlight goes off and the parent's cells change as `UploaderLogic.SelectFiles` says |
| `UploaderComponent.FileUploader.HandleFileChange` | frontend/src/components/FileUploader.tsx:32-37 | the parent's cells change as `UploaderLogic.SelectFiles` says; the uploader's cells are untouched |
| `UploaderComponent.FileUploader.ChangeFile` | frontend/src/components/FileUploader.tsx:87-92 | the parent's file becomes null, and nothing else changes (the question included) |
| `UploaderComponent.FileUploader.EditQuery` | frontend/src/components/FileUploader.tsx:101-104 | the question becomes the new text; the parent is untouched |
| `UploaderComponent.FileUploader.HandleStartAnalysis` | frontend/src/components/FileUploader.tsx:43-47 | with no file nothing changes and nothing is posted; with a file, `BeginUpload` runs with the current question |
| `UploaderComponent.FileUploader.ClickStart` | frontend/src/components/FileUploader.tsx:118-120 | while the button is disabled (`StartEnabled()` false, i.e. loading) a click changes nothing and posts nothing; otherwise it runs `handleStartAnalysis` |
| `Workflow.Rerender` | frontend/src/App.tsx:65-73 | the uploader is mounted iff there is no report; a mounted uploader keeps its cells, and a newly mounted one starts afresh |
| `Workflow.Start` | frontend/src/components/FileUploader.tsx:43-47 | an enabled start click with a file shown starts loading, clears the error, keeps file, report and question, adds one awaited post, and posts exactly the file with the current question |
| `Workflow.Handle` | frontend/src/components/FileUploader.tsx:52-120 | events from controls that are not rendered are ignored: drag, drop and browse while the drop zone is hidden (`file ? 'hidden'`, line 53), "Change file", the question and the start button while there is no file (`{file && …}`, line 77), a start click while the button is disabled (line 120), "Analyze New File" without a dashboard, and an outcome with no post awaiting it |
| `Workflow.Step` | frontend/src/components/FileUploader.tsx:118-120 | only a click on "Start Analysis" posts a form, and forms once posted stay posted |
| `Workflow.Run` | frontend/src/App.tsx:32-36 | over any sequence of events, the posted forms only grow |
| `Workflow.InitialInv` | frontend/src/App.tsx:14-17 | the initial page satisfies the page invariant |
| `Workflow.StepPreservesInv` | frontend/src/App.tsx:20-80 | every event preserves the page invariant: uploader mounted iff no report; one post in flight exactly while loading, with neither report nor error; never both report and error |
| `Workflow.RunPreservesInv` | frontend/src/App.tsx:20-80 | the page invariant holds after any sequence of events |
| `Workflow.ReportAndErrorExclusive` | frontend/src/App.tsx:65-80 | on every reachable page, a report and an error are never both present |
| `Workflow.AtMostOneUploadInFlight` | frontend/src/components/FileUploader.tsx:118-120 | on every reachable page at most one post awaits its outcome, and one does exactly while loading |
| `Workflow.OnePanelShown` | frontend/src/components/FileUploader.tsx:53-77 | on every reachable page exactly one of the drop zone, the file panel and the dashboard is shown |
| `Workflow.DragRouting` | frontend/src/components/FileUploader.tsx:18-25 | on the drop zone, drag enter and drag over turn the highlight on, drag leave and drop turn it off, and the question is kept |
| `Workflow.HiddenDropZoneIgnoresSelection` | frontend/src/components/FileUploader.tsx:53 | while a file is selected, drag, drop and browse events change nothing |
| `Workflow.NoSecondUploadWhileLoading` | frontend/src/components/FileUploader.tsx:118-120 | while loading, a click on the start button changes nothing |
| `Workflow.StartPostsFileAndQuery` | frontend/src/App.tsx:21-29 | starting an upload sets loading and clears the error, and the one new form carries the selected file and the current question |
| `Workflow.SuccessfulUploadShowsReport` | frontend/src/App.tsx:38 | a successful post shows exactly the received report with no error, ends loading and unmounts the uploader |
| `Workflow.FailedUploadCanBeRetried` | frontend/src/App.tsx:40-50 | a failed post stores its message and keeps the file and question, so the next click posts the same form again |
| `Workflow.ResetReturnsToStart` | frontend/src/App.tsx:54-58 | "Analyze New File" restores App's initial cells and remounts a fresh uploader |
| `Workflow.ReplacingFileKeepsQueryAndError` | frontend/src/components/FileUploader.tsx:87-92 | "Change file" followed by a new file keeps the question, the error and the loading state |
| `Workflow.ReportMayOutliveItsFile` | frontend/src/components/FileUploader.tsx:87-92 | replacing the file mid-flight lets the report of the old file's post be shown while the new file is selected |
| `Workflow.CrashLogSession` | frontend/src/App.tsx:20-58 | a worked session: select app.log, ask a question, post, receive a report, reset |

## Left out

- The axios post, the multipart encoding and `API_URL` are foreign I/O. The post is represented only by the form it is given and by the `Outcome` event that settles it.
- The `console.log` and `console.error` calls.
- File contents: a file is an opaque name and size.
- The size display uses floating-point division and `toFixed`, so it is left out.
- `handleBrowseClick` opens the operating system's file dialog. Only its result, the input's change event, is modelled.
- JSX layout, class names, icons, the header banner, and the dashboard and anomaly-item rendering. Only two things from the markup are kept: which child App renders, and which controls are visible or disabled.
- `Outcome`: the detail is modelled as an optional string. A non-string detail would be shown through JavaScript's string conversion; that case is not modelled.
- `Outcome`: a response whose body is `null` would make `err.response.data.detail` throw inside the catch block. The error would stay unset while loading still ends; this case is not modelled.
- `Workflow.ReportAndErrorExclusive` relies on `Outcome.Ok` always carrying a report object. In the program a falsy body (such as `null` or `""`) is stored in `analysis` while the uploader stays mounted, and a later failed post then leaves both `analysis` and `error` non-null. That case is not modelled, so the exclusion is proved only for report-shaped success bodies.
- React batches a handler's setter calls into one re-render. The model applies each setter at once, which gives the same cells because no handler reads a cell it has just set.
- The backend (`backend/main.py`) is a constant health endpoint and is not part of this model.
- There is no cancellation, timeout or retry policy in the code, so none is modelled.
