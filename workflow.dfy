/**
 * The page as a whole: App with whichever child it renders, driven by the
 * user's intents and by the settling of posted requests, one event at a time.
 *
 * This is where the view selection of frontend/src/App.tsx:65-80 and the
 * visibility of the uploader's controls (frontend/src/components/FileUploader.tsx)
 * decide which intents can reach the handlers, and where the properties that
 * hold over every sequence of events are proved.
 */
module Workflow {
  import opened Wrappers
  import opened Report
  import opened AppLogic
  import opened UploaderLogic

  /** Everything that can happen on the page. */
  datatype Event =
    | DragEnter | DragOver | DragLeave
    | Drop(files: Option<seq<File>>)      // files dropped on the drop zone
    | Browse(files: Option<seq<File>>)    // the hidden file input's change event
    | ChangeFile                          // the "Change file" button
    | TypeQuery(text: string)             // the question text area
    | ClickStart                          // the "Start Analysis" button
    | Resolve(outcome: Outcome)           // a posted request settles
    | ClickReset                          // the dashboard's "Analyze New File" button

  /**
   * The page: App's cells, the uploader's cells while it is mounted, the
   * number of posts still awaiting their outcome, and every form posted so far.
   */
  datatype Page = Page(app: AppState, uploader: Option<UploaderState>, pending: nat, sent: seq<Form>)

  const Initial: Page := Page(InitialApp, Some(InitialUploader), 0, [])

  /** The drop zone (and the file input inside it) is hidden once a file is selected. */
  predicate DropZoneShown(p: Page) {
    p.uploader.Some? && p.app.file.None?
  }

  /** The panel with "Change file", the question and "Start Analysis" exists only with a file. */
  predicate FilePanelShown(p: Page) {
    p.uploader.Some? && p.app.file.Some?
  }

  /**
   * React's reconciliation of `{!analysis && <FileUploader/>}`: the uploader
   * is unmounted while a report is shown and mounted afresh, with its
   * initial cells, when the report goes away.
   */
  function Rerender(u: Option<UploaderState>, s: AppState): (r: Option<UploaderState>)
    ensures r.Some? <==> s.analysis.None?
    ensures s.analysis.None? && u.Some? ==> r == u
    ensures s.analysis.None? && u.None? ==> r == Some(InitialUploader)
  {
    match ViewOf(s)
    case DashboardView(_) => None
    case UploaderView => if u.Some? then u else Some(InitialUploader)
  }

  /**
   * A click on an enabled "Start Analysis": `handleStartAnalysis` finds the
   * file, `handleUpload` starts loading, clears the error and posts the file
   * with the current question; one more post awaits its outcome.
   */
  function Start(p: Page): (r: Page)
    requires FilePanelShown(p)
    ensures r.app.isLoading && r.app.error.None?
    ensures r.app.file == p.app.file && r.app.analysis == p.app.analysis && r.uploader == p.uploader
    ensures r.pending == p.pending + 1
    ensures r.sent == p.sent + [BuildForm(p.app.file.value, p.uploader.value.query)]
  {
    match StartAnalysis(p.app.file, p.uploader.value.query)
    case None => p
    case Some(query) =>
      p.(app := BeginUpload(p.app, query),
         pending := p.pending + 1,
         sent := p.sent + [Submission(p.app, query).value])
  }

  /**
   * The handlers an event reaches, if the control it comes from is on the
   * page. An event from a control that is not rendered, or from a disabled
   * button, changes nothing; neither does an outcome with no post awaiting it.
   */
  function Handle(p: Page, e: Event): (r: Page)
    ensures (e.DragEnter? || e.DragOver? || e.DragLeave? || e.Drop? || e.Browse?) && !DropZoneShown(p) ==> r == p
    ensures (e.ChangeFile? || e.TypeQuery? || e.ClickStart?) && !FilePanelShown(p) ==> r == p
    ensures e.ClickStart? && p.app.isLoading ==> r == p
    ensures e.ClickReset? && p.app.analysis.None? ==> r == p
    ensures e.Resolve? && p.pending == 0 ==> r == p
  {
    match e
    case DragEnter =>
      if DropZoneShown(p) then p.(uploader := Some(Dragged(p.uploader.value, true))) else p
    case DragOver =>
      if DropZoneShown(p) then p.(uploader := Some(Dragged(p.uploader.value, true))) else p
    case DragLeave =>
      if DropZoneShown(p) then p.(uploader := Some(Dragged(p.uploader.value, false))) else p
    case Drop(files) =>
      if DropZoneShown(p)
      then p.(uploader := Some(Dragged(p.uploader.value, false)), app := SelectFiles(p.app, files))
      else p
    case Browse(files) =>
      if DropZoneShown(p) then p.(app := SelectFiles(p.app, files)) else p
    case ChangeFile =>
      if FilePanelShown(p) then p.(app := SetFile(p.app, None)) else p
    case TypeQuery(text) =>
      if FilePanelShown(p) then p.(uploader := Some(WithQuery(p.uploader.value, text))) else p
    case ClickStart =>
      // the button is `disabled={isLoading}`: a disabled button delivers no click
      if FilePanelShown(p) && !p.app.isLoading then Start(p) else p
    case Resolve(o) =>
      if p.pending > 0 then p.(app := CompleteUpload(p.app, o), pending := p.pending - 1) else p
    case ClickReset =>
      if ViewOf(p.app).DashboardView? then p.(app := Reset(p.app)) else p
  }

  /**
   * One event, then the re-render. Only "Start Analysis" posts a form, and a
   * form once posted stays posted.
   */
  function Step(p: Page, e: Event): (r: Page)
    ensures p.sent <= r.sent
    ensures !e.ClickStart? ==> r.sent == p.sent
  {
    var q := Handle(p, e);
    q.(uploader := Rerender(q.uploader, q.app))
  }

  /** A sequence of events, one after the other; the posted forms only grow. */
  function Run(p: Page, events: seq<Event>): (r: Page)
    ensures p.sent <= r.sent
    decreases |events|
  {
    if events == [] then p else Run(Step(p, events[0]), events[1..])
  }

  /**
   * What holds on every page reachable from the start: the uploader is
   * mounted exactly when there is no report; a post is in flight exactly while
   * loading, and then there is neither a report nor an error; and a report and
   * an error are never shown together.
   */
  predicate Inv(p: Page) {
    && (p.uploader.Some? <==> p.app.analysis.None?)
    && p.pending == (if p.app.isLoading then 1 else 0)
    && (p.app.isLoading ==> p.app.analysis.None? && p.app.error.None?)
    && !(p.app.analysis.Some? && p.app.error.Some?)
  }

  lemma InitialInv()
    ensures Inv(Initial)
  {
  }

  lemma StepPreservesInv(p: Page, e: Event)
    requires Inv(p)
    ensures Inv(Step(p, e))
  {
  }

  lemma {:induction false} RunPreservesInv(p: Page, events: seq<Event>)
    requires Inv(p)
    ensures Inv(Run(p, events))
    decreases |events|
  {
    if events != [] {
      StepPreservesInv(p, events[0]);
      RunPreservesInv(Step(p, events[0]), events[1..]);
    }
  }

  /** A report and an error message are never both present, whatever the user and the server do. */
  lemma ReportAndErrorExclusive(events: seq<Event>)
    ensures var p := Run(Initial, events);
      !(p.app.analysis.Some? && p.app.error.Some?)
  {
    RunPreservesInv(Initial, events);
  }

  /**
   * At most one post is ever awaiting its outcome, and one is exactly while
   * `isLoading` is set, although `handleUpload` itself never looks at `isLoading`.
   */
  lemma AtMostOneUploadInFlight(events: seq<Event>)
    ensures var p := Run(Initial, events);
      p.pending <= 1 && (p.pending == 1 <==> p.app.isLoading)
  {
    RunPreservesInv(Initial, events);
  }

  /**
   * On every reachable page exactly one of three things is on screen: the
   * drop zone (uploader, no file), the file panel (uploader, a file), or the
   * dashboard.
   */
  lemma OnePanelShown(events: seq<Event>)
    ensures var p := Run(Initial, events);
      && (DropZoneShown(p) || FilePanelShown(p) || ViewOf(p.app).DashboardView?)
      && !(DropZoneShown(p) && FilePanelShown(p))
      && !(DropZoneShown(p) && ViewOf(p.app).DashboardView?)
      && !(FilePanelShown(p) && ViewOf(p.app).DashboardView?)
  {
    RunPreservesInv(Initial, events);
  }

  /**
   * On the drop zone, drag enter and drag over turn the highlight on, drag
   * leave and drop turn it off; the question is kept.
   */
  lemma DragRouting(p: Page, files: Option<seq<File>>)
    requires Inv(p) && DropZoneShown(p)
    ensures Step(p, DragEnter).uploader == Some(Dragged(p.uploader.value, true))
    ensures Step(p, DragOver).uploader == Some(Dragged(p.uploader.value, true))
    ensures Step(p, DragLeave).uploader == Some(Dragged(p.uploader.value, false))
    ensures Step(p, Drop(files)).uploader == Some(Dragged(p.uploader.value, false))
  {
  }

  /**
   * Once a file is selected the drop zone and its file input are hidden, so
   * dropping or browsing cannot replace the file: only "Change file" leads back.
   */
  lemma HiddenDropZoneIgnoresSelection(p: Page, files: Option<seq<File>>)
    requires Inv(p) && FilePanelShown(p)
    ensures Step(p, Drop(files)) == p
    ensures Step(p, Browse(files)) == p
    ensures Step(p, DragEnter) == p && Step(p, DragOver) == p && Step(p, DragLeave) == p
  {
  }

  /** While loading, a click on "Start Analysis" changes nothing and posts nothing. */
  lemma NoSecondUploadWhileLoading(p: Page)
    requires Inv(p) && p.app.isLoading
    ensures Step(p, ClickStart) == p
  {
  }

  /**
   * Starting an upload sets loading, clears the error and posts exactly the
   * selected file and the current question.
   */
  lemma StartPostsFileAndQuery(p: Page)
    requires Inv(p) && FilePanelShown(p) && !p.app.isLoading
    ensures var r := Step(p, ClickStart);
      && r.app.isLoading && r.app.error.None?
      && r.app.file == p.app.file && r.uploader == p.uploader
      && r.pending == 1
      && |r.sent| == |p.sent| + 1
      && FormGet(r.sent[|p.sent|], "file") == Some(Blob(p.app.file.value))
      && FormGet(r.sent[|p.sent|], "query") == Some(Text(p.uploader.value.query))
  {
  }

  /**
   * A successful post shows its report, exactly as received, with no error;
   * the uploader is unmounted.
   */
  lemma SuccessfulUploadShowsReport(p: Page, report: AnalysisReport)
    requires Inv(p) && FilePanelShown(p) && !p.app.isLoading
    ensures var r := Step(Step(p, ClickStart), Resolve(Ok(report)));
      && r.app.analysis == Some(report) && r.app.error.None?
      && !r.app.isLoading && r.pending == 0
      && r.uploader.None? && ViewOf(r.app) == DashboardView(report)
  {
  }

  /**
   * A failed post shows its classified message and keeps the file and the
   * question, so a second click posts the very same form again.
   */
  lemma FailedUploadCanBeRetried(p: Page, o: Outcome)
    requires Inv(p) && FilePanelShown(p) && !p.app.isLoading && o.Failed()
    ensures var form := BuildForm(p.app.file.value, p.uploader.value.query);
      var p1 := Step(p, ClickStart);
      var p2 := Step(p1, Resolve(o));
      var p3 := Step(p2, ClickStart);
      && p1.sent == p.sent + [form]
      && p2.app.error == Some(FailureMessage(o)) && !p2.app.isLoading
      && p2.app.file == p.app.file && p2.uploader == p.uploader
      && p3.sent == p.sent + [form, form]
  {
  }

  /**
   * "Analyze New File" from the dashboard returns App to its initial cells and
   * remounts the uploader, so the old question is gone as well.
   */
  lemma ResetReturnsToStart(p: Page)
    requires Inv(p) && p.app.analysis.Some?
    ensures var r := Step(p, ClickReset);
      && r.app == InitialApp && r.uploader == Some(InitialUploader)
      && r.pending == 0 && r.sent == p.sent
  {
  }

  /**
   * Replacing the file ("Change file", then another file) keeps the question,
   * the error and the loading state; it is possible while a post is in flight.
   */
  lemma ReplacingFileKeepsQueryAndError(p: Page, g: File)
    requires Inv(p) && FilePanelShown(p)
    ensures var r := Step(Step(p, ChangeFile), Browse(Some([g])));
      && r.app.file == Some(g) && r.uploader == p.uploader
      && r.app.error == p.app.error && r.app.isLoading == p.app.isLoading
      && r.pending == p.pending
  {
  }

  /**
   * Because "Change file" is not blocked while loading, the report shown can
   * belong to a file that is no longer the selected one.
   */
  lemma ReportMayOutliveItsFile(p: Page, g: File, report: AnalysisReport)
    requires Inv(p) && FilePanelShown(p) && !p.app.isLoading && p.app.file != Some(g)
    ensures var r := Step(Step(Step(Step(p, ClickStart), ChangeFile), Browse(Some([g]))), Resolve(Ok(report)));
      && r.app.analysis == Some(report) && r.app.file == Some(g)
      && |r.sent| == |p.sent| + 1
      && FormGet(r.sent[|p.sent|], "file") == Some(Blob(p.app.file.value))
  {
  }

  /** The file, question and report of the worked session below. */
  const SessionLog: File := File("app.log", 2048)
  const SessionQuestion: string := "why did it crash"
  const SessionReport: AnalysisReport := AnalysisReport("summary", [Anomaly(Error, "03:00:15", "SEGFAULT")])

  /** The page once app.log is picked and before anything is posted, with a given question. */
  function SessionPage(query: string): Page {
    Page(AppState(Some(SessionLog), None, false, None), Some(UploaderState(false, query)), 0, [])
  }

  lemma SessionSelect()
    ensures Step(Initial, Browse(Some([SessionLog]))) == SessionPage("")
  {
  }

  lemma SessionAsk()
    ensures Step(SessionPage(""), TypeQuery(SessionQuestion)) == SessionPage(SessionQuestion)
  {
  }

  lemma SessionPost()
    ensures Step(SessionPage(SessionQuestion), ClickStart)
         == SessionPage(SessionQuestion).(app := AppState(Some(SessionLog), None, true, None), pending := 1,
                                          sent := [BuildForm(SessionLog, SessionQuestion)])
  {
  }

  /**
   * A whole session: pick app.log, ask a question, post, get a report back,
   * and start over.
   */
  lemma CrashLogSession()
    ensures var p1 := Step(Initial, Browse(Some([SessionLog])));
      var p2 := Step(p1, TypeQuery(SessionQuestion));
      var p3 := Step(p2, ClickStart);
      var p4 := Step(p3, Resolve(Ok(SessionReport)));
      var p5 := Step(p4, ClickReset);
      && p1.app.file == Some(SessionLog) && p1.uploader == Some(InitialUploader)
      && p2.app.file == Some(SessionLog) && p2.uploader.value.query == SessionQuestion
      && p3.app.isLoading && p3.sent == [BuildForm(SessionLog, SessionQuestion)]
      && p4.app.analysis == Some(SessionReport) && !p4.app.isLoading && p4.uploader.None?
      && p5.app == InitialApp && p5.uploader == Some(InitialUploader)
  {
    SessionSelect();
    SessionAsk();
    SessionPost();
    var p3 := Step(SessionPage(SessionQuestion), ClickStart);
    assert Inv(p3);
    var p4 := Step(p3, Resolve(Ok(SessionReport)));
    assert Inv(p4) by { StepPreservesInv(p3, Resolve(Ok(SessionReport))); }
    ResetReturnsToStart(p4);
  }
}
