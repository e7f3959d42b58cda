/**
 * The value-level logic of the upload workflow in frontend/src/App.tsx: the
 * four state cells as one record, the two-part submission form, the
 * classification of a failed post into a user-facing message, and the state
 * transitions of `handleUpload` (split at its single `await`) and `handleReset`.
 */
module AppLogic {
  import opened Wrappers
  import opened Report

  /** A file chosen by the user: an opaque handle; its bytes are not modelled. */
  datatype File = File(name: string, size: nat)

  // ---------------------------------------------------------------------------
  // The submission form (FormData)
  // ---------------------------------------------------------------------------

  datatype FormValue = Blob(file: File) | Text(text: string)
  datatype FormPart = FormPart(name: string, value: FormValue)

  /** The parts of a FormData in the order they were appended. */
  type Form = seq<FormPart>

  /** FormData.get: the value of the first part carrying `name`, if any. */
  function FormGet(form: Form, name: string): (r: Option<FormValue>)
    ensures r.Some? ==> exists i :: (0 <= i < |form| && form[i] == FormPart(name, r.value)
                                      && forall j :: 0 <= j < i ==> form[j].name != name)
    ensures r.None? ==> forall i :: 0 <= i < |form| ==> form[i].name != name
    decreases |form|
  {
    if form == [] then None
    else if form[0].name == name then Some(form[0].value)
    else
      var r := FormGet(form[1..], name);
      if r.Some? then
        var i :| 0 <= i < |form[1..]| && form[1..][i] == FormPart(name, r.value)
          && forall j :: 0 <= j < i ==> form[1..][j].name != name;
        assert form[i + 1] == FormPart(name, r.value);
        assert forall j :: 0 <= j < i + 1 ==> form[j].name != name by {
          forall j | 0 <= j < i + 1 ensures form[j].name != name {
            if j > 0 { assert form[j] == form[1..][j - 1]; }
          }
        }
        r
      else r
  }

  /** The form `handleUpload` posts: the file part, then the query part. */
  function BuildForm(file: File, query: string): (form: Form)
    ensures |form| == 2 && form[0].name == "file" && form[1].name == "query"
    ensures FormGet(form, "file") == Some(Blob(file))
    ensures FormGet(form, "query") == Some(Text(query))
  {
    [FormPart("file", Blob(file)), FormPart("query", Text(query))]
  }

  // ---------------------------------------------------------------------------
  // How the awaited post ends, and the classification of failures
  // ---------------------------------------------------------------------------

  /**
   * The settled post: the response data on success, otherwise the shape of
   * the thrown error as the catch block inspects it.
   */
  datatype Outcome =
    | Ok(report: AnalysisReport)
      // an Axios error with `err.response`: its `data.detail` (absent when the
      // body has none) and its `statusText`
    | Response(detail: Option<string>, statusText: string)
      // an Axios error with `err.request` but no `err.response`
    | NoResponse
      // anything else that was thrown: an Axios error with neither a response
      // nor a request, or an error that is not an Axios error at all
    | Other
  {
    predicate Failed() { !Ok? }
  }

  /** The three categories of failure the catch block distinguishes. */
  datatype ErrorKind = ServerRejected(detail: string) | ServerUnreachable | Unknown

  const ErrorPrefix: string := "Error: "
  const UnreachableDetail: string := "The server is not responding. Is the backend running?"
  const UnreachableMessage: string := ErrorPrefix + UnreachableDetail
  const UnknownMessage: string := "An unknown error occurred."

  /**
   * JavaScript's `detail || statusText`: an absent detail and an empty one are
   * both falsy and fall back to the status text.
   */
  function DetailOr(detail: Option<string>, statusText: string): (r: string)
    ensures detail.Some? && detail.value != "" ==> r == detail.value
    ensures detail.None? || detail.value == "" ==> r == statusText
  {
    if detail.Some? && detail.value != "" then detail.value else statusText
  }

  /** The branch of the catch block a failure takes: every failure takes exactly one. */
  function Classify(o: Outcome): (k: ErrorKind)
    requires o.Failed()
    ensures k.ServerRejected? <==> o.Response?
    ensures k.ServerUnreachable? <==> o.NoResponse?
    ensures k.Unknown? <==> o.Other?
    ensures o.Response? ==> k.detail == DetailOr(o.detail, o.statusText)
  {
    match o
    case Response(detail, statusText) => ServerRejected(DetailOr(detail, statusText))
    case NoResponse => ServerUnreachable
    case Other => Unknown
  }

  /** The text stored in `error` for each category. */
  function Message(k: ErrorKind): (msg: string)
  {
    match k
    case ServerRejected(d) => ErrorPrefix + d
    case ServerUnreachable => UnreachableMessage
    case Unknown => UnknownMessage
  }

  /**
   * Two categories show the same message only when they are equal, or when the
   * server's own detail happens to be the "not responding" sentence.
   */
  lemma MessageIdentifiesKind(k1: ErrorKind, k2: ErrorKind)
    requires Message(k1) == Message(k2)
    ensures k1 == k2 || {k1, k2} == {ServerRejected(UnreachableDetail), ServerUnreachable}
  {
    // "An unknown error occurred." is the only message not starting with 'E'.
    assert Message(k1)[0] == (if k1.Unknown? then 'A' else 'E');
    assert Message(k2)[0] == (if k2.Unknown? then 'A' else 'E');
    if !k1.Unknown? && !k2.Unknown? {
      var d1 := Message(k1)[|ErrorPrefix|..];
      var d2 := Message(k2)[|ErrorPrefix|..];
      assert k1.ServerRejected? ==> d1 == k1.detail;
      assert k2.ServerRejected? ==> d2 == k2.detail;
      assert k1.ServerUnreachable? ==> d1 == UnreachableDetail;
      assert k2.ServerUnreachable? ==> d2 == UnreachableDetail;
    }
  }

  /**
   * The message the catch block stores for a failed post: "An unknown error
   * occurred." exactly for the failures with neither a response nor a request
   * (errors that are not Axios errors among them), otherwise
   * "Error: " followed by the server's detail (or status text) or by the
   * "not responding" sentence.
   */
  function FailureMessage(o: Outcome): (msg: string)
    requires o.Failed()
    ensures msg == UnknownMessage <==> o.Other?
    ensures !o.Other? <==> ErrorPrefix <= msg
    ensures o.Response? ==> msg[|ErrorPrefix|..] == DetailOr(o.detail, o.statusText)
    ensures o.NoResponse? ==> msg == UnreachableMessage
  {
    var msg := Message(Classify(o));
    assert UnknownMessage[0] != ErrorPrefix[0];
    msg
  }

  // ---------------------------------------------------------------------------
  // The state cells of App and their transitions
  // ---------------------------------------------------------------------------

  /** The four `useState` cells of App. */
  datatype AppState = AppState(
    file: Option<File>,
    analysis: Option<AnalysisReport>,
    isLoading: bool,
    error: Option<string>)

  /** All four cells as `useState` initialises them. */
  const InitialApp: AppState := AppState(None, None, false, None)

  /** `setFile(f)`: replaces the file and leaves the other cells alone. */
  function SetFile(s: AppState, f: Option<File>): (r: AppState)
    ensures r.file == f
    ensures r.analysis == s.analysis && r.isLoading == s.isLoading && r.error == s.error
  {
    s.(file := f)
  }

  /**
   * `handleUpload(query)` up to its `await`: with no file it returns at once
   * and changes nothing; otherwise loading starts and the error is cleared.
   * Note that it does not look at `isLoading`.
   */
  function BeginUpload(s: AppState, query: string): (r: AppState)
    ensures s.file.None? ==> r == s
    ensures s.file.Some? ==> r.isLoading && r.error.None?
    ensures r.file == s.file && r.analysis == s.analysis
  {
    if s.file.None? then s else s.(isLoading := true, error := None)
  }

  /**
   * The form `handleUpload(query)` posts, if it posts one: only with a file,
   * and then it carries exactly that file and the query, unchanged.
   */
  function Submission(s: AppState, query: string): (form: Option<Form>)
    ensures form.Some? <==> s.file.Some?
    ensures form.Some? ==> |form.value| == 2
    ensures form.Some? ==> FormGet(form.value, "file") == Some(Blob(s.file.value))
    ensures form.Some? ==> FormGet(form.value, "query") == Some(Text(query))
  {
    if s.file.None? then None else Some(BuildForm(s.file.value, query))
  }

  /**
   * `handleUpload` after its `await`: success stores the report, failure
   * stores the classified message, and `finally` always ends loading; the file
   * is never touched, so a failed upload can be sent again.
   */
  function CompleteUpload(s: AppState, o: Outcome): (r: AppState)
    ensures !r.isLoading && r.file == s.file
    ensures o.Ok? ==> r.analysis == Some(o.report) && r.error == s.error
    ensures o.Failed() ==> r.error == Some(FailureMessage(o)) && r.analysis == s.analysis
  {
    match o
    case Ok(report) => s.(analysis := Some(report), isLoading := false)
    case _ => s.(error := Some(FailureMessage(o)), isLoading := false)
  }

  /** `handleReset`: drops the file, the report and the error; loading is left as it is. */
  function Reset(s: AppState): (r: AppState)
    ensures r.file.None? && r.analysis.None? && r.error.None?
    ensures r.isLoading == s.isLoading
  {
    s.(file := None, analysis := None, error := None)
  }

  /** What App renders: the uploader while there is no report, the dashboard once there is one. */
  datatype View = UploaderView | DashboardView(report: AnalysisReport)

  function ViewOf(s: AppState): (v: View)
    ensures v.UploaderView? <==> s.analysis.None?
    ensures v.DashboardView? ==> Some(v.report) == s.analysis
  {
    if s.analysis.None? then UploaderView else DashboardView(s.analysis.value)
  }

  /**
   * One whole upload with a file selected: whatever the outcome, loading ends
   * and the file stays; success leaves the report and no error, failure leaves
   * the classified message and the report as it was.
   */
  lemma UploadLifecycle(s: AppState, query: string, o: Outcome)
    requires s.file.Some?
    ensures var r := CompleteUpload(BeginUpload(s, query), o);
      && !r.isLoading
      && r.file == s.file
      && (o.Ok? ==> r.analysis == Some(o.report) && r.error.None?)
      && (o.Failed() ==> r.error == Some(FailureMessage(o)) && r.analysis == s.analysis)
  {
  }

  /** The two worked examples of the classifier: a rejected upload and an unreachable server. */
  lemma ClassifierExamples()
    ensures FailureMessage(Response(Some("bad format"), "Unprocessable Entity")) == "Error: bad format"
    ensures FailureMessage(Response(Some(""), "Bad Request")) == "Error: Bad Request"
    ensures FailureMessage(Response(None, "Bad Request")) == "Error: Bad Request"
    ensures FailureMessage(NoResponse) == "Error: " + "The server is not responding. Is the backend running?"
    ensures FailureMessage(Other) == "An unknown error occurred."
  {
  }
}
