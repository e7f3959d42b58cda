/**
 * The App component of frontend/src/App.tsx as an object: its four state
 * cells are fields, and its handlers update them one setter at a time.
 *
 * React applies a handler's setter calls together at the next render; no
 * handler here reads a cell after setting it, so applying each setter at once
 * gives the same cells after every handler.
 */
module AppComponent {
  import opened Wrappers
  import opened Report
  import AppLogic

  class App {
    var file: Option<AppLogic.File>
    var analysis: Option<AnalysisReport>
    var isLoading: bool
    var error: Option<string>

    /** The four cells as one value. */
    function State(): (s: AppLogic.AppState)
      reads this
    {
      AppLogic.AppState(file, analysis, isLoading, error)
    }

    /** The cells as `useState` initialises them: no file, no report, not loading, no error. */
    constructor()
      ensures State() == AppLogic.InitialApp
    {
      file := None;
      analysis := None;
      isLoading := false;
      error := None;
    }

    /** `setFile`, handed to the uploader as a prop. */
    method SetFile(f: Option<AppLogic.File>)
      modifies this
      ensures State() == AppLogic.SetFile(old(State()), f)
    {
      file := f;
    }

    /**
     * `handleUpload(query)` up to its `await`: returns the form it posts, or
     * None when no file is selected, in which case nothing changes.
     */
    method BeginUpload(query: string) returns (form: Option<AppLogic.Form>)
      modifies this
      ensures State() == AppLogic.BeginUpload(old(State()), query)
      ensures form == AppLogic.Submission(old(State()), query)
    {
      if file.None? {
        return None;
      }
      isLoading := true;
      error := None;
      var data := AppLogic.BuildForm(file.value, query);
      form := Some(data);
    }

    /**
     * `handleUpload` resumed when the post settles: the try block stores the
     * report, the catch block the classified message, `finally` ends loading.
     */
    method CompleteUpload(outcome: AppLogic.Outcome)
      modifies this
      ensures State() == AppLogic.CompleteUpload(old(State()), outcome)
    {
      if outcome.Ok? {
        analysis := Some(outcome.report);
      } else {
        error := Some(AppLogic.FailureMessage(outcome));
      }
      isLoading := false;
    }

    /** `handleReset`, wired to the dashboard's "Analyze New File" button. */
    method HandleReset()
      modifies this
      ensures State() == AppLogic.Reset(old(State()))
    {
      file := None;
      analysis := None;
      error := None;
    }

    /** Which child App renders: the uploader or the dashboard. */
    method Render() returns (view: AppLogic.View)
      ensures view == AppLogic.ViewOf(State())
    {
      if analysis.None? {
        view := AppLogic.UploaderView;
      } else {
        view := AppLogic.DashboardView(analysis.value);
      }
    }
  }
}
