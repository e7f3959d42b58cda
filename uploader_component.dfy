/**
 * The FileUploader component of frontend/src/components/FileUploader.tsx as
 * an object. Its own cells (`isDragOver`, `query`) are fields; its props
 * (`file`, `setFile`, `onUpload`, `isLoading`, `error`) all belong to the
 * parent App, which it holds as `app`.
 */
module UploaderComponent {
  import opened Wrappers
  import AppLogic
  import UploaderLogic
  import AppComponent

  class FileUploader {
    var isDragOver: bool
    var query: string
    const app: AppComponent.App

    /** The uploader's own two cells as one value. */
    function State(): (u: UploaderLogic.UploaderState)
      reads this
    {
      UploaderLogic.UploaderState(isDragOver, query)
    }

    /** Mounting: both cells start afresh, whatever the parent holds. */
    constructor(app: AppComponent.App)
      ensures this.app == app
      ensures State() == UploaderLogic.InitialUploader
    {
      this.app := app;
      isDragOver := false;
      query := "";
    }

    /** `handleDrag(e, over)`: drag enter and drag over pass true, drag leave false. */
    method HandleDrag(over: bool)
      modifies this
      ensures State() == UploaderLogic.Dragged(old(State()), over)
    {
      isDragOver := over;
    }

    /** `handleDrop`: the highlight goes off, then the first dropped file, if any, is selected. */
    method HandleDrop(files: Option<seq<AppLogic.File>>)
      modifies this, app
      ensures State() == UploaderLogic.Dragged(old(State()), false)
      ensures app.State() == UploaderLogic.SelectFiles(old(app.State()), files)
    {
      HandleDrag(false);
      if files.Some? && |files.value| > 0 {
        app.SetFile(Some(files.value[0]));
      }
    }

    /** `handleFileChange`: the first browsed file, if any, is selected; the uploader's cells stay. */
    method HandleFileChange(files: Option<seq<AppLogic.File>>)
      modifies app
      ensures app.State() == UploaderLogic.SelectFiles(old(app.State()), files)
    {
      if files.Some? && |files.value| > 0 {
        app.SetFile(Some(files.value[0]));
      }
    }

    /**
     * "Change file": the parent's file is cleared; the question, the error
     * and loading are kept, and nothing stops it while an upload is in flight.
     */
    method ChangeFile()
      modifies app
      ensures app.State() == AppLogic.SetFile(old(app.State()), None)
    {
      app.SetFile(None);
    }

    /** The text area's `onChange`: the question becomes the new text; the file is not touched. */
    method EditQuery(text: string)
      modifies this
      ensures State() == UploaderLogic.WithQuery(old(State()), text)
    {
      query := text;
    }

    /**
     * `handleStartAnalysis`: with a file selected it calls `onUpload(query)`,
     * which runs up to its `await` and posts the returned form; otherwise nothing.
     */
    method HandleStartAnalysis() returns (form: Option<AppLogic.Form>)
      modifies app
      ensures UploaderLogic.StartAnalysis(old(app.file), query).None? ==> form.None? && app.State() == old(app.State())
      ensures UploaderLogic.StartAnalysis(old(app.file), query).Some? ==>
        && app.State() == AppLogic.BeginUpload(old(app.State()), query)
        && form == AppLogic.Submission(old(app.State()), query)
    {
      var upload := UploaderLogic.StartAnalysis(app.file, query);
      if upload.Some? {
        form := app.BeginUpload(upload.value);
      } else {
        form := None;
      }
    }

    /** Whether the "Start Analysis" button accepts clicks: it is disabled while loading. */
    function StartEnabled(): (enabled: bool)
      reads app
      ensures enabled <==> !app.isLoading
    {
      !app.isLoading
    }

    /**
     * A click on "Start Analysis": a disabled button delivers no click, so
     * while loading nothing happens and no second post is made.
     */
    method ClickStart() returns (form: Option<AppLogic.Form>)
      modifies app
      ensures !old(StartEnabled()) ==> form.None? && app.State() == old(app.State())
      ensures old(StartEnabled()) ==>
        && app.State() == AppLogic.BeginUpload(old(app.State()), query)
        && form == AppLogic.Submission(old(app.State()), query)
    {
      if StartEnabled() {
        form := HandleStartAnalysis();
      } else {
        form := None;
      }
    }
  }
}
