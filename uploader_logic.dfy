/**
 * The value-level logic of frontend/src/components/FileUploader.tsx: the
 * component's own state (`isDragOver`, `query`) and how a selection list
 * from a drop or from the file input chooses the parent's file.
 */
module UploaderLogic {
  import opened Wrappers
  import AppLogic

  /** The two `useState` cells of FileUploader. */
  datatype UploaderState = UploaderState(isDragOver: bool, query: string)

  /** A freshly mounted uploader: nothing dragged over it, an empty question. */
  const InitialUploader: UploaderState := UploaderState(false, "")

  /** `handleDrag(e, over)`: only the highlight changes; the question is kept. */
  function Dragged(u: UploaderState, over: bool): (r: UploaderState)
    ensures r.isDragOver == over && r.query == u.query
  {
    u.(isDragOver := over)
  }

  /** The text area's `onChange`: the question becomes the new text, the highlight is kept. */
  function WithQuery(u: UploaderState, text: string): (r: UploaderState)
    ensures r.query == text && r.isDragOver == u.isDragOver
  {
    u.(query := text)
  }

  /**
   * The file a selection list picks: its first element, and none when the
   * list is missing (`files` is null) or empty.
   */
  function FirstFile(files: Option<seq<AppLogic.File>>): (r: Option<AppLogic.File>)
    ensures r.Some? <==> files.Some? && |files.value| > 0
    ensures r.Some? ==> r.value == files.value[0]
  {
    if files.Some? && |files.value| > 0 then Some(files.value[0]) else None
  }

  /**
   * `handleDrop` and `handleFileChange` as seen by App: a non-empty list
   * replaces the file with its first element; an empty or missing list
   * changes nothing. The error, the report and loading are never touched.
   */
  function SelectFiles(s: AppLogic.AppState, files: Option<seq<AppLogic.File>>): (r: AppLogic.AppState)
    ensures FirstFile(files).None? ==> r == s
    ensures FirstFile(files).Some? ==> r.file == FirstFile(files)
    ensures r.analysis == s.analysis && r.isLoading == s.isLoading && r.error == s.error
  {
    match FirstFile(files)
    case None => s
    case Some(f) => AppLogic.SetFile(s, Some(f))
  }

  /**
   * `handleStartAnalysis`: the query handed to `onUpload`, which it calls
   * only when a file is selected.
   */
  function StartAnalysis(file: Option<AppLogic.File>, query: string): (r: Option<string>)
    ensures r.Some? <==> file.Some?
    ensures r.Some? ==> r.value == query
  {
    if file.Some? then Some(query) else None
  }
}
