/** `BrowseViewModel`: walking the repository's directories and opening a
    file.

    Each coroutine runs here as straight-line steps: the first state update,
    then the update for the answer of `fetchDirectoryContents` or
    `fetchFileContent`, which is passed in. Directory entries are carried,
    never inspected, so their type is a parameter. */
module BrowseViewModel {
  import opened Wrappers
  import opened Text

  /** What a repository call ends with: its value, or a failure whose
      exception message may be null. */
  datatype Fetched<T> = Loaded(value: T) | LoadFailed(message: Option<string>)

  datatype BrowseUiState<Entry> = BrowseUiState(
    currentPath: string,
    pathSegments: seq<string>,
    entries: seq<Entry>,
    isLoading: bool,
    error: Option<string>,
    viewingFile: Option<string>,
    fileContent: Option<string>,
    isFileLoading: bool)

  function InitialUi<Entry>(): BrowseUiState<Entry> {
    BrowseUiState("", [], [], false, None, None, None, false)
  }

  const DIRECTORY_FAILED: string := "Failed to load directory"
  const FILE_FAILED: string := "Failed to load file"

  // ------------------------------------------------------------------ paths

  /** The breadcrumb of a directory: none for the root, else the pieces of
      the path between its `/`s. */
  function Segments(path: string): (segments: seq<string>)
    ensures segments == [] <==> path == ""
    ensures forall i :: 0 <= i < |segments| ==> '/' !in segments[i]
    ensures segments != [] ==> Join(segments, '/') == path
  {
    if path == "" then [] else Split(path, '/')
  }

  /** The directory `navigateUp` loads: the text before the last `/`, or
      the root when there is none. */
  function Parent(path: string): (parent: string)
    ensures '/' in path ==> parent + "/" <= path
    ensures '/' !in path ==> parent == ""
  {
    SubstringBeforeLast(path, '/', "")
  }

  /** Going up from an entry of `parent` comes back to `parent`. */
  lemma {:induction false} ParentOfChild(parent: string, name: string)
    requires '/' !in name
    ensures Parent(parent + "/" + name) == parent
  {
    BeforeLastAppended(parent, '/', name, "");
  }

  /** Entering a directory of a non-root directory adds its name to the
      breadcrumb; going up from it removes that name again. */
  lemma {:induction false} ChildSegments(parent: string, name: string)
    requires parent != "" && '/' !in name
    ensures Segments(parent + "/" + name) == Segments(parent) + [name]
    ensures Segments(Parent(parent + "/" + name)) == Segments(parent + "/" + name)[..|Segments(parent)|]
  {
    SplitAppend(parent, name, '/');
    ParentOfChild(parent, name);
    assert (Segments(parent) + [name])[..|Segments(parent)|] == Segments(parent);
  }

  /** A directory at the top of the repository has a one-name breadcrumb,
      and going up from it reaches the root. */
  lemma {:induction false} TopLevelSegments(name: string)
    requires name != "" && '/' !in name
    ensures Segments(name) == [name] && Parent(name) == ""
  {
  }

  // ------------------------------------------------------------ transitions

  /** The state after `loadDirectory(path)` has run to its end: on success
      the directory is shown, on failure everything but the error and the
      loading flag stays as it was. Both clear the open file. */
  function AfterLoad<Entry>(ui: BrowseUiState<Entry>, path: string, result: Fetched<seq<Entry>>): (r: BrowseUiState<Entry>)
    ensures !r.isLoading && r.viewingFile.None? && r.fileContent.None?
    ensures r.pathSegments == (if result.Loaded? then Segments(path) else ui.pathSegments)
    ensures result.Loaded? ==> r.currentPath == path && r.entries == result.value && r.error.None?
    ensures result.LoadFailed? ==>
      && r.currentPath == ui.currentPath && r.entries == ui.entries
      && r.error == Some(result.message.GetOr(DIRECTORY_FAILED))
    ensures r.isFileLoading == ui.isFileLoading
  {
    var started := ui.(isLoading := true, error := None, viewingFile := None, fileContent := None);
    match result
    case Loaded(entries) =>
      started.(currentPath := path, pathSegments := Segments(path), entries := entries, isLoading := false)
    case LoadFailed(message) =>
      started.(isLoading := false, error := Some(message.GetOr(DIRECTORY_FAILED)))
  }

  /** Going down into `parent/name` and back up, both loads succeeding,
      shows `parent` again with its own breadcrumb. */
  lemma {:induction false} DownAndUp<Entry>(ui: BrowseUiState<Entry>, parent: string, name: string,
                                            below: seq<Entry>, above: seq<Entry>)
    requires '/' !in name
    ensures var down := AfterLoad(ui, parent + "/" + name, Loaded(below));
      var up := AfterLoad(down, Parent(down.currentPath), Loaded(above));
      up.currentPath == parent && up.pathSegments == Segments(parent) && up.entries == above
  {
    ParentOfChild(parent, name);
  }

  class BrowseViewModel<Entry> {
    /** `_uiState.value`. */
    var ui: BrowseUiState<Entry>

    /** The view model starts by loading the root directory. */
    constructor (root: Fetched<seq<Entry>>)
      ensures ui == AfterLoad(InitialUi(), "", root)
    {
      ui := InitialUi();
      new;
      BeginLoad();
      FinishLoad("", root);
    }

    /** The first update of `loadDirectory`: loading, with no error and no
        open file. */
    method BeginLoad()
      modifies this
      ensures ui == old(ui).(isLoading := true, error := None, viewingFile := None, fileContent := None)
    {
      ui := ui.(isLoading := true, error := None, viewingFile := None, fileContent := None);
    }

    /** The update of `loadDirectory` for the answer of
        `fetchDirectoryContents(path)`. */
    method FinishLoad(path: string, result: Fetched<seq<Entry>>)
      modifies this
      ensures result.Loaded? ==>
        ui == old(ui).(currentPath := path, pathSegments := Segments(path), entries := result.value, isLoading := false)
      ensures result.LoadFailed? ==>
        ui == old(ui).(isLoading := false, error := Some(result.message.GetOr(DIRECTORY_FAILED)))
    {
      match result
      case Loaded(entries) =>
        var segments := if path == "" then [] else Split(path, '/');
        ui := ui.(currentPath := path, pathSegments := segments, entries := entries, isLoading := false);
      case LoadFailed(message) =>
        ui := ui.(isLoading := false, error := Some(if message.Some? then message.value else DIRECTORY_FAILED));
    }

    /** `loadDirectory(path)`. */
    method LoadDirectory(path: string, result: Fetched<seq<Entry>>)
      modifies this
      ensures ui == AfterLoad(old(ui), path, result)
    {
      BeginLoad();
      FinishLoad(path, result);
    }

    /** `openFile(path)`: the file is shown as loading, then with its text;
        a failure keeps the file open and reports the error. */
    method OpenFile(path: string, result: Fetched<string>)
      modifies this
      ensures ui.viewingFile == Some(path) && !ui.isFileLoading
      ensures result.Loaded? ==> ui == old(ui).(viewingFile := Some(path), fileContent := Some(result.value), isFileLoading := false)
      ensures result.LoadFailed? ==>
        ui == old(ui).(viewingFile := Some(path), fileContent := None, isFileLoading := false,
                       error := Some(result.message.GetOr(FILE_FAILED)))
    {
      ui := ui.(viewingFile := Some(path), isFileLoading := true, fileContent := None);
      match result
      case Loaded(content) =>
        ui := ui.(fileContent := Some(content), isFileLoading := false);
      case LoadFailed(message) =>
        ui := ui.(isFileLoading := false, error := Some(if message.Some? then message.value else FILE_FAILED));
    }

    /** `navigateUp()`: closes an open file, else loads the parent of a
        subdirectory (with `parent` the answer for it), else reports that
        there is nowhere to go. */
    method NavigateUp(parent: Fetched<seq<Entry>>) returns (handled: bool)
      modifies this
      ensures handled <==> old(ui).viewingFile.Some? || old(ui).currentPath != ""
      ensures old(ui).viewingFile.Some? ==> ui == old(ui).(viewingFile := None, fileContent := None)
      ensures old(ui).viewingFile.None? && old(ui).currentPath != "" ==>
        ui == AfterLoad(old(ui), Parent(old(ui).currentPath), parent)
      ensures !handled ==> ui == old(ui)
    {
      if ui.viewingFile.Some? {
        ui := ui.(viewingFile := None, fileContent := None);
        return true;
      }
      if ui.currentPath != "" {
        LoadDirectory(SubstringBeforeLast(ui.currentPath, '/', ""), parent);
        return true;
      }
      return false;
    }
  }
}
