/** The main process: the registry of live windows, the map from window to
    tracked file, where a new window goes, and the open, save and export
    requests it serves with the help of native dialogs and the file system. */
module MainProcess {
  import opened Host

  /** How far a new window is moved from the focused one, on each axis. */
  const Cascade: int := 20

  /** The position `createWindow` asks for: 20 pixels right of and below the
      focused window, or none (the platform chooses) without a focused window. */
  function NewWindowPosition(focusedAt: Option<Point>): (position: Option<Point>)
    ensures position.Some? <==> focusedAt.Some?
    ensures position.Some? ==>
      position.value.x - focusedAt.value.x == Cascade && position.value.y - focusedAt.value.y == Cascade
  {
    match focusedAt
    case None => None
    case Some(p) => Some(Point(p.x + Cascade, p.y + Cascade))
  }

  /** Where the k-th window lands when each is opened from the one opened
      just before it, starting from a window at `origin`. */
  function CascadeFrom(origin: Point, k: nat): Point
  {
    if k == 0 then origin else NewWindowPosition(Some(CascadeFrom(origin, k - 1))).value
  }

  /** Opening windows one from another walks them down the diagonal, 20
      pixels per window. */
  lemma {:induction false} CascadeIsDiagonal(origin: Point, k: nat)
    ensures CascadeFrom(origin, k) == Point(origin.x + Cascade * k, origin.y + Cascade * k)
  {
    if k > 0 {
      CascadeIsDiagonal(origin, k - 1);
    }
  }

  /** What `showOpenDialog` resolves to. */
  datatype OpenDialogResult = OpenDialogResult(canceled: bool, filePaths: seq<string>)

  /** What `showSaveDialog` resolves to; the path may be missing or empty. */
  datatype SaveDialogResult = SaveDialogResult(canceled: bool, filePath: Option<string>)

  /** The path `getFileFromUser` goes on with: the first one chosen, unless
      the dialog was cancelled or nothing was chosen. */
  function ChosenOpenPath(result: OpenDialogResult): (path: Option<string>)
    ensures path.Some? <==> !result.canceled && |result.filePaths| > 0
    ensures path.Some? ==> path.value == result.filePaths[0]
  {
    if !result.canceled && |result.filePaths| > 0 then Some(result.filePaths[0]) else None
  }

  /** The path a save goes on with: none when the dialog was cancelled or
      gave no (or an empty) path. */
  function ChosenSavePath(result: SaveDialogResult): (path: Option<string>)
    ensures path.Some? <==> !result.canceled && Truthy(result.filePath)
    ensures path.Some? ==> path == result.filePath && path.value != ""
  {
    if result.canceled || !Truthy(result.filePath) then None else result.filePath
  }

  /** What the main process does to the world outside its own maps. */
  datatype Effect =
    | OpenWindow(window: WindowId, position: Option<Point>)
    | RebuildMenu
    | AddRecentDocument(path: string)
    | SetRepresentedFilename(window: WindowId, path: string)
    | SendFileOpened(window: WindowId, path: string, content: string)
    | Unwatch(path: string)
    | LogError(message: string)

  const OpenErrorLog: string := "Error opening file:"

  /** The main process's state, with the file system it reads and writes. */
  class Controller {
    var windows: set<WindowId>
    var openFiles: map<WindowId, string>
    /** Every handle below this one has been handed out. */
    var nextWindow: WindowId
    var files: map<string, string>
    var effects: seq<Effect>

    ghost predicate Valid()
      reads this
    {
      forall w | w in windows :: w < nextWindow
    }

    constructor (files: map<string, string>)
      ensures Valid()
      ensures windows == {} && openFiles == map[] && this.files == files && effects == []
    {
      windows := {};
      openFiles := map[];
      nextWindow := 0;
      this.files := files;
      effects := [];
    }

    /** `createWindow`: a new window, placed by `NewWindowPosition`, joins
        the registry. */
    method CreateWindow(focusedAt: Option<Point>) returns (window: WindowId, position: Option<Point>)
      requires Valid()
      modifies this
      ensures Valid()
      ensures window !in old(windows) && windows == old(windows) + {window}
      ensures position == NewWindowPosition(focusedAt)
      ensures openFiles == old(openFiles) && files == old(files)
      ensures effects == old(effects) + [OpenWindow(window, position)]
    {
      var x, y;
      if focusedAt.Some? {
        x := focusedAt.value.x + Cascade;
        y := focusedAt.value.y + Cascade;
        position := Some(Point(x, y));
      } else {
        position := None;
      }
      window := nextWindow;
      nextWindow := nextWindow + 1;
      effects := effects + [OpenWindow(window, position)];
      windows := windows + {window};
    }

    /** The `closed` handler: the window leaves the registry and the menu is
        rebuilt. Its tracked file, if any, stays in `openFiles`. */
    method Closed(window: WindowId)
      requires Valid()
      modifies this
      ensures Valid()
      ensures windows == old(windows) - {window}
      ensures openFiles == old(openFiles) && files == old(files) && nextWindow == old(nextWindow)
      ensures effects == old(effects) + [RebuildMenu]
    {
      windows := windows - {window};
      effects := effects + [RebuildMenu];
    }

    /** `stopWatchingFile`: stops tracking the window's file, if it has one. */
    method StopWatchingFile(window: WindowId)
      requires Valid()
      modifies this
      ensures Valid()
      ensures window !in openFiles
      ensures openFiles == old(openFiles) - {window}
      ensures window in old(openFiles) ==> effects == old(effects) + [Unwatch(old(openFiles)[window])]
      ensures window !in old(openFiles) ==> effects == old(effects)
      ensures windows == old(windows) && files == old(files) && nextWindow == old(nextWindow)
    {
      if window in openFiles {
        effects := effects + [Unwatch(openFiles[window])];
        openFiles := openFiles - {window};
      }
    }

    /** `openFile`: reads the file and sends it to the window. `ok` is false
        when the file cannot be read; then nothing else happens. */
    method OpenFile(target: WindowId, file: string) returns (ok: bool)
      requires Valid()
      modifies this
      ensures Valid()
      ensures ok <==> file in files
      ensures ok ==> effects == old(effects) + [AddRecentDocument(file), SetRepresentedFilename(target, file),
                                                SendFileOpened(target, file, files[file]), RebuildMenu]
      ensures !ok ==> effects == old(effects)
      ensures windows == old(windows) && openFiles == old(openFiles) && files == old(files)
      ensures nextWindow == old(nextWindow)
    {
      if file !in files {
        return false;
      }
      var content := files[file];
      effects := effects + [AddRecentDocument(file), SetRepresentedFilename(target, file),
                            SendFileOpened(target, file, content), RebuildMenu];
      return true;
    }

    /** `getFileFromUser`, once the open dialog has resolved: the first chosen
        file is read and sent to the window; a cancelled or empty choice does
        nothing, and an unreadable file is only logged. */
    method GetFileFromUser(target: WindowId, result: OpenDialogResult)
      requires Valid()
      modifies this
      ensures Valid()
      ensures ChosenOpenPath(result).None? ==> effects == old(effects)
      ensures ChosenOpenPath(result).Some? ==>
        var path := ChosenOpenPath(result).value;
        effects == old(effects) + if path in files then [SendFileOpened(target, path, files[path]), RebuildMenu]
                                  else [LogError(OpenErrorLog)]
      ensures windows == old(windows) && openFiles == old(openFiles) && files == old(files)
      ensures nextWindow == old(nextWindow)
    {
      if !result.canceled && |result.filePaths| > 0 {
        var filePath := result.filePaths[0];
        if filePath !in files {
          effects := effects + [LogError(OpenErrorLog)];
          return;
        }
        var content := files[filePath];
        effects := effects + [SendFileOpened(target, filePath, content), RebuildMenu];
      }
    }

    /** The `save-markdown` handler. Without a path it asks for one: a
        cancelled or empty answer does nothing; otherwise the content is
        written there and the file is reopened in the window. With a path it
        writes straight away and does nothing else. */
    method SaveMarkdown(sender: WindowId, file: Option<string>, content: string, dialog: SaveDialogResult)
      requires Valid()
      modifies this
      ensures Valid()
      ensures Truthy(file) ==> files == old(files)[file.value := content] && effects == old(effects)
      ensures !Truthy(file) && ChosenSavePath(dialog).None? ==> files == old(files) && effects == old(effects)
      ensures !Truthy(file) && ChosenSavePath(dialog).Some? ==>
        var path := ChosenSavePath(dialog).value;
        && files == old(files)[path := content]
        && effects == old(effects) + [AddRecentDocument(path), SetRepresentedFilename(sender, path),
                                      SendFileOpened(sender, path, content), RebuildMenu, RebuildMenu]
      ensures windows == old(windows) && openFiles == old(openFiles) && nextWindow == old(nextWindow)
    {
      var file := file;
      if !Truthy(file) {
        if dialog.canceled || !Truthy(dialog.filePath) {
          return;
        }
        file := dialog.filePath;
        if !Truthy(file) {
          return;
        }
        files := files[file.value := content];
        var reopened := OpenFile(sender, file.value);
        effects := effects + [RebuildMenu];
      } else {
        files := files[file.value := content];
      }
    }

    /** The `save-html` handler: writes the content where the save dialog
        says, or does nothing if it was cancelled or gave no path. */
    method SaveHtml(content: string, dialog: SaveDialogResult)
      requires Valid()
      modifies this
      ensures Valid()
      ensures ChosenSavePath(dialog).None? ==> files == old(files)
      ensures ChosenSavePath(dialog).Some? ==> files == old(files)[ChosenSavePath(dialog).value := content]
      ensures effects == old(effects)
      ensures windows == old(windows) && openFiles == old(openFiles) && nextWindow == old(nextWindow)
    {
      if dialog.canceled || !Truthy(dialog.filePath) {
        return;
      }
      var file := dialog.filePath.value;
      files := files[file := content];
    }
  }
}
