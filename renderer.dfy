/** One editor window's renderer: the document session (the bound file path,
    the last loaded or saved snapshot, the text buffer), the derived window
    title and button states, and the event handlers that change them. */
module Renderer {
  import opened Host
  import opened Preload

  const AppTitle: string := "Fire Sale"
  const TitleSeparator: string := " - "
  const EditedMarker: string := " (Edited)"

  const NotSavedInMessage: string := "This file has not been saved in the filesystem."
  const NotSavedToMessage: string := "This file has not been saved to the filesystem."
  const UnsupportedTypeMessage: string := "That file type is not supported"

  const OverwriteTitle: string := "Overwrite Current Unsaved Changes?"
  const OverwriteMessage: string :=
    "Opening a new file in this window will overwrite your current unsaved changes. Open this file anyway?"

  predicate EndsWith(s: string, suffix: string)
  {
    |suffix| <= |s| && s[|s| - |suffix|..] == suffix
  }

  /** The window title `updateUserInterface` sends: "Fire Sale", prefixed by
      the file's base name and " - " when a path is bound, and followed by
      " (Edited)" when the buffer is edited. */
  function Title(filePath: Option<string>, isEdited: bool, basename: string -> string): (title: string)
    ensures EndsWith(title, EditedMarker) <==> isEdited
    ensures title == AppTitle <==> !Truthy(filePath) && !isEdited
  {
    var named := if Truthy(filePath) then basename(filePath.value) + TitleSeparator + AppTitle else AppTitle;
    assert named[|named| - |AppTitle|..] == AppTitle;
    assert named[|named| - 1] == 'e';
    var title := if isEdited then named + EditedMarker else named;
    assert isEdited ==> title[|title| - |EditedMarker|..] == EditedMarker;
    title
  }

  /** What a reader of the title learns: the file name shown, and whether the
      document is marked as edited. */
  datatype TitleParts = TitleParts(name: Option<string>, edited: bool)

  /** Reads a title back into its parts; `None` for a string no session can show. */
  function ParseTitle(title: string): (parts: Option<TitleParts>)
  {
    var edited := EndsWith(title, EditedMarker);
    var rest := if edited then title[..|title| - |EditedMarker|] else title;
    if rest == AppTitle then Some(TitleParts(None, edited))
    else if EndsWith(rest, TitleSeparator + AppTitle) then
      Some(TitleParts(Some(rest[..|rest| - |TitleSeparator + AppTitle|]), edited))
    else None
  }

  /** The title determines exactly the shown name and the edited mark. */
  lemma TitleRoundTrip(filePath: Option<string>, isEdited: bool, basename: string -> string)
    ensures ParseTitle(Title(filePath, isEdited, basename))
         == Some(TitleParts(if Truthy(filePath) then Some(basename(filePath.value)) else None, isEdited))
  {
    var title := Title(filePath, isEdited, basename);
    var named := if Truthy(filePath) then basename(filePath.value) + TitleSeparator + AppTitle else AppTitle;
    var rest := if isEdited then title[..|title| - |EditedMarker|] else title;
    assert rest == named;
    if Truthy(filePath) {
      var name := basename(filePath.value);
      assert named == name + (TitleSeparator + AppTitle);
      assert |named| > |AppTitle|;
      assert named[|named| - |TitleSeparator + AppTitle|..] == TitleSeparator + AppTitle;
      assert named[..|named| - |TitleSeparator + AppTitle|] == name;
    }
  }

  /** `fileTypeIsSupported`: plain text and Markdown, nothing else. */
  function FileTypeIsSupported(file: DroppedFile): (supported: bool)
    ensures supported <==> file.mimeType == "text/plain" || file.mimeType == "text/markdown"
  {
    file.mimeType in ["text/plain", "text/markdown"]
  }

  /** A parameter of a renderer callback: bound positionally to the
      arguments it is called with, `undefined` past their end. */
  datatype Param = Undefined | Given(value: Value)

  function ParamAt(args: seq<Value>, i: nat): (p: Param)
    ensures p.Given? <==> i < |args|
    ensures p.Given? ==> p.value == args[i]
  {
    if i < |args| then Given(args[i]) else Undefined
  }

  /** The arguments the main process sends on "file-opened". */
  function FileOpenedArgs(path: string, content: string): seq<Value>
  {
    [Str(path), Str(content)]
  }

  /** `file` and `content` as the "file-opened" handler binds them when
      declared `(event, file, content)`, as it is: the bridge has already
      dropped the event, so the first argument lands in `event`. */
  function FileOpenedParamsAsWritten(delivered: seq<Value>): (Param, Param)
  {
    (ParamAt(delivered, 1), ParamAt(delivered, 2))
  }

  /** As written, the handler takes the file's content for its path and has
      no content at all. */
  lemma FileOpenedParamsShifted<C>(callback: C, event: IpcEvent, path: string, content: string)
    ensures var delivered := Emit([StripEvent(callback)], event, FileOpenedArgs(path, content));
      && |delivered| == 1
      && FileOpenedParamsAsWritten(delivered[0].args) == (Given(Str(content)), Undefined)
  {
  }

  /** `file` and `content` as the handler binds them when declared
      `(file, content)`, matching what the bridge delivers. */
  function FileOpenedParams(delivered: seq<Value>): (Param, Param)
  {
    (ParamAt(delivered, 0), ParamAt(delivered, 1))
  }

  /** With that binding the handler receives exactly the path and content
      the main process sent. */
  lemma FileOpenedParamsRoundTrip<C>(callback: C, event: IpcEvent, path: string, content: string)
    ensures var delivered := Emit([StripEvent(callback)], event, FileOpenedArgs(path, content));
      && |delivered| == 1 && delivered[0].callback == callback
      && FileOpenedParams(delivered[0].args) == (Given(Str(path)), Given(Str(content)))
  {
  }

  /** A message the renderer asks the main process to deliver. */
  datatype Request =
    | CreateWindow
    | GetFileFromUser
    | ShowContextMenu
    | UpdateTitle(title: string)
    | UpdateDocument(isEdited: bool)
    | SaveMarkdown(filePath: Option<string>, content: string)
    | SaveHtml(html: string)
    | ShowDialogMessage(kind: string, title: string, message: string, buttons: seq<string>, defaultId: int, cancelId: int)

  /** A call into the desktop shell. */
  datatype ShellCall = Beep | ShowItemInFolder(path: string) | OpenPath(path: string)

  /** A file dropped on the editor, with the text the file reader yields for it. */
  datatype DroppedFile = DroppedFile(path: string, mimeType: string, text: string)

  /** Everything the session's handlers read or write. */
  datatype SessionView = SessionView(
    filePath: Option<string>,
    originalContent: string,
    buffer: string,
    html: string,
    saveDisabled: bool,
    revertDisabled: bool,
    showFileDisabled: bool,
    openInDefaultDisabled: bool,
    requests: seq<Request>,
    alerts: seq<string>,
    shellCalls: seq<ShellCall>)

  /** The buttons and the edited mark agree with the buffer: Save and Revert
      are disabled exactly when the buffer equals the snapshot. */
  predicate ShowsEdited(v: SessionView)
  {
    v.saveDisabled == v.revertDisabled == (v.buffer == v.originalContent)
  }

  /** The state `updateUserInterface(isEdited)` leaves. */
  function AfterUpdateUserInterface(v: SessionView, isEdited: bool, basename: string -> string): SessionView
  {
    v.(requests := v.requests + [UpdateTitle(Title(v.filePath, isEdited, basename)), UpdateDocument(isEdited)],
       saveDisabled := !isEdited,
       revertDisabled := !isEdited)
  }

  /** The state `renderFile(file, content)` leaves. */
  function AfterRenderFile(v: SessionView, file: string, content: string,
                           basename: string -> string, markdownToHtml: string -> string): SessionView
  {
    AfterUpdateUserInterface(
      v.(filePath := Some(file), originalContent := content, buffer := content,
         html := markdownToHtml(content), showFileDisabled := false, openInDefaultDisabled := false),
      false, basename)
  }

  /** After `renderFile` the session is bound to the file, buffer and snapshot
      both hold the content, nothing shows as edited, and the title names the file. */
  lemma RenderFileBindsAndCleans(v: SessionView, file: string, content: string,
                                 basename: string -> string, markdownToHtml: string -> string)
    requires file != ""
    ensures var w := AfterRenderFile(v, file, content, basename, markdownToHtml);
      && w.filePath == Some(file) && w.originalContent == content && w.buffer == content
      && ShowsEdited(w) && w.saveDisabled && !w.showFileDisabled && !w.openInDefaultDisabled
      && ParseTitle(w.requests[|w.requests| - 2].title) == Some(TitleParts(Some(basename(file)), false))
  {
    TitleRoundTrip(Some(file), false, basename);
  }

  /** The title the window shows: the last one sent, if any. */
  function ShownTitle(requests: seq<Request>): (title: Option<string>)
    ensures title.None? <==> forall i :: 0 <= i < |requests| ==> !requests[i].UpdateTitle?
    ensures title.Some? ==> UpdateTitle(title.value) in requests
  {
    if requests == [] then None
    else
      var last := requests[|requests| - 1];
      if last.UpdateTitle? then Some(last.title)
      else
        var earlier := requests[..|requests| - 1];
        assert forall i :: 0 <= i < |earlier| ==> earlier[i] == requests[i];
        ShownTitle(earlier)
  }

  /** Requests that carry no title leave the shown title alone. */
  lemma {:induction false} ShownTitleSkips(requests: seq<Request>, later: seq<Request>)
    requires forall i :: 0 <= i < |later| ==> !later[i].UpdateTitle?
    ensures ShownTitle(requests + later) == ShownTitle(requests)
  {
    if later != [] {
      var last := |later| - 1;
      var all := requests + later;
      assert all[|all| - 1] == later[last];
      assert all[..|all| - 1] == requests + later[..last];
      ShownTitleSkips(requests, later[..last]);
      assert ShownTitle(all) == ShownTitle(requests + later[..last]);
    } else {
      assert requests + later == requests;
    }
  }

  /** After `updateUserInterface` the window shows the title it computed. */
  lemma ShownTitleAfterUpdate(requests: seq<Request>, title: string, isEdited: bool)
    ensures ShownTitle(requests + [UpdateTitle(title), UpdateDocument(isEdited)]) == Some(title)
  {
  }

  /** One window's renderer state. `basename` and `markdownToHtml` stand for
      `path.basename` and the Markdown converter, which are not modelled. */
  class Session {
    const basename: string -> string
    const markdownToHtml: string -> string

    var filePath: Option<string>
    var originalContent: string
    var buffer: string
    var html: string
    var saveDisabled: bool
    var revertDisabled: bool
    var showFileDisabled: bool
    var openInDefaultDisabled: bool
    var requests: seq<Request>
    var alerts: seq<string>
    var shellCalls: seq<ShellCall>

    function View(): SessionView
      reads this
    {
      SessionView(filePath, originalContent, buffer, html, saveDisabled, revertDisabled,
                    showFileDisabled, openInDefaultDisabled, requests, alerts, shellCalls)
    }

    /** A fresh window: no path and an empty snapshot; the text area, the
        preview and each button start as the page declares them. */
    constructor (basename: string -> string, markdownToHtml: string -> string,
                 initialText: string, initialHtml: string,
                 saveDisabled: bool, revertDisabled: bool,
                 showFileDisabled: bool, openInDefaultDisabled: bool)
      ensures this.basename == basename && this.markdownToHtml == markdownToHtml
      ensures View() == SessionView(None, "", initialText, initialHtml,
                                      saveDisabled, revertDisabled, showFileDisabled, openInDefaultDisabled,
                                      [], [], [])
    {
      this.basename := basename;
      this.markdownToHtml := markdownToHtml;
      filePath := None;
      originalContent := "";
      buffer := initialText;
      html := initialHtml;
      this.saveDisabled, this.revertDisabled := saveDisabled, revertDisabled;
      this.showFileDisabled, this.openInDefaultDisabled := showFileDisabled, openInDefaultDisabled;
      requests, alerts, shellCalls := [], [], [];
    }

    /** The user types: the text area's own behaviour, before any handler runs. */
    method Input(text: string)
      modifies this
      ensures View() == old(View()).(buffer := text)
    {
      buffer := text;
    }

    /** `renderMarkdownToHtml`. */
    method RenderMarkdownToHtml(markdown: string)
      modifies this
      ensures View() == old(View()).(html := markdownToHtml(markdown))
    {
      html := markdownToHtml(markdown);
    }

    /** `updateUserInterface`: sends the title and the edited flag, and
        disables Save and Revert exactly when nothing is edited. */
    method UpdateUserInterface(isEdited: bool)
      modifies this
      ensures View() == AfterUpdateUserInterface(old(View()), isEdited, basename)
      ensures saveDisabled == revertDisabled == !isEdited
    {
      var title := AppTitle;
      if Truthy(filePath) {
        title := basename(filePath.value) + TitleSeparator + title;
      }
      if isEdited {
        title := title + EditedMarker;
      }
      requests := requests + [UpdateTitle(title), UpdateDocument(isEdited)];
      saveDisabled := !isEdited;
      revertDisabled := !isEdited;
    }

    /** `renderFile`. */
    method RenderFile(file: string, content: string)
      modifies this
      ensures View() == AfterRenderFile(old(View()), file, content, basename, markdownToHtml)
      ensures filePath == Some(file) && originalContent == content && buffer == content
      ensures ShowsEdited(View()) && saveDisabled
      ensures !showFileDisabled && !openInDefaultDisabled
      ensures ShownTitle(requests) == Some(Title(Some(file), false, basename))
    {
      filePath := Some(file);
      originalContent := content;
      buffer := content;
      RenderMarkdownToHtml(content);
      showFileDisabled := false;
      openInDefaultDisabled := false;
      ghost var before := requests;
      UpdateUserInterface(false);
      ShownTitleAfterUpdate(before, Title(Some(file), false, basename), false);
    }

    /** The `keyup` handler: re-renders, and reports the buffer as edited iff
        it differs from the snapshot. */
    method KeyUp()
      modifies this
      ensures View() == AfterUpdateUserInterface(old(View()).(html := markdownToHtml(old(buffer))),
                                                 old(buffer) != old(originalContent), basename)
      ensures ShowsEdited(View())
      ensures ShownTitle(requests) == Some(Title(filePath, buffer != originalContent, basename))
    {
      var currentContent := buffer;
      RenderMarkdownToHtml(currentContent);
      ghost var before := requests;
      UpdateUserInterface(currentContent != originalContent);
      ShownTitleAfterUpdate(before, Title(filePath, currentContent != originalContent, basename), currentContent != originalContent);
    }

    /** The Save button: asks for a save of the buffer and takes the buffer as
        the new snapshot; the title and the buttons are left as they were. */
    method ClickSaveMarkdown()
      modifies this
      ensures View() == old(View()).(requests := old(requests) + [SaveMarkdown(old(filePath), old(buffer))],
                                     originalContent := old(buffer))
    {
      requests := requests + [SaveMarkdown(filePath, buffer)];
      originalContent := buffer;
    }

    /** The Revert button: restores the snapshot into the buffer and the
        preview; the title and the buttons are left as they were. */
    method ClickRevert()
      modifies this
      ensures View() == old(View()).(buffer := old(originalContent), html := markdownToHtml(old(originalContent)))
    {
      buffer := originalContent;
      RenderMarkdownToHtml(originalContent);
    }

    /** The Export HTML button. */
    method ClickSaveHtml()
      modifies this
      ensures View() == old(View()).(requests := old(requests) + [SaveHtml(old(html))])
    {
      requests := requests + [SaveHtml(html)];
    }

    /** The New File button. */
    method ClickNewFile()
      modifies this
      ensures View() == old(View()).(requests := old(requests) + [CreateWindow])
    {
      requests := requests + [CreateWindow];
    }

    /** The Open File button. */
    method ClickOpenFile()
      modifies this
      ensures View() == old(View()).(requests := old(requests) + [GetFileFromUser])
    {
      requests := requests + [GetFileFromUser];
    }

    /** A right click in the text area. */
    method ContextMenu()
      modifies this
      ensures View() == old(View()).(requests := old(requests) + [ShowContextMenu])
    {
      requests := requests + [ShowContextMenu];
    }

    /** `showFile`: without a bound path only alerts; otherwise beeps and
        reveals the file. */
    method ShowFile()
      modifies this
      ensures !Truthy(old(filePath)) ==> View() == old(View()).(alerts := old(alerts) + [NotSavedInMessage])
      ensures Truthy(old(filePath)) ==>
        View() == old(View()).(shellCalls := old(shellCalls) + [Beep, ShowItemInFolder(old(filePath).value)])
    {
      if !Truthy(filePath) {
        alerts := alerts + [NotSavedInMessage];
        return;
      }
      shellCalls := shellCalls + [Beep, ShowItemInFolder(filePath.value)];
    }

    /** `openInDefaultApplication`: without a bound path only alerts;
        otherwise opens the file with the desktop's default application. */
    method OpenInDefaultApplication()
      modifies this
      ensures !Truthy(old(filePath)) ==> View() == old(View()).(alerts := old(alerts) + [NotSavedToMessage])
      ensures Truthy(old(filePath)) ==>
        View() == old(View()).(shellCalls := old(shellCalls) + [OpenPath(old(filePath).value)])
    {
      if !Truthy(filePath) {
        alerts := alerts + [NotSavedToMessage];
        return;
      }
      shellCalls := shellCalls + [OpenPath(filePath.value)];
    }

    /** The `file-opened` handler, with its parameters bound as
        `FileOpenedParams` binds them. The overwrite prompt is raised only when
        the buffer is edited and the incoming content differs from the
        snapshot; `answer` is the user's reply, which the handler never
        consults: it always goes on to `renderFile`. */
    method OnFileOpened(file: string, content: string, answer: bool)
      modifies this
      ensures var prompted := old(buffer) != old(originalContent) && old(originalContent) != content;
        var asked := if prompted
                     then old(View()).(requests := old(requests) + [ShowDialogMessage("warning", OverwriteTitle,
                                                       OverwriteMessage, ["Yes", "No"], 0, 1)])
                     else old(View());
        View() == AfterRenderFile(asked, file, content, basename, markdownToHtml)
      ensures filePath == Some(file) && originalContent == content && buffer == content
      ensures ShowsEdited(View())
      ensures ShownTitle(requests) == Some(Title(Some(file), false, basename))
    {
      if buffer != originalContent && originalContent != content {
        requests := requests + [ShowDialogMessage("warning", OverwriteTitle, OverwriteMessage, ["Yes", "No"], 0, 1)];
      }
      RenderFile(file, content);
    }

    /** The `drop` handler: the first dropped file is loaded when it is plain
        text or Markdown; no file, or any other type, only alerts. */
    method Drop(files: seq<DroppedFile>)
      modifies this
      ensures (files == [] || !FileTypeIsSupported(files[0])) ==>
        View() == old(View()).(alerts := old(alerts) + [UnsupportedTypeMessage])
      ensures files != [] && FileTypeIsSupported(files[0]) ==>
        View() == AfterRenderFile(old(View()), files[0].path, files[0].text, basename, markdownToHtml)
    {
      var file: Option<DroppedFile> := if files != [] then Some(files[0]) else None;
      if file.Some? && FileTypeIsSupported(file.value) {
        RenderFile(file.value.path, file.value.text);
      } else {
        alerts := alerts + [UnsupportedTypeMessage];
      }
    }

    /** The `render-markdown-html` handler. */
    method OnRenderMarkdownHtml()
      modifies this
      ensures View() == old(View()).(html := markdownToHtml(old(buffer)))
    {
      RenderMarkdownToHtml(buffer);
    }

    /** The `save-markdown` handler (the menu's Save File): asks for a save
        of the buffer but, unlike the Save button, keeps the old snapshot. */
    method OnSaveMarkdown()
      modifies this
      ensures View() == old(View()).(requests := old(requests) + [SaveMarkdown(old(filePath), old(buffer))])
    {
      requests := requests + [SaveMarkdown(filePath, buffer)];
    }

    /** The `save-html` handler (the menu's Export HTML). */
    method OnSaveHtml()
      modifies this
      ensures View() == old(View()).(requests := old(requests) + [SaveHtml(old(html))])
    {
      requests := requests + [SaveHtml(html)];
    }
  }

  /** The two titles a window bound to "/tmp/a.md" can show. */
  lemma TitlesOfA(basename: string -> string)
    requires basename("/tmp/a.md") == "a.md"
    ensures Title(Some("/tmp/a.md"), false, basename) == "a.md - Fire Sale"
    ensures Title(Some("/tmp/a.md"), true, basename) == "a.md - Fire Sale (Edited)"
  {
  }

  /** Open a file, edit it, save it, type again: the titles the window shows
      along the way. Saving sends no title, so "(Edited)" stays until the next
      key is released. */
  method OpenEditSaveTitles() returns (titles: seq<Option<string>>)
    ensures titles == [Some("a.md - Fire Sale"), Some("a.md - Fire Sale (Edited)"),
                       Some("a.md - Fire Sale (Edited)"), Some("a.md - Fire Sale")]
  {
    // Agrees with path.basename on the one path used here.
    var basename := (p: string) => if p == "/tmp/a.md" then "a.md" else p;
    TitlesOfA(basename);
    var s := new Session(basename, (m: string) => m, "", "", true, true, true, true);
    s.OnFileOpened("/tmp/a.md", "# Hi", true);
    assert s.filePath == Some("/tmp/a.md") && s.originalContent == "# Hi";
    var afterOpen := ShownTitle(s.requests);
    assert afterOpen == Some("a.md - Fire Sale");
    s.Input("# Hi!");
    s.KeyUp();
    assert s.filePath == Some("/tmp/a.md") && s.buffer == "# Hi!" && s.originalContent == "# Hi";
    var afterEdit := ShownTitle(s.requests);
    assert afterEdit == Some("a.md - Fire Sale (Edited)");
    ghost var before := s.requests;
    s.ClickSaveMarkdown();
    assert s.requests == before + [SaveMarkdown(Some("/tmp/a.md"), "# Hi!")];
    ShownTitleSkips(before, [SaveMarkdown(Some("/tmp/a.md"), "# Hi!")]);
    var afterSave := ShownTitle(s.requests);
    assert s.filePath == Some("/tmp/a.md") && s.buffer == "# Hi!" && s.originalContent == "# Hi!";
    s.KeyUp();
    var afterNextKey := ShownTitle(s.requests);
    titles := [afterOpen, afterEdit, afterSave, afterNextKey];
  }
}
