/** The application menu: a template rebuilt from scratch on every relevant
    event, from whether any window is open, the focused window and its
    tracked file, and the platform. */
module ApplicationMenu {
  import opened Host

  const AppName: string := "Firesale"

  /** What an item's click handler does. */
  datatype Command =
    | NoCommand                    // a submenu header, a role item or a separator
    | NewFile
    | OpenFile
    | SendToFocused(channel: string, errorTitle: string, errorMessage: string)
    | VisitWebsite                 // its handler is still empty
    | ToggleDevTools
    | Quit

  /** One template entry. `enabled` is true where the template leaves it
      out; `accelerator` is `None` where the template has none under that key. */
  datatype MenuItem =
    | Separator
    | Item(text: string, accelerator: Option<string>, role: Option<string>, enabled: bool,
           command: Command, submenu: Option<seq<MenuItem>>)

  /** `item.label === wanted`: a separator has no label, so it matches nothing. */
  predicate LabelledAs(item: MenuItem, wanted: string)
  {
    item.Item? && item.text == wanted
  }

  /** The label an item displays; a separator shows none and reads as "". */
  function Label(item: MenuItem): string
  {
    if item.Item? then item.text else ""
  }

  /** The labels of a menu level, in order (a separator reads as ""). */
  function Labels(items: seq<MenuItem>): (labels: seq<string>)
    ensures |labels| == |items|
    ensures forall i :: 0 <= i < |items| ==> labels[i] == Label(items[i])
  {
    if items == [] then [] else [Label(items[0])] + Labels(items[1..])
  }

  /** `hasFilePath`: a window is given and the main process tracks a file for it. */
  function HasFilePath(window: Option<WindowId>, openFiles: map<WindowId, string>): (has: bool)
    ensures has ==> window.Some?
    ensures window.Some? ==> (has <==> window.value in openFiles)
  {
    if window.None? then false else window.value in openFiles
  }

  const SaveExportErrorTitle: string := "Cannot Save or Export"
  const SaveExportErrorMessage: string := "There is currently no active document to save or export."

  function FileMenu(hasOneOrMoreWindows: bool, hasFilePath: bool): MenuItem
  {
    Item("File", None, None, true, NoCommand, Some([
      Item("New File", Some("CommandOrControl+N"), None, true, NewFile, None),
      Item("Open File", Some("CommandOrControl+O"), None, true, OpenFile, None),
      Item("Save File", Some("CommandOrControl+S"), None, hasOneOrMoreWindows,
           SendToFocused("save-markdown", SaveExportErrorTitle, SaveExportErrorMessage), None),
      Item("Export HTML", Some("Shift+CommandOrControl+S"), None, hasOneOrMoreWindows,
           SendToFocused("save-html", SaveExportErrorTitle, SaveExportErrorMessage), None),
      Separator,
      Item("Show File", None, None, hasFilePath,
           SendToFocused("show-file", "Cannot Show File's Location",
                         "There is currently no active document to show."), None),
      Item("Open in Default Application", None, None, hasFilePath,
           SendToFocused("open-in-default-application", "Cannot Open File in Default Application",
                         "There is currently no active document to open."), None)
    ]))
  }

  function RoleItem(text: string, accelerator: Option<string>, role: string): MenuItem
  {
    Item(text, accelerator, Some(role), true, NoCommand, None)
  }

  const EditMenu: MenuItem :=
    Item("Edit", None, None, true, NoCommand, Some([
      RoleItem("Undo", Some("CommandOrControl+Z"), "undo"),
      RoleItem("Redo", Some("Shift+CommandOrControl+Z"), "redo"),
      RoleItem("Cut", Some("CommandOrControl+X"), "cut"),
      RoleItem("Copy", Some("CommandOrControl+C"), "copy"),
      RoleItem("Paste", Some("CommandOrControl+V"), "paste"),
      RoleItem("Select All", Some("CommandOrControl+A"), "selectall")
    ]))

  /** Minimize's shortcut sits under a misspelt key, so it has none. */
  const WindowMenu: MenuItem :=
    Item("Window", None, None, true, NoCommand, Some([
      RoleItem("Minimize", None, "minimize"),
      RoleItem("Close", Some("CommandOrControl+W"), "close")
    ]))

  const HelpMenu: MenuItem :=
    Item("Help", None, Some("help"), true, NoCommand, Some([
      Item("Visit Website", None, None, true, VisitWebsite, None),
      Item("Toggle Developer Tools", None, None, true, ToggleDevTools, None)
    ]))

  /** The template before the platform branch. */
  function BaseTemplate(hasOneOrMoreWindows: bool, hasFilePath: bool): seq<MenuItem>
  {
    [FileMenu(hasOneOrMoreWindows, hasFilePath), EditMenu, WindowMenu, HelpMenu]
  }

  /** The application submenu darwin puts first. */
  const DarwinAppMenu: MenuItem :=
    Item(AppName, None, None, true, NoCommand, Some([
      RoleItem("About " + AppName, None, "about"),
      Separator,
      Item("Services", None, Some("services"), true, NoCommand, Some([])),
      Separator,
      RoleItem("Hide " + AppName, Some("Command+H"), "hide"),
      RoleItem("Hide Others", Some("Command+Alt+H"), "hideothers"),
      RoleItem("Show All", None, "unhide"),
      Separator,
      Item("Quit " + AppName, Some("Command+Q"), None, true, Quit, None)
    ]))

  /** What darwin appends to the Window submenu. */
  const DarwinWindowExtras: seq<MenuItem> := [Separator, RoleItem("Bring All to Front", None, "front")]

  /** `template.find(item => item.label === wanted)`: the first entry with
      that label, or `None`. */
  method FindByLabel(template: seq<MenuItem>, wanted: string) returns (index: Option<nat>)
    ensures index.Some? ==> index.value < |template| && LabelledAs(template[index.value], wanted)
    ensures index.Some? ==> forall j :: 0 <= j < index.value ==> !LabelledAs(template[j], wanted)
    ensures index.None? ==> forall j :: 0 <= j < |template| ==> !LabelledAs(template[j], wanted)
  {
    var i := 0;
    while i < |template|
      invariant 0 <= i <= |template|
      invariant forall j :: 0 <= j < i ==> !LabelledAs(template[j], wanted)
    {
      if template[i].Item? && template[i].text == wanted {
        return Some(i);
      }
      i := i + 1;
    }
    return None;
  }

  /** Save File and Export HTML are enabled iff a window is open; Show File
      and Open in Default Application iff the focused window has a tracked
      file; everything else in the File menu always. */
  predicate FileMenuEnablement(file: MenuItem, hasOneOrMoreWindows: bool, hasFilePath: bool)
  {
    && file.Item? && file.text == "File" && file.submenu.Some?
    && Labels(file.submenu.value)
       == ["New File", "Open File", "Save File", "Export HTML", "", "Show File", "Open in Default Application"]
    && forall item | item in file.submenu.value && item.Item? ::
         item.enabled == if item.text in ["Save File", "Export HTML"] then hasOneOrMoreWindows
                         else if item.text in ["Show File", "Open in Default Application"] then hasFilePath
                         else true
  }

  lemma FileMenuEnabledAsStated(hasOneOrMoreWindows: bool, hasFilePath: bool)
    ensures FileMenuEnablement(FileMenu(hasOneOrMoreWindows, hasFilePath), hasOneOrMoreWindows, hasFilePath)
  {
    var items := FileMenu(hasOneOrMoreWindows, hasFilePath).submenu.value;
    assert Labels(items) == ["New File", "Open File", "Save File", "Export HTML", "", "Show File", "Open in Default Application"];
  }

  lemma BaseTemplateShape(hasOneOrMoreWindows: bool, hasFilePath: bool)
    ensures Labels(BaseTemplate(hasOneOrMoreWindows, hasFilePath)) == ["File", "Edit", "Window", "Help"]
    ensures FileMenuEnablement(BaseTemplate(hasOneOrMoreWindows, hasFilePath)[0], hasOneOrMoreWindows, hasFilePath)
  {
    FileMenuEnabledAsStated(hasOneOrMoreWindows, hasFilePath);
  }

  lemma DarwinShape(base: seq<MenuItem>)
    requires Labels(base) == ["File", "Edit", "Window", "Help"]
    ensures Labels([DarwinAppMenu] + base) == [AppName, "File", "Edit", "Window", "Help"]
  {
  }

  lemma DarwinSubmenus()
    ensures Labels(WindowMenu.submenu.value + DarwinWindowExtras) == ["Minimize", "Close", "", "Bring All to Front"]
    ensures |DarwinAppMenu.submenu.value| == 9
    ensures Labels(DarwinAppMenu.submenu.value)[8] == "Quit " + AppName
  {
  }

  /** The darwin branch of `createApplicationMenu`, applied to the template
      built so far: the application submenu goes first, and the entry
      labelled "Window" gets the window role and two more items. */
  method AddDarwinEntries(base: seq<MenuItem>) returns (template: seq<MenuItem>)
    requires Labels(base) == ["File", "Edit", "Window", "Help"]
    requires base[2].Item? && base[2].submenu.Some?
    ensures Labels(template) == [AppName, "File", "Edit", "Window", "Help"]
    ensures template[0] == DarwinAppMenu
    ensures template[1] == base[0] && template[2] == base[1] && template[4] == base[3]
    ensures template[3] == base[2].(role := Some("window"), submenu := Some(base[2].submenu.value + DarwinWindowExtras))
  {
    template := [DarwinAppMenu] + base;
    DarwinShape(base);
    var found := FindByLabel(template, "Window");
    assert found == Some(3) by {
      assert LabelledAs(template[3], "Window");
      if found.Some? {
        assert Labels(template)[found.value] == "Window";
      }
    }
    var windowMenu := template[found.value];
    windowMenu := windowMenu.(role := Some("window"));
    windowMenu := windowMenu.(submenu := Some(windowMenu.submenu.value + DarwinWindowExtras));
    ghost var unshifted := template;
    template := template[found.value := windowMenu];
    assert Labels(template) == [AppName, "File", "Edit", "Window", "Help"] by {
      assert forall i :: 0 <= i < 5 ==> Label(template[i]) == Label(unshifted[i]);
    }
  }

  /** `createApplicationMenu`: the template handed to `Menu.buildFromTemplate`. */
  method CreateApplicationMenu(windowCount: nat, focused: Option<WindowId>,
                               openFiles: map<WindowId, string>, platform: Platform)
    returns (template: seq<MenuItem>)
    ensures platform != Darwin ==> template == BaseTemplate(windowCount > 0, HasFilePath(focused, openFiles))
    ensures platform != Darwin ==> Labels(template) == ["File", "Edit", "Window", "Help"]
    ensures platform == Darwin ==> Labels(template) == [AppName, "File", "Edit", "Window", "Help"]
    ensures platform == Darwin ==>
      var base := BaseTemplate(windowCount > 0, HasFilePath(focused, openFiles));
      && template[0] == DarwinAppMenu
      && template[1] == base[0] && template[2] == base[1] && template[4] == base[3]
      && template[3] == base[2].(role := Some("window"), submenu := Some(base[2].submenu.value + DarwinWindowExtras))
    ensures platform == Darwin ==>
      Labels(template[0].submenu.value)[|template[0].submenu.value| - 1] == "Quit " + AppName
    ensures platform == Darwin ==>
      Labels(template[3].submenu.value) == ["Minimize", "Close", "", "Bring All to Front"]
    ensures FileMenuEnablement(template[if platform == Darwin then 1 else 0],
                               windowCount > 0, HasFilePath(focused, openFiles))
  {
    var hasOneOrMoreWindows := windowCount != 0;
    var hasFilePath := HasFilePath(focused, openFiles);
    template := BaseTemplate(hasOneOrMoreWindows, hasFilePath);
    BaseTemplateShape(hasOneOrMoreWindows, hasFilePath);
    if platform == Darwin {
      template := AddDarwinEntries(template);
      DarwinSubmenus();
    }
  }

  /** The File menu as the template literally builds it: `enabled: hasFilePath`
      hands over the function itself, which is never called, and a function
      object is truthy, so Show File and Open in Default Application are
      enabled whatever the focused window tracks. `CreateApplicationMenu`
      evaluates the function at the focused window instead. */
  function FileMenuAsWritten(hasOneOrMoreWindows: bool): (file: MenuItem)
    ensures FileMenuEnablement(file, hasOneOrMoreWindows, true)
  {
    FileMenuEnabledAsStated(hasOneOrMoreWindows, true);
    FileMenu(hasOneOrMoreWindows, true)
  }

  /** What a click on an item does, given the focused window. */
  datatype Effect =
    | NoEffect
    | CreateWindow
    | PromptForFile(window: WindowId)   // getFileFromUser on that window
    | CreateWindowThenPrompt            // a new window, prompted once it is shown
    | ErrorBox(title: string, message: string)
    | SendTo(window: WindowId, channel: string)
    | ToggleDevToolsOf(window: WindowId)
    | QuitApp

  /** The click handlers of the template's items. */
  function Click(command: Command, focused: Option<WindowId>): (effect: Effect)
    ensures command.SendToFocused? ==>
      (focused.None? <==> effect == ErrorBox(command.errorTitle, command.errorMessage))
    ensures command.SendToFocused? && focused.Some? ==> effect == SendTo(focused.value, command.channel)
    ensures command == OpenFile ==>
      effect == if focused.Some? then PromptForFile(focused.value) else CreateWindowThenPrompt
    ensures effect.SendTo? || effect.PromptForFile? || effect.ToggleDevToolsOf? ==> focused.Some?
  {
    match command
    case NoCommand => NoEffect
    case NewFile => CreateWindow
    case OpenFile => if focused.Some? then PromptForFile(focused.value) else CreateWindowThenPrompt
    case SendToFocused(channel, title, message) =>
      if focused.None? then ErrorBox(title, message) else SendTo(focused.value, channel)
    case VisitWebsite => NoEffect
    case ToggleDevTools => if focused.Some? then ToggleDevToolsOf(focused.value) else NoEffect
    case Quit => QuitApp
  }

  /** Each File-menu command that needs a document sends its own channel to
      the focused window, and with no focused window shows an error box and
      sends nothing. */
  lemma FileMenuClicks(hasOneOrMoreWindows: bool, hasFilePath: bool, focused: Option<WindowId>, k: nat)
    requires k in {2, 3, 5, 6}
    ensures var item := FileMenu(hasOneOrMoreWindows, hasFilePath).submenu.value[k];
      var channel := ["", "", "save-markdown", "save-html", "", "show-file", "open-in-default-application"][k];
      && (focused.None? ==> Click(item.command, focused).ErrorBox?)
      && (focused.Some? ==> Click(item.command, focused) == SendTo(focused.value, channel))
  {
  }

  /** With no focused window, the File menu as written still offers Show File
      and Open in Default Application, though a click on either can only show
      an error box; evaluated at the focused window, both are disabled. */
  lemma DocumentItemsEnabledWithoutDocument(hasOneOrMoreWindows: bool, openFiles: map<WindowId, string>)
    ensures var items := FileMenuAsWritten(hasOneOrMoreWindows).submenu.value;
      && items[5].enabled && items[6].enabled
      && Click(items[5].command, None).ErrorBox? && Click(items[6].command, None).ErrorBox?
    ensures var items := FileMenu(hasOneOrMoreWindows, HasFilePath(None, openFiles)).submenu.value;
      !items[5].enabled && !items[6].enabled
  {
  }
}
