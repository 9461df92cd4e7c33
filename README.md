# Fire Sale, modelled in Dafny

Fire Sale is a small multi-window Markdown editor built on Electron. This
project models the parts of it that are logic rather than glue. Each part is
stated in Dafny and proved.

- **Renderer session** (`renderer.dfy`, module `Renderer`). Each window holds
  three pieces of state: the bound file path (`filePath`), the last loaded or
  saved snapshot (`originalContent`) and the text buffer. The class `Session`
  also holds the derived state: the preview HTML, the four button `disabled`
  flags, and logs of the requests sent to the main process, the alerts shown
  and the shell calls made. Every event handler is a method, and its
  postcondition states the whole new state. The window title is a pure
  function. `ParseTitle` reads a title back, and `TitleRoundTrip` proves that
  the title determines exactly the shown file name and the "(Edited)" mark.
- **Preload bridge** (`preload.dfy`, module `Preload`). `Send` is the
  whitelist filter for outgoing messages. `Registry` is the listener table
  that `on` updates: it removes all listeners of the channel, then adds one
  wrapper that drops the event object. `Emit` delivers an incoming message to
  the listeners of its channel.
- **Application menu** (`application_menu.dfy`, module `ApplicationMenu`).
  The template is built from the number of windows, the focused window,
  `openFiles` and the platform. On darwin the template is then changed in
  place: the application submenu is put first, and the entry found by its
  "Window" label gets a role and two more items. Click handlers are a
  function from a command and the focused window to an effect.
- **Main process** (`main_process.dfy`, module `MainProcess`). The class
  `Controller` holds the `windows` set, the `openFiles` map, the part of the
  file system the process touches, and a log of outside effects. Its methods
  are `createWindow`, the `closed` handler, `stopWatchingFile`, `openFile`,
  `getFileFromUser` and the `save-markdown` and `save-html` handlers.
  Dialogs are given as their resolved results.
- **Scenarios** (`scenarios.dfy`, module `Scenarios`). Behaviour that shows
  only when the parts are combined: a save cancelled in the main process
  after the renderer has already taken the buffer as saved, and menu
  commands sent on channels the bridge never lets the renderer listen on.
- `host.dfy` (module `Host`) holds `Option`, window handles, points, the
  platform name, and JavaScript truthiness of a `string | null`. Truthiness
  matters: an empty path behaves like `null` in `if (filePath)` and
  `if (!file)`.

The Node.js `path.basename` and the `marked` converter are not modelled. A
`Session` receives them as function values when it is constructed.

## Model

| member | source | states |
|---|---|---|
| `Preload.Send` | src/preload.ts:13-22 | a message is forwarded iff its channel is one of the eight send channels, and it is forwarded with its channel and arguments unchanged |
| `Preload.OpenFileIsDropped` | src/preload.ts:14-19 | "open-file" is not a send channel, so the renderer can never reach the main process's open-file listener |
| `Preload.Invoke` | src/preload.ts:45 | the registered wrapper calls the callback with exactly the arguments that followed the event |
| `Preload.Emit` | src/preload.ts:45 | an incoming message reaches every listener of its channel in order, and each call carries the forwarded arguments |
| `Preload.EmitIgnoresEvent` | src/preload.ts:45 | what the callbacks receive does not depend on the event object |
| `Preload.Registry.RemoveAllListeners` | src/preload.ts:43 | the channel has no listeners left; other channels are unchanged |
| `Preload.Registry.AddListener` | src/preload.ts:45 | the listener is appended to its channel's list; other channels are unchanged |
| `Preload.Registry.On` | src/preload.ts:36-46 | for a receive channel, exactly one listener (wrapping `callback`) remains, and an emit calls `callback` once with the arguments; for any other channel the table is unchanged; a table with at most one listener per channel keeps that property |
| `Renderer.Title` | src/renderer.ts:42-50 | the title ends in " (Edited)" iff the document is edited, and it is exactly "Fire Sale" iff no path is bound and nothing is edited |
| `Renderer.TitleRoundTrip` | src/renderer.ts:42-50 | parsing the title gives back the base name of the bound path (none when unbound) and the edited flag, so the title is "Fire Sale" or "<basename> - Fire Sale", followed by " (Edited)" iff edited |
| `Renderer.FileTypeIsSupported` | src/renderer.ts:165-167 | a file is accepted iff its MIME type is "text/plain" or "text/markdown" |
| `Renderer.ParamAt` | src/renderer.ts:113 | a callback parameter is bound to the argument at its position, and is undefined past the end of the arguments |
| `Renderer.FileOpenedParamsShifted` | src/renderer.ts:113 | with the handler declared `(event, file, content)` and the event already dropped by the bridge, `file` receives the content and `content` is undefined |
| `Renderer.FileOpenedParamsRoundTrip` | src/renderer.ts:113 | with the parameters bound from the first delivered argument, the handler receives exactly the path and content the main process sent |
| `Renderer.RenderFileBindsAndCleans` | src/renderer.ts:29-40 | after `renderFile` the path is bound, the buffer and snapshot both hold the content, Save and Revert are disabled, the show-file buttons are enabled, and the title sent names the file without " (Edited)" |
| `Renderer.ShownTitle` | src/main.ts:215-220 | the window shows no title iff no update-title was ever sent, and otherwise a title that was sent |
| `Renderer.ShownTitleSkips` | src/main.ts:215-220 | requests that are not update-title leave the shown title unchanged |
| `Renderer.ShownTitleAfterUpdate` | src/renderer.ts:52-53 | after an update-title and an update-document the window shows the title just sent |
| `Renderer.OpenEditSaveTitles` | src/renderer.ts:59-89 | opening a.md, typing, then saving shows "a.md - Fire Sale", then "a.md - Fire Sale (Edited)", and the edited title remains after Save until the next keyup clears it |
| `Renderer.Session.constructor` | src/renderer.ts:17-18 | a new session has no path, an empty snapshot, and empty request, alert and shell logs; the text, the preview and each button flag are as given |
| `Renderer.Session.Input` | src/renderer.ts:62 | typing changes the buffer and nothing else |
| `Renderer.Session.RenderMarkdownToHtml` | src/renderer.ts:20-22 | only the preview changes, to the converter's output |
| `Renderer.Session.UpdateUserInterface` | src/renderer.ts:42-57 | sends the title and then the edited flag; Save and Revert are disabled exactly when not edited; nothing else changes |
| `Renderer.Session.RenderFile` | src/renderer.ts:29-40 | binds path, snapshot and buffer to the file, enables the show-file buttons, and leaves a consistent clean state whose shown title names the file |
| `Renderer.Session.KeyUp` | src/renderer.ts:59-65 | re-renders the buffer and reports it as edited iff it differs from the snapshot, so the buttons and the shown title agree with the buffer |
| `Renderer.Session.ClickSaveMarkdown` | src/renderer.ts:81-84 | requests a save of the current path and buffer, and makes the buffer the snapshot; the path, the title and the buttons do not change |
| `Renderer.Session.ClickRevert` | src/renderer.ts:86-89 | puts the snapshot back into the buffer and the preview; the title and the buttons do not change |
| `Renderer.Session.ClickSaveHtml` | src/renderer.ts:91-93 | requests an HTML save of the current preview; nothing else changes |
| `Renderer.Session.ClickNewFile` | src/renderer.ts:72-75 | requests a new window; nothing else changes |
| `Renderer.Session.ClickOpenFile` | src/renderer.ts:77-79 | requests the open dialog; nothing else changes |
| `Renderer.Session.ContextMenu` | src/renderer.ts:67-70 | requests the context menu; nothing else changes |
| `Renderer.Session.ShowFile` | src/renderer.ts:95-101 | with no bound path (null or empty) it only alerts; otherwise it beeps and reveals the path, and makes no other change |
| `Renderer.Session.OpenInDefaultApplication` | src/renderer.ts:103-108 | with no bound path it only alerts; otherwise it opens the path, and makes no other change |
| `Renderer.Session.OnFileOpened` | src/renderer.ts:113-131 | the overwrite prompt is requested iff the buffer differs from the snapshot and the snapshot differs from the incoming content; whatever the answer, the handler ends in `renderFile` |
| `Renderer.Session.Drop` | src/renderer.ts:185-199 | with no dropped file, or an unsupported one, it only alerts and path, snapshot and buffer are unchanged; otherwise it renders the first file's path and text |
| `Renderer.Session.OnRenderMarkdownHtml` | src/renderer.ts:24-27 | re-renders the buffer into the preview; nothing else changes |
| `Renderer.Session.OnSaveMarkdown` | src/renderer.ts:205-207 | requests a save of the current path and buffer but keeps the old snapshot |
| `Renderer.Session.OnSaveHtml` | src/renderer.ts:209-211 | requests an HTML save of the current preview; nothing else changes |
| `ApplicationMenu.HasFilePath` | src/application-menu.ts:7-10 | false with no window; with a window, true iff `openFiles` has an entry for it |
| `ApplicationMenu.FindByLabel` | src/application-menu.ts:206 | returns the first entry labelled `wanted`, or none if no entry is; a separator has no label and matches nothing |
| `ApplicationMenu.FileMenuEnabledAsStated` | src/application-menu.ts:38-92 | the File menu lists its seven entries in order; Save File and Export HTML are enabled iff a window exists, Show File and Open in Default Application iff the focused window has a file, and the rest always |
| `ApplicationMenu.BaseTemplateShape` | src/application-menu.ts:12-163 | the template has exactly File, Edit, Window, Help in that order, with the File-menu enablement above |
| `ApplicationMenu.DarwinShape` | src/application-menu.ts:167 | putting the application submenu first gives Firesale, File, Edit, Window, Help |
| `ApplicationMenu.DarwinSubmenus` | src/application-menu.ts:165-214 | the darwin Window submenu reads Minimize, Close, separator, Bring All to Front, and the application submenu ends with "Quit Firesale" |
| `ApplicationMenu.AddDarwinEntries` | src/application-menu.ts:165-214 | the application submenu is first; the Window entry gets the "window" role and the two extra items; File, Edit and Help are unchanged |
| `ApplicationMenu.CreateApplicationMenu` | src/application-menu.ts:4-217 | off darwin the template is exactly File, Edit, Window, Help; on darwin it is Firesale, File, Edit, Window, Help, with the darwin additions and nothing else changed; the File menu is enabled as stated above |
| `ApplicationMenu.FileMenuAsWritten` | src/application-menu.ts:67-92 | as written, Show File and Open in Default Application receive the function `hasFilePath` itself, which is truthy, so both are enabled in every File menu |
| `ApplicationMenu.DocumentItemsEnabledWithoutDocument` | src/application-menu.ts:67-92 | with no focused window, the as-written menu enables both document items although a click on either only shows an error box; the evaluated menu disables both |
| `ApplicationMenu.Click` | src/application-menu.ts:19-159 | a command for the focused window shows its error box iff no window is focused, and otherwise sends its channel to that window; Open File prompts on the focused window, or creates a window and prompts once it is shown |
| `ApplicationMenu.FileMenuClicks` | src/application-menu.ts:38-91 | Save File, Export HTML, Show File and Open in Default Application send save-markdown, save-html, show-file and open-in-default-application to the focused window, and show an error box without one |
| `MainProcess.NewWindowPosition` | src/main.ts:34-59 | a position is requested iff a window is focused, and it is 20 pixels right of and below that window |
| `MainProcess.CascadeIsDiagonal` | src/main.ts:34-37 | opening k windows, each from the one before, puts the last at the origin plus (20k, 20k) |
| `MainProcess.ChosenOpenPath` | src/main.ts:137-139 | a path is used iff the dialog was not cancelled and returned at least one path, and it is the first path |
| `MainProcess.ChosenSavePath` | src/main.ts:178-180 | a path is used iff the dialog was not cancelled and returned a non-empty path, and it is that path |
| `MainProcess.Controller.constructor` | src/main.ts:19-20 | no windows and no tracked files at start |
| `MainProcess.Controller.CreateWindow` | src/main.ts:27-88 | a window not yet registered is added to `windows` at the position `NewWindowPosition` gives; `openFiles` and the files are unchanged |
| `MainProcess.Controller.Closed` | src/main.ts:75-81 | the window leaves `windows` and the menu is rebuilt; `openFiles` is unchanged |
| `MainProcess.Controller.StopWatchingFile` | src/main.ts:292-297 | afterwards `openFiles` has no entry for the window and nothing else is removed; with no entry there, nothing changes at all, so a second call is a no-op |
| `MainProcess.Controller.OpenFile` | src/main.ts:160-166 | a readable file is added to recent documents and sent to the window with its current content, then the menu is rebuilt; an unreadable one changes nothing |
| `MainProcess.Controller.GetFileFromUser` | src/main.ts:121-154 | only a non-cancelled, non-empty choice is read; its first path's content is sent on file-opened and the menu is rebuilt; an unreadable file is only logged |
| `MainProcess.Controller.SaveMarkdown` | src/main.ts:168-193 | with a path it writes the content there and does nothing else; without one, a cancelled or empty dialog answer writes nothing and reopens nothing; otherwise it writes to the chosen path and reopens it, sending back exactly the content written |
| `MainProcess.Controller.SaveHtml` | src/main.ts:195-209 | writes the content to the chosen path, or nothing when the dialog was cancelled or gave no path |
| `Scenarios.CancelledSaveShowsClean` | src/renderer.ts:81-84 | after typing, pressing Save and cancelling the save dialog, no file is written, yet the next key release shows the plain "Fire Sale" title and disables Save |
| `Scenarios.MenuChannelsHeardIffSave` | src/application-menu.ts:38-91 | of the File menu's four commands for the focused window, the channel is one the renderer may listen on iff the command is Save File or Export HTML |
| `Scenarios.ShowFileListenerRefused` | src/preload.ts:36-46 | a listener registered for "show-file" is never kept, so a message on that channel reaches no callback |

No method in `MainProcess.Controller` inserts into `openFiles`. Every
postcondition keeps it unchanged, except `StopWatchingFile`, which removes
one key.

## Behaviour of the code worth knowing

The model follows the code in each of these cases.

- Save and Revert do not update the title or the buttons. After either one,
  the window keeps showing its previous edited state until the next keyup or
  file load (`OpenEditSaveTitles`).
- The Save button takes the buffer as the new snapshot before the main
  process has written anything. If the save dialog is then cancelled, the
  next keyup reports the unsaved buffer as clean
  (`Scenarios.CancelledSaveShowsClean`).
- The menu's Save File reaches the renderer as `save-markdown`. That handler
  sends the buffer for saving but does not take it as the new snapshot. Only
  the Save button does.
- Saving to an existing path writes and does nothing else. Saving through
  the dialog reopens the written file.
- The answer to the overwrite prompt is never consulted, because the check
  that would use it is commented out.
- No code starts a file watch or inserts into `openFiles`. The `closed`
  handler does not call `stopWatchingFile`, so a closed window's entry, had
  there been one, would stay in `openFiles`. As a consequence, the evaluated
  `hasFilePath` of the File menu is never true.
- The menu's Show File and Open in Default Application send "show-file" and
  "open-in-default-application". The renderer registers no listener for
  either, and the bridge would refuse one, so these items do nothing
  (`Scenarios.MenuChannelsHeardIffSave`, `Scenarios.ShowFileListenerRefused`).
- The Minimize item spells its accelerator key `accellerator`, so the
  template gives it no accelerator, and neither does the model. Any shortcut
  the framework supplies for the "minimize" role is outside this model.

## Findings

| source | as written | input that shows it | evidently intended | confidence | as-written member | corrected member |
|---|---|---|---|---|---|---|
| src/renderer.ts:113 | the "file-opened" handler is declared `(event, file, content)`, but `on` (src/preload.ts:45) has already dropped the event before calling it | the main process sends "file-opened" with "/tmp/a.md" and "# Hi": the handler binds `file` to "# Hi" and `content` to undefined | declare the handler `(file, content)` so it receives the path and the content | high; not executed | `Renderer.FileOpenedParamsShifted` (binding `Renderer.FileOpenedParamsAsWritten`) | `Renderer.FileOpenedParamsRoundTrip` (binding `Renderer.FileOpenedParams`, which `Renderer.Session.OnFileOpened` assumes) |
| src/application-menu.ts:69, 82 | Show File and Open in Default Application get `enabled: hasFilePath`, the function itself, which is never called; a function object is truthy | no window is focused and no file is tracked: both items are enabled, and a click on either only shows an error box | evaluate `hasFilePath` at the focused window, enabling the items iff that window has a tracked file | medium; not executed | `ApplicationMenu.DocumentItemsEnabledWithoutDocument` (menu `ApplicationMenu.FileMenuAsWritten`) | `ApplicationMenu.CreateApplicationMenu` (enablement `ApplicationMenu.FileMenuEnablement` with `ApplicationMenu.HasFilePath`) |

The "file-changed" handler (src/renderer.ts:133) is declared the same way.

## Left out

- The "file-changed" handler (src/renderer.ts:133-146) is not modelled. No code starts a watch or sends that message.
- The renderer calls `sendIPC`, but the bridge exposes `send`. The model does not reconcile the two names. Renderer requests are an abstract log (`Session.requests`) and are not routed through `Preload.Send`.
- The HTML page is not part of this model. A session's initial text, initial preview and the initial state of each button are constructor parameters.
- `path.basename` and the `marked` converter are external libraries. They are constructor-supplied function values with no properties assumed.
- Asynchrony is not modelled. Dialog results are method parameters, as if the promise had already resolved. The file reader of a drop completes at once. Promise ordering, and races between a save and a watch callback, are out of scope.
- File-system writes never fail in the model, because `writeFileSync` errors are not modelled. A read fails exactly when the path has no entry in `Controller.files`.
- The `open-file` listener (src/main.ts:156-158) appears only through `Controller.OpenFile`. `Preload.Send` drops that channel, so the renderer never reaches it.
- `MainProcess.Controller.CreateWindow` does not model the position the platform picks when no window is focused, nor the window's page loading, showing or developer tools.
- The `update-title`, `update-document` and `show-dialog-message` handlers (src/main.ts:215-244) are native window calls. The model keeps only the shown title (`Renderer.ShownTitle`). The dialog's answer is computed but never reaches the renderer.
- The context menu (src/main.ts:246-290), the app-level events (src/main.ts:93-113) and the drag-over styling (src/renderer.ts:169-183) are framework plumbing. They are left out.
- src/electron.d.ts holds type declarations only.
