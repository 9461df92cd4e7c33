/** Behaviour that only shows when the renderer, the bridge, the menu and the
    main process are put together. */
module Scenarios {
  import opened Host
  import Preload
  import Renderer
  import ApplicationMenu
  import MainProcess

  /** The Save button takes the buffer as the new snapshot before the main
      process has written anything. When the save dialog is then cancelled,
      no file is written, yet the next key release reports the unsaved
      buffer as clean: the title loses its "(Edited)" marker and Save is
      disabled again. */
  method CancelledSaveShowsClean() returns (fileWritten: bool, shownTitle: Option<string>, saveDisabled: bool)
    ensures !fileWritten
    ensures shownTitle == Some(Renderer.AppTitle)
    ensures saveDisabled
  {
    var s := new Renderer.Session((p: string) => p, (m: string) => m, "", "", true, true, true, true);
    s.Input("draft");
    s.KeyUp();
    s.ClickSaveMarkdown();
    var request := s.requests[|s.requests| - 1];
    assert request == Renderer.SaveMarkdown(None, "draft");
    var main := new MainProcess.Controller(map[]);
    main.SaveMarkdown(0, request.filePath, request.content, MainProcess.SaveDialogResult(true, None));
    fileWritten := main.files != map[];
    s.KeyUp();
    shownTitle := Renderer.ShownTitle(s.requests);
    saveDisabled := s.saveDisabled;
  }

  /** Of the four File-menu commands that send to the focused window, only
      Save File and Export HTML use a channel the renderer can listen on;
      Show File and Open in Default Application send on channels the bridge
      refuses to register, so nothing ever hears them. */
  lemma MenuChannelsHeardIffSave(hasOneOrMoreWindows: bool, hasFilePath: bool, k: nat)
    requires k in {2, 3, 5, 6}
    ensures var command := ApplicationMenu.FileMenu(hasOneOrMoreWindows, hasFilePath).submenu.value[k].command;
      && command.SendToFocused?
      && (command.channel in Preload.ReceiveChannels <==> k in {2, 3})
  {
    var items := ApplicationMenu.FileMenu(hasOneOrMoreWindows, hasFilePath).submenu.value;
    assert items[5].command.channel == "show-file";
    assert items[6].command.channel == "open-in-default-application";
    assert forall i :: 0 <= i < |Preload.ReceiveChannels| ==>
      Preload.ReceiveChannels[i] != "show-file" && Preload.ReceiveChannels[i] != "open-in-default-application";
  }

  /** Registering a listener for a menu-only channel leaves the registry
      without one, so a message on that channel reaches no callback. */
  method ShowFileListenerRefused<C>(callback: C, event: Preload.IpcEvent)
    returns (delivered: seq<Preload.Call<C>>)
    ensures delivered == []
  {
    var registry := new Preload.Registry<C>();
    MenuChannelsHeardIffSave(true, true, 5);
    registry.On("show-file", callback);
    delivered := Preload.Emit(registry.ListenersOf("show-file"), event, []);
  }
}
