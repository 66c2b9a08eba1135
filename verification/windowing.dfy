/** The window manager of plotplayer/managers/window_manager.py: the window title and the
    visibility flag of the toolkit's navigation toolbar. */
module Windowing {
  import opened Toolkit

  const DefaultWindowTitle: string := "PlotPlayer"

  /** The title `set_window_title` puts on the window: the given one, or "PlotPlayer" for None. */
  function WindowTitle(title: Option<string>): (t: string)
    ensures title.None? ==> t == DefaultWindowTitle
    ensures title.Some? ==> t == title.value
  {
    match title
    case None => DefaultWindowTitle
    case Some(s) => s
  }

  class WindowManager {
    var toolbarVisible: bool

    /** By default the toolbar is shown. The toolkit calls made here (the title, packing the
        toolbar) are not recorded. */
    constructor (windowTitle: Option<string> := Some(DefaultWindowTitle), toolbarVisible: bool := true)
      ensures this.toolbarVisible == toolbarVisible
    {
      this.toolbarVisible := toolbarVisible;
    }

    function GetToolbarVisible(): (visible: bool)
      reads this
      ensures visible == toolbarVisible
    {
      toolbarVisible
    }

    /** `set_window_title`: changes only the window, never the manager. */
    method SetWindowTitle(windowTitle: Option<string>) returns (effects: seq<Effect>)
      ensures windowTitle.None? ==> effects == [SetTitle("PlotPlayer")]
      ensures windowTitle.Some? ==> effects == [SetTitle(windowTitle.value)]
    {
      effects := [SetTitle(WindowTitle(windowTitle))];
    }

    /** `set_toolbar_visible(b)`: the toolbar is packed or forgotten and the getter reports b. */
    method SetToolbarVisible(visible: bool) returns (effects: seq<Effect>)
      modifies this
      ensures GetToolbarVisible() == visible
      ensures effects == [ShowToolbar(visible)]
    {
      toolbarVisible := visible;
      effects := [ShowToolbar(visible)];
    }

    /** `toggle_toolbar`: the flag is negated, so two toggles restore it. */
    method ToggleToolbar() returns (effects: seq<Effect>)
      modifies this
      ensures GetToolbarVisible() == !old(GetToolbarVisible())
      ensures effects == [ShowToolbar(GetToolbarVisible())]
    {
      effects := SetToolbarVisible(!toolbarVisible);
    }
  }

  /** Toggling the toolbar twice leaves the flag as it was. */
  method ToggleToolbarTwiceRestores(w: WindowManager)
    modifies w
    ensures w.GetToolbarVisible() == old(w.GetToolbarVisible())
  {
    var first := w.ToggleToolbar();
    var second := w.ToggleToolbar();
  }
}
