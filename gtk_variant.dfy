/**
 * The GTK/WebKit variant of the wrapper: one window, a status icon whose
 * click toggles the window, a popup menu built on every right click, and
 * Gtk.main_quit as the only way out of the main loop.
 */
module GtkVariant {

  const VERSION: string := "1.0.0"
  const HFC_URL: string := "https://www.oref.org.il/eng/alerts-history"
  const TITLE: string := "HFC Alerts (Unofficial) v" + VERSION
  const ICON_PATH: string := "assets/icon.png"
  const STOCK_INFO: string := "gtk-info"

  /** Where the status icon's image comes from. */
  datatype IconSource = FromFile(path: string) | FromStock(stockId: string)

  /** The status icon uses the bundled image if present, the stock info icon otherwise. */
  function TrayIcon(iconExists: bool): (r: IconSource)
    ensures r.FromFile? <==> iconExists
    ensures r.FromFile? ==> r.path == ICON_PATH
    ensures r.FromStock? ==> r.stockId == STOCK_INFO
  {
    if iconExists then FromFile(ICON_PATH) else FromStock(STOCK_INFO)
  }

  /** The window icon: the bundled image if present, the toolkit's default otherwise. */
  datatype WindowIcon = DefaultIcon | IconFile(path: string)

  function WindowIconFor(iconExists: bool): (r: WindowIcon)
    ensures r.IconFile? <==> iconExists
    ensures r.IconFile? ==> r.path == ICON_PATH
  {
    if iconExists then IconFile(ICON_PATH) else DefaultIcon
  }

  /** The callbacks the buttons and popup menu items are connected to. */
  datatype Handler = ToggleWindow | RefreshPage | OpenInBrowser | QuitApp

  /** A button under the view, with the callback its "clicked" signal runs. */
  datatype WindowButton = WindowButton(caption: string, handler: Handler)

  /** The buttons packed under the view, left to right. */
  function WindowButtons(): seq<WindowButton>
  {
    [ WindowButton("Open in Browser", OpenInBrowser), WindowButton("Refresh", RefreshPage) ]
  }

  datatype MenuItem = Item(caption: string, handler: Handler) | Separator

  /** The popup menu, in the order its items are appended. */
  function TrayPopupMenu(): seq<MenuItem>
  {
    [ Item("Show/Hide", ToggleWindow), Item("Refresh", RefreshPage),
      Item("Open in Browser", OpenInBrowser), Separator, Item("Quit", QuitApp) ]
  }

  /** Calls into GTK, WebKit and the desktop, recorded rather than performed. */
  datatype Effect =
    | LoadUri(url: string)    // WebView.load_uri
    | PresentWindow           // Window.present after show
    | OpenUrl(url: string)    // webbrowser.open
    | ReloadWebview           // WebView.reload

  /** `visible` is the window's visibility; `mainQuit` records that Gtk.main_quit was called. */
  datatype AppState = AppState(visible: bool, mainQuit: bool)

  datatype Outcome = Outcome(state: AppState, effects: seq<Effect>)

  /** The signals the application connects a handler to. */
  datatype Event =
    | DeleteEvent
    | TrayActivate
    | MenuActivate(index: nat)   // activation of entry `index` of TrayPopupMenu()
    | ButtonClicked(index: nat)  // a click on button `index` of WindowButtons()

  /** The run of one connected callback. */
  function Dispatch(s: AppState, h: Handler): (r: Outcome)
    ensures r.state.mainQuit == (s.mainQuit || h == QuitApp)
  {
    match h
    case ToggleWindow =>
      if s.visible then Outcome(s.(visible := false), []) else Outcome(s.(visible := true), [PresentWindow])
    case RefreshPage => Outcome(s, [ReloadWebview])
    case OpenInBrowser => Outcome(s, [OpenUrl(HFC_URL)])
    case QuitApp => Outcome(s.(mainQuit := true), [])
  }

  predicate IsQuitItem(i: nat)
  {
    i < |TrayPopupMenu()| && TrayPopupMenu()[i].Item? && TrayPopupMenu()[i].handler == QuitApp
  }

  function Step(s: AppState, e: Event): (r: Outcome)
    ensures r.state.mainQuit == (s.mainQuit || (e.MenuActivate? && IsQuitItem(e.index)))
  {
    match e
    case DeleteEvent => Outcome(s.(visible := false), [])
    case TrayActivate => Dispatch(s, ToggleWindow)
    case MenuActivate(i) =>
      var menu := TrayPopupMenu();
      if i < |menu| && menu[i].Item? then Dispatch(s, menu[i].handler) else Outcome(s, [])
    case ButtonClicked(i) =>
      if i < |WindowButtons()| then Dispatch(s, WindowButtons()[i].handler) else Outcome(s, [])
  }

  function Run(s: AppState, evs: seq<Event>): AppState
    decreases |evs|
  {
    if evs == [] then s else Run(Step(s, evs[0]).state, evs[1..])
  }

  /** Closing the window only hides it; it never ends the main loop. */
  lemma DeleteOnlyHides(s: AppState)
    ensures Step(s, DeleteEvent) == Outcome(AppState(false, s.mainQuit), [])
  {
  }

  /** A tray click flips visibility, and two clicks restore it. */
  lemma ToggleTwiceRestores(s: AppState)
    ensures Step(s, TrayActivate).state.visible == !s.visible
    ensures Step(s, TrayActivate).state.mainQuit == s.mainQuit
    ensures Step(Step(s, TrayActivate).state, TrayActivate).state == s
  {
  }

  /** "Show/Hide" is connected to the very callback a tray click runs. */
  lemma ShowHideIsToggle(s: AppState)
    ensures TrayPopupMenu()[0].caption == "Show/Hide"
    ensures Step(s, MenuActivate(0)) == Step(s, TrayActivate)
  {
  }

  /** "Open in Browser" opens the fixed alert page; "Refresh" only reloads the view. */
  lemma OpenAndRefreshOnlyRecord(s: AppState)
    ensures Step(s, MenuActivate(2)) == Outcome(s, [OpenUrl(HFC_URL)])
    ensures Step(s, MenuActivate(1)) == Outcome(s, [ReloadWebview])
  {
  }

  /**
   * The two window buttons run the same callbacks as the matching menu
   * items, so they never change the window or end the main loop.
   */
  lemma ButtonsMatchMenuItems(s: AppState)
    ensures WindowButtons()[0].caption == TrayPopupMenu()[2].caption
    ensures WindowButtons()[1].caption == TrayPopupMenu()[1].caption
    ensures Step(s, ButtonClicked(0)) == Step(s, MenuActivate(2)) == Outcome(s, [OpenUrl(HFC_URL)])
    ensures Step(s, ButtonClicked(1)) == Step(s, MenuActivate(1)) == Outcome(s, [ReloadWebview])
    ensures forall i: nat :: Step(s, ButtonClicked(i)).state == s
  {
  }

  /** The last menu entry, after a separator, is the only Quit item. */
  lemma QuitIsOnlyLastItem()
    ensures forall i: nat :: IsQuitItem(i) <==> i == 4
    ensures TrayPopupMenu()[3] == Separator
  {
  }

  /** The main loop is asked to end exactly when the Quit item has been activated. */
  lemma {:induction false} OnlyQuitEndsLoop(s: AppState, evs: seq<Event>)
    ensures Run(s, evs).mainQuit <==>
            (s.mainQuit || exists i :: 0 <= i < |evs| && evs[i].MenuActivate? && IsQuitItem(evs[i].index))
    decreases |evs|
  {
    if evs != [] {
      OnlyQuitEndsLoop(Step(s, evs[0]).state, evs[1..]);
      if exists j :: 0 <= j < |evs[1..]| && evs[1..][j].MenuActivate? && IsQuitItem(evs[1..][j].index) {
        var j :| 0 <= j < |evs[1..]| && evs[1..][j].MenuActivate? && IsQuitItem(evs[1..][j].index);
        assert evs[j + 1] == evs[1..][j];
      }
      if exists i :: 0 <= i < |evs| && evs[i].MenuActivate? && IsQuitItem(evs[i].index) {
        var i :| 0 <= i < |evs| && evs[i].MenuActivate? && IsQuitItem(evs[i].index);
        if i > 0 {
          assert evs[1..][i - 1] == evs[i];
        }
      }
    }
  }

  /** `n` tray clicks leave the window visible exactly when `n` is even and it was visible, or odd and it was not. */
  lemma {:induction false} TrayClicksParity(s: AppState, n: nat)
    ensures Run(s, seq(n, _ => TrayActivate)).visible == (s.visible != (n % 2 == 1))
    ensures Run(s, seq(n, _ => TrayActivate)).mainQuit == s.mainQuit
    decreases n
  {
    if n > 0 {
      var clicks := seq(n, _ => TrayActivate);
      assert clicks[1..] == seq(n - 1, _ => TrayActivate);
      TrayClicksParity(Step(s, TrayActivate).state, n - 1);
    }
  }

  /** The state of one running HFCAlertsApp; `effects` logs the toolkit calls made. */
  class App {
    const title: string
    const tooltip: string
    const windowIcon: WindowIcon
    const buttons: seq<WindowButton>
    const trayIcon: IconSource
    var visible: bool
    var mainQuit: bool
    var effects: seq<Effect>

    function State(): AppState
      reads this
    {
      AppState(visible, mainQuit)
    }

    /** __init__: builds the window and the status icon, loads the page and shows everything. */
    constructor (iconExists: bool)
      ensures title == TITLE && tooltip == TITLE
      ensures windowIcon == WindowIconFor(iconExists)
      ensures buttons == WindowButtons()
      ensures trayIcon == TrayIcon(iconExists)
      ensures State() == AppState(true, false)
      ensures effects == [LoadUri(HFC_URL)]
    {
      title := TITLE;
      windowIcon := WindowIconFor(iconExists);
      effects := [LoadUri(HFC_URL)];
      var openButton := WindowButton("Open in Browser", Handler.OpenInBrowser);
      var refreshButton := WindowButton("Refresh", Handler.RefreshPage);
      buttons := [openButton] + [refreshButton];
      tooltip := TITLE;
      trayIcon := TrayIcon(iconExists);
      visible := true;
      mainQuit := false;
    }

    method OnDeleteEvent() returns (stop: bool)
      modifies this
      ensures stop
      ensures State() == Step(old(State()), DeleteEvent).state && effects == old(effects)
    {
      visible := false;
      stop := true;
    }

    method OnTrayIconActivate()
      modifies this
      ensures var o := Step(old(State()), TrayActivate);
              State() == o.state && effects == old(effects) + o.effects
    {
      if visible {
        visible := false;
      } else {
        visible := true;
        effects := effects + [PresentWindow];
      }
    }

    /** Builds the popup menu by successive appends; showing it is left to GTK. */
    method OnTrayIconPopupMenu() returns (menu: seq<MenuItem>)
      ensures menu == TrayPopupMenu()
    {
      var showItem := Item("Show/Hide", Handler.ToggleWindow);
      var refreshItem := Item("Refresh", Handler.RefreshPage);
      var openBrowserItem := Item("Open in Browser", Handler.OpenInBrowser);
      var quitItem := Item("Quit", Handler.QuitApp);
      menu := [];
      menu := menu + [showItem];
      menu := menu + [refreshItem];
      menu := menu + [openBrowserItem];
      menu := menu + [Separator];
      menu := menu + [quitItem];
    }

    /** Activating a popup menu item runs the callback it is connected to. */
    method OnMenuItemActivate(item: MenuItem)
      modifies this
      ensures item.Item? ==> var o := Dispatch(old(State()), item.handler);
              State() == o.state && effects == old(effects) + o.effects
      ensures item.Separator? ==> State() == old(State()) && effects == old(effects)
    {
      if item.Item? {
        match item.handler
        case ToggleWindow => OnTrayIconActivate();
        case RefreshPage => RefreshPage();
        case OpenInBrowser => OpenInBrowser();
        case QuitApp => Quit();
      }
    }

    /** A click on a window button runs the callback it is connected to. */
    method OnButtonClicked(i: nat)
      requires i < |buttons|
      modifies this
      ensures var o := Dispatch(old(State()), buttons[i].handler);
              State() == o.state && effects == old(effects) + o.effects
    {
      match buttons[i].handler
      case ToggleWindow => OnTrayIconActivate();
      case RefreshPage => RefreshPage();
      case OpenInBrowser => OpenInBrowser();
      case QuitApp => Quit();
    }

    method OpenInBrowser()
      modifies this
      ensures State() == old(State()) && effects == old(effects) + [OpenUrl(HFC_URL)]
    {
      effects := effects + [OpenUrl(HFC_URL)];
    }

    method RefreshPage()
      modifies this
      ensures State() == old(State()) && effects == old(effects) + [ReloadWebview]
    {
      effects := effects + [ReloadWebview];
    }

    method Quit()
      modifies this
      ensures State() == old(State()).(mainQuit := true) && effects == old(effects)
    {
      mainQuit := true;
    }
  }
}
