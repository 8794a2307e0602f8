/**
 * The Electron host process: one BrowserWindow, one tray icon and the
 * one-way quit intent that decides whether closing the window hides it
 * (minimise to tray) or lets it be destroyed.
 *
 * Toolkit calls are recorded as effects; the order in which Electron
 * emits its events is an event trace.  `Step` is the specification of
 * one handler run, `Host` holds the module-level mutable state of the
 * program and has one method per registered handler.
 */
module ElectronHost {

  const APP_VERSION: string := "1.0.0"
  const HFC_URL: string := "https://www.oref.org.il/eng/alerts-history"
  const TITLE: string := "HFC Alerts (Unofficial) v" + APP_VERSION
  const DARWIN: string := "darwin"

  /** The native window: shown, hidden (still alive), or destroyed. */
  datatype Visibility = Visible | Hidden | Destroyed

  /** The verbs that the window context menu and the tray menu route to. */
  datatype MenuAction = ShowApp | Refresh | OpenInBrowser | Quit

  datatype MenuEntry =
    | Item(caption: string, action: MenuAction)
    | Separator
    | Disabled(caption: string)

  /** Menu popped up on a right click inside the page. */
  function WindowContextMenu(): seq<MenuEntry>
  {
    [Item("Open in Browser", OpenInBrowser), Item("Refresh", Refresh), Separator, Item("Quit", Quit)]
  }

  /** Menu attached to the tray icon. */
  function TrayMenu(): seq<MenuEntry>
  {
    [ Item("Show App", ShowApp), Item("Refresh", Refresh), Item("Open in Browser", OpenInBrowser),
      Separator, Disabled("Version " + APP_VERSION), Separator, Item("Quit", Quit) ]
  }

  /** Calls into Electron and the operating system, recorded rather than performed. */
  datatype Effect =
    | LoadUrl(url: string)        // BrowserWindow.loadURL
    | InjectScript                // webContents.executeJavaScript(inject.js)
    | SetTitle(title: string)
    | OpenExternal(url: string)   // shell.openExternal
    | ReloadView                  // BrowserWindow.reload
    | PopupContextMenu
    | AppQuit                     // app.quit

  /** The events for which the program registers a handler. */
  datatype Event =
    | DidFinishLoad
    | WindowOpen(url: string)     // setWindowOpenHandler
    | Close
    | Closed
    | ContextMenu
    | WindowMenuClick(index: nat) // a click on entry `index` of WindowContextMenu()
    | TrayMenuClick(index: nat)   // a click on entry `index` of TrayMenu()
    | TrayClick
    | Activate
    | WindowAllClosed
    | BeforeQuit
    | IpcOpenInBrowser
    | Navigate(url: string)        // in-place navigation of the view (a followed link); no handler is registered

  /**
   * What a handler hands back to Electron: nothing special, a cancelled
   * close, a denied window-open, or an exception thrown inside the handler
   * (calling show or reload through a null or destroyed `mainWindow`).
   */
  datatype Reply = Done | Prevented | Denied | Threw

  /**
   * `window` is the native window; `hasMainWindow` says whether the
   * module-level `mainWindow` variable still refers to it; `pageUrl` is
   * what the embedded view displays.
   */
  datatype HostState = HostState(
    platform: string,
    window: Visibility,
    hasMainWindow: bool,
    isQuitting: bool,
    pageUrl: string)

  datatype Outcome = Outcome(state: HostState, effects: seq<Effect>, reply: Reply)

  /** The state right after app.whenReady has run createWindow and createTray. */
  function Initial(platform: string): HostState
  {
    HostState(platform, Visible, true, false, HFC_URL)
  }

  /** `mainWindow` refers to a window that can still be shown or reloaded. */
  predicate Live(s: HostState)
  {
    s.hasMainWindow && s.window != Destroyed
  }

  /** One click on a menu item, shared by both menus. */
  function Perform(s: HostState, a: MenuAction): (r: Outcome)
    ensures r.state.platform == s.platform && r.state.pageUrl == s.pageUrl
    ensures r.state.isQuitting == (s.isQuitting || a == Quit)
    ensures r.reply == Done || r.reply == Threw
  {
    match a
    case ShowApp =>
      if Live(s) then Outcome(s.(window := Visible), [], Done) else Outcome(s, [], Threw)
    case Refresh =>
      if Live(s) then Outcome(s, [ReloadView], Done) else Outcome(s, [], Threw)
    case OpenInBrowser =>
      Outcome(s, [OpenExternal(HFC_URL)], Done)
    case Quit =>
      Outcome(s.(isQuitting := true), [AppQuit], Done)
  }

  /** A click on entry `i` of `menu`; separators and disabled labels do nothing. */
  function Click(s: HostState, menu: seq<MenuEntry>, i: nat): Outcome
  {
    if i < |menu| && menu[i].Item? then Perform(s, menu[i].action) else Outcome(s, [], Done)
  }

  /** Entry `i` of `menu` is an item that runs `a`. */
  predicate Chooses(menu: seq<MenuEntry>, i: nat, a: MenuAction)
  {
    i < |menu| && menu[i].Item? && menu[i].action == a
  }

  /** The events whose handler assigns `isQuitting := true`. */
  predicate SetsQuitIntent(e: Event)
  {
    || e.BeforeQuit?
    || (e.WindowMenuClick? && Chooses(WindowContextMenu(), e.index, Quit))
    || (e.TrayMenuClick? && Chooses(TrayMenu(), e.index, Quit))
  }

  /** The run of the handler registered for `e`. */
  function Step(s: HostState, e: Event): (r: Outcome)
    ensures r.state.platform == s.platform
    ensures r.state.isQuitting == (s.isQuitting || SetsQuitIntent(e))
  {
    match e
    case DidFinishLoad =>
      if Live(s) then Outcome(s, [InjectScript, SetTitle(TITLE)], Done) else Outcome(s, [], Threw)
    case WindowOpen(url) =>
      Outcome(s, [OpenExternal(url)], Denied)
    case Close =>
      if s.isQuitting then Outcome(s.(window := Destroyed), [], Done)
      // preventDefault() has run; hide() through a null mainWindow would throw after it
      else if s.hasMainWindow then Outcome(s.(window := Hidden), [], Prevented)
      else Outcome(s, [], Prevented)
    case Closed =>
      Outcome(s.(hasMainWindow := false), [], Done)
    case ContextMenu =>
      Outcome(s, [PopupContextMenu], Done)
    case WindowMenuClick(i) =>
      Click(s, WindowContextMenu(), i)
    case TrayMenuClick(i) =>
      Click(s, TrayMenu(), i)
    case TrayClick =>
      Perform(s, ShowApp)
    case Activate =>
      if s.window == Destroyed then
        Outcome(s.(window := Visible, hasMainWindow := true, pageUrl := HFC_URL), [LoadUrl(HFC_URL)], Done)
      else
        Outcome(s, [], Done)
    case WindowAllClosed =>
      if s.platform != DARWIN then Outcome(s, [AppQuit], Done) else Outcome(s, [], Done)
    case BeforeQuit =>
      Outcome(s.(isQuitting := true), [], Done)
    case IpcOpenInBrowser =>
      Outcome(s, [OpenExternal(HFC_URL)], Done)
    case Navigate(url) =>
      Outcome(s.(pageUrl := url), [], Done)
  }

  /**
   * When Electron can emit `e`: the window events need a window that
   * still exists, `closed` and `window-all-closed` come only after the
   * window is destroyed, and menu clicks land on clickable items.
   */
  predicate Enabled(s: HostState, e: Event)
  {
    match e
    case DidFinishLoad => s.window != Destroyed
    case WindowOpen(_) => s.window != Destroyed
    case Close => s.window != Destroyed
    case ContextMenu => s.window != Destroyed
    case Closed => s.window == Destroyed
    case WindowAllClosed => s.window == Destroyed
    case WindowMenuClick(i) => i < |WindowContextMenu()| && WindowContextMenu()[i].Item?
    case TrayMenuClick(i) => i < |TrayMenu()| && TrayMenu()[i].Item?
    case TrayClick => true
    case Activate => true
    case BeforeQuit => true
    case IpcOpenInBrowser => true
    case Navigate(_) => s.window != Destroyed
  }

  /** The state after the handlers for `evs` have run in order. */
  function Run(s: HostState, evs: seq<Event>): HostState
    decreases |evs|
  {
    if evs == [] then s else Run(Step(s, evs[0]).state, evs[1..])
  }

  /** Every event of `evs` can be emitted in the state it meets. */
  predicate EnabledTrace(s: HostState, evs: seq<Event>)
    decreases |evs|
  {
    evs == [] || (Enabled(s, evs[0]) && EnabledTrace(Step(s, evs[0]).state, evs[1..]))
  }

  /**
   * The host invariant: the window is destroyed only once the quit intent
   * is set, and `mainWindow` is dropped only for a destroyed window.
   */
  predicate Valid(s: HostState)
  {
    && (s.window == Destroyed ==> s.isQuitting)
    && (!s.hasMainWindow ==> s.window == Destroyed)
  }

  lemma InitialValid(platform: string)
    ensures Valid(Initial(platform)) && !Initial(platform).isQuitting
  {
  }

  lemma StepKeepsValid(s: HostState, e: Event)
    requires Valid(s) && Enabled(s, e)
    ensures Valid(Step(s, e).state)
  {
  }

  /** Every state reachable from a valid one by events Electron can emit is valid. */
  lemma {:induction false} RunKeepsValid(s: HostState, evs: seq<Event>)
    requires Valid(s) && EnabledTrace(s, evs)
    ensures Valid(Run(s, evs))
    decreases |evs|
  {
    if evs != [] {
      StepKeepsValid(s, evs[0]);
      RunKeepsValid(Step(s, evs[0]).state, evs[1..]);
    }
  }

  /**
   * `isQuitting` is one-way: after any trace it is set exactly when it
   * was set before or some event of the trace sets it.
   */
  lemma {:induction false} QuitIntentOneWay(s: HostState, evs: seq<Event>)
    ensures Run(s, evs).isQuitting <==>
            (s.isQuitting || exists i :: 0 <= i < |evs| && SetsQuitIntent(evs[i]))
    decreases |evs|
  {
    if evs != [] {
      var next := Step(s, evs[0]).state;
      QuitIntentOneWay(next, evs[1..]);
      if exists j :: 0 <= j < |evs[1..]| && SetsQuitIntent(evs[1..][j]) {
        var j :| 0 <= j < |evs[1..]| && SetsQuitIntent(evs[1..][j]);
        assert SetsQuitIntent(evs[j + 1]);
      }
      if exists i :: 0 <= i < |evs| && SetsQuitIntent(evs[i]) {
        var i :| 0 <= i < |evs| && SetsQuitIntent(evs[i]);
        if i > 0 {
          assert SetsQuitIntent(evs[1..][i - 1]);
        }
      }
    }
  }

  /** A close while the quit intent is clear is cancelled and only hides the window. */
  lemma CloseWhileNotQuittingHides(s: HostState)
    requires Valid(s) && s.window != Destroyed && !s.isQuitting
    ensures Step(s, Close).reply == Prevented
    ensures Step(s, Close).state == s.(window := Hidden)
    ensures Step(s, Close).state.hasMainWindow && Step(s, Close).effects == []
  {
  }

  /** A close while the quit intent is set proceeds, and only then may `closed` drop `mainWindow`. */
  lemma CloseWhileQuittingProceeds(s: HostState)
    requires Valid(s) && s.window != Destroyed && s.isQuitting
    ensures Step(s, Close).reply == Done && Step(s, Close).state.window == Destroyed
    ensures Enabled(Step(s, Close).state, Closed)
    ensures !Step(Step(s, Close).state, Closed).state.hasMainWindow
  {
  }

  /** Once a quit item or before-quit has run, no later close is cancelled. */
  lemma {:induction false} CloseNeverCancelledAfterQuit(s: HostState, evs: seq<Event>, i: nat)
    requires i < |evs| && SetsQuitIntent(evs[i])
    ensures Step(Run(s, evs), Close).reply == Done
    ensures Step(Run(s, evs), Close).state.window == Destroyed
  {
    QuitIntentOneWay(s, evs);
  }

  /** Quit from either menu sets the quit intent, then asks the app to quit. */
  lemma QuitFromEitherMenu(s: HostState, e: Event)
    requires (e.WindowMenuClick? && Chooses(WindowContextMenu(), e.index, Quit))
          || (e.TrayMenuClick? && Chooses(TrayMenu(), e.index, Quit))
    ensures Step(s, e) == Outcome(s.(isQuitting := true), [AppQuit], Done)
    ensures Step(Step(s, e).state, Close).reply == Done
  {
  }

  /** Each menu has exactly one Quit item, and it is the last entry. */
  lemma QuitItems()
    ensures forall i: nat :: Chooses(WindowContextMenu(), i, Quit) <==> i == |WindowContextMenu()| - 1
    ensures forall i: nat :: Chooses(TrayMenu(), i, Quit) <==> i == |TrayMenu()| - 1
  {
  }

  /** A tray click and "Show App" only ever show the window and leave the quit intent alone. */
  lemma ShowOnlyShows(s: HostState, e: Event)
    requires e == TrayClick || (e.TrayMenuClick? && Chooses(TrayMenu(), e.index, ShowApp))
    ensures Step(s, e).effects == []
    ensures Step(s, e).state.isQuitting == s.isQuitting
    ensures Step(s, e).state == (if Live(s) then s.(window := Visible) else s)
    ensures Valid(s) && s.window != Destroyed ==> Step(s, e).state.window == Visible
  {
  }

  /** "Open in Browser" from either menu or over IPC opens the fixed alert page and changes nothing. */
  lemma OpenInBrowserIsFixed(s: HostState, e: Event)
    requires || e == IpcOpenInBrowser
             || (e.WindowMenuClick? && Chooses(WindowContextMenu(), e.index, OpenInBrowser))
             || (e.TrayMenuClick? && Chooses(TrayMenu(), e.index, OpenInBrowser))
    ensures Step(s, e) == Outcome(s, [OpenExternal(HFC_URL)], Done)
  {
  }

  /** A window-open request is denied in the view and opened externally exactly once. */
  lemma WindowOpenIsDenied(s: HostState, url: string)
    ensures Step(s, WindowOpen(url)).reply == Denied
    ensures Step(s, WindowOpen(url)).state == s
    ensures Step(s, WindowOpen(url)).effects == [OpenExternal(url)]
  {
  }

  /** window-all-closed quits exactly when the platform is not macOS, and changes no state. */
  lemma AllClosedQuitsUnlessDarwin(s: HostState)
    ensures Step(s, WindowAllClosed).state == s
    ensures AppQuit in Step(s, WindowAllClosed).effects <==> s.platform != DARWIN
  {
  }

  /** activate creates a window exactly when none exists. */
  lemma ActivateCreatesOnlyWhenNone(s: HostState)
    ensures LoadUrl(HFC_URL) in Step(s, Activate).effects <==> s.window == Destroyed
    ensures s.window != Destroyed ==> Step(s, Activate).state == s
    ensures s.window == Destroyed ==> Live(Step(s, Activate).state)
  {
  }

  /** "Refresh", from either menu, reloads whatever page the view shows, or throws without a live window. */
  lemma RefreshOnlyReloads(s: HostState, e: Event)
    requires || (e.WindowMenuClick? && Chooses(WindowContextMenu(), e.index, Refresh))
             || (e.TrayMenuClick? && Chooses(TrayMenu(), e.index, Refresh))
    ensures Step(s, e) == (if Live(s) then Outcome(s, [ReloadView], Done) else Outcome(s, [], Threw))
  {
  }

  /** Every finished load on a live window injects the watchdog and sets the title, and changes no state. */
  lemma DidFinishLoadInjects(s: HostState)
    ensures Live(s) ==> Step(s, DidFinishLoad) == Outcome(s, [InjectScript, SetTitle(TITLE)], Done)
    ensures !Live(s) ==> Step(s, DidFinishLoad) == Outcome(s, [], Threw)
  {
  }

  /**
   * No handler intercepts in-place navigation: the view moves to `url`,
   * nothing is opened externally, and the next finished load injects the
   * watchdog into that page as well.
   */
  lemma NavigationIsNotIntercepted(s: HostState, url: string)
    requires Live(s)
    ensures Step(s, Navigate(url)) == Outcome(s.(pageUrl := url), [], Done)
    ensures Step(Step(s, Navigate(url)).state, DidFinishLoad).effects == [InjectScript, SetTitle(TITLE)]
    ensures Run(s, [Navigate(url), DidFinishLoad]).pageUrl == url
  {
    var evs := [Navigate(url), DidFinishLoad];
    var s1 := Step(s, Navigate(url)).state;
    assert evs[1..] == [DidFinishLoad] && [DidFinishLoad][1..] == [];
    assert Run(s, evs) == Run(s1, [DidFinishLoad]);
    assert Run(s1, [DidFinishLoad]) == Run(Step(s1, DidFinishLoad).state, []);
  }

  /** Without in-place navigation, a view showing the alert page keeps showing it. */
  lemma {:induction false} AlertPageKeptWithoutNavigation(s: HostState, evs: seq<Event>)
    requires s.pageUrl == HFC_URL
    requires forall i :: 0 <= i < |evs| ==> !evs[i].Navigate?
    ensures Run(s, evs).pageUrl == HFC_URL
    decreases |evs|
  {
    if evs != [] {
      assert !evs[0].Navigate?;
      var s' := Step(s, evs[0]).state;
      assert s'.pageUrl == HFC_URL by {
        match evs[0]
        case WindowMenuClick(i) => assert Click(s, WindowContextMenu(), i).state.pageUrl == s.pageUrl;
        case TrayMenuClick(i) => assert Click(s, TrayMenu(), i).state.pageUrl == s.pageUrl;
        case _ =>
      }
      forall i | 0 <= i < |evs[1..]|
        ensures !evs[1..][i].Navigate?
      {
        assert evs[1..][i] == evs[i + 1];
      }
      AlertPageKeptWithoutNavigation(s', evs[1..]);
    }
  }

  /**
   * The module-level state of main.js.  `effects` is the log of toolkit
   * calls made so far.
   */
  class Host {
    const platform: string
    var window: Visibility
    var hasMainWindow: bool
    var isQuitting: bool
    var pageUrl: string
    var effects: seq<Effect>

    function State(): HostState
      reads this
    {
      HostState(platform, window, hasMainWindow, isQuitting, pageUrl)
    }

    /** app.whenReady: createWindow() loads the alert page, then createTray(). */
    constructor (platform: string)
      ensures State() == Initial(platform)
      ensures effects == [LoadUrl(HFC_URL)]
    {
      this.platform := platform;
      window := Visible;
      hasMainWindow := true;
      isQuitting := false;
      pageUrl := HFC_URL;
      effects := [LoadUrl(HFC_URL)];
    }

    /** One menu verb, written once and used by both menus and the tray click. */
    method RunMenuAction(a: MenuAction) returns (reply: Reply)
      modifies this
      ensures var o := Perform(old(State()), a);
              State() == o.state && effects == old(effects) + o.effects && reply == o.reply
    {
      reply := Done;
      match a
      case ShowApp =>
        if hasMainWindow && window != Destroyed {
          window := Visible;
        } else {
          reply := Threw;
        }
      case Refresh =>
        if hasMainWindow && window != Destroyed {
          effects := effects + [ReloadView];
        } else {
          reply := Threw;
        }
      case OpenInBrowser =>
        effects := effects + [OpenExternal(HFC_URL)];
      case Quit =>
        isQuitting := true;
        effects := effects + [AppQuit];
    }

    method OnDidFinishLoad() returns (reply: Reply)
      modifies this
      ensures var o := Step(old(State()), DidFinishLoad);
              State() == o.state && effects == old(effects) + o.effects && reply == o.reply
    {
      if hasMainWindow && window != Destroyed {
        effects := effects + [InjectScript, SetTitle(TITLE)];
        reply := Done;
      } else {
        reply := Threw;
      }
    }

    method OnWindowOpen(url: string) returns (reply: Reply)
      modifies this
      ensures var o := Step(old(State()), WindowOpen(url));
              State() == o.state && effects == old(effects) + o.effects && reply == o.reply
    {
      effects := effects + [OpenExternal(url)];
      reply := Denied;
    }

    method OnClose() returns (reply: Reply)
      modifies this
      ensures var o := Step(old(State()), Close);
              State() == o.state && effects == old(effects) + o.effects && reply == o.reply
    {
      if !isQuitting {
        reply := Prevented;
        if hasMainWindow {
          window := Hidden;
        }
      } else {
        reply := Done;
        window := Destroyed;
      }
    }

    method OnClosed()
      modifies this
      ensures State() == Step(old(State()), Closed).state && effects == old(effects)
    {
      hasMainWindow := false;
    }

    method OnContextMenu()
      modifies this
      ensures State() == old(State()) && effects == old(effects) + [PopupContextMenu]
    {
      effects := effects + [PopupContextMenu];
    }

    method OnWindowMenuClick(i: nat) returns (reply: Reply)
      modifies this
      ensures var o := Step(old(State()), WindowMenuClick(i));
              State() == o.state && effects == old(effects) + o.effects && reply == o.reply
    {
      var menu := WindowContextMenu();
      if i < |menu| && menu[i].Item? {
        reply := RunMenuAction(menu[i].action);
      } else {
        reply := Done;
      }
    }

    method OnTrayMenuClick(i: nat) returns (reply: Reply)
      modifies this
      ensures var o := Step(old(State()), TrayMenuClick(i));
              State() == o.state && effects == old(effects) + o.effects && reply == o.reply
    {
      var menu := TrayMenu();
      if i < |menu| && menu[i].Item? {
        reply := RunMenuAction(menu[i].action);
      } else {
        reply := Done;
      }
    }

    method OnTrayClick() returns (reply: Reply)
      modifies this
      ensures var o := Step(old(State()), TrayClick);
              State() == o.state && effects == old(effects) + o.effects && reply == o.reply
    {
      reply := RunMenuAction(ShowApp);
    }

    method OnActivate()
      modifies this
      ensures var o := Step(old(State()), Activate);
              State() == o.state && effects == old(effects) + o.effects
    {
      if window == Destroyed {
        window := Visible;
        hasMainWindow := true;
        pageUrl := HFC_URL;
        effects := effects + [LoadUrl(HFC_URL)];
      }
    }

    method OnWindowAllClosed()
      modifies this
      ensures var o := Step(old(State()), WindowAllClosed);
              State() == o.state && effects == old(effects) + o.effects
    {
      if platform != DARWIN {
        effects := effects + [AppQuit];
      }
    }

    method OnBeforeQuit()
      modifies this
      ensures State() == Step(old(State()), BeforeQuit).state && effects == old(effects)
    {
      isQuitting := true;
    }

    method OnIpcOpenInBrowser()
      modifies this
      ensures var o := Step(old(State()), IpcOpenInBrowser);
              State() == o.state && effects == old(effects) + o.effects
    {
      effects := effects + [OpenExternal(HFC_URL)];
    }

    /** In-place navigation, which Electron performs with no handler of the host involved. */
    method OnNavigate(url: string)
      modifies this
      ensures var o := Step(old(State()), Navigate(url));
              State() == o.state && effects == old(effects) + o.effects
    {
      pageUrl := url;
    }
  }
}
