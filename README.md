# HFC Alerts wrapper — a Dafny model of its lifecycle and audio watchdog

The HFC Alerts wrapper is a desktop shell around the Home Front Command
alert-history page. It exists so that audible alerts on that page are
heard even when the window is hidden. It has three pieces of decision
logic, and this project models and verifies each of them:

- **The Electron host** (`main.js`, module `ElectronHost`). It owns one
  window and one tray icon. Closing the window hides it to the tray
  unless the one-way `isQuitting` flag is set. Two menus and an IPC
  channel route to the same verbs: show, refresh, open in browser, quit.
  Requests to open a new window are denied and opened externally.
  In-place navigation of the view (a followed link) has no handler, so
  the view can leave the alert page, and the next finished load injects
  the watchdog into whatever page it now shows.
  `Step` specifies each handler as a pure function. Class `Host` holds
  the program's module-level variables (`mainWindow`, `isQuitting`), with
  one method per registered handler, each proved against `Step`.
- **The injected watchdog** (`inject.js`, module `Injector`). The script
  appends a fixed control bar to the page. Then, on an initial run, every
  5 s and on every observed DOM mutation, `enableAudio` unmutes every
  audio element and calls `play()` on those paused at position 0.
  A rejected `play()` is swallowed. Finally the status line is rewritten.
  The status line is inside the observed body, so that write can itself
  start further passes (`Echoes`).
  `Injection.EnableAudio` is a loop over an array of element records,
  proved against the function `Sweep`. The triggers are an event trace
  (`Replay`).
- **The GTK variant** (`hfc_alerts.py`, module `GtkVariant`). Its
  delete-event always hides the window. The tray click and the
  "Show/Hide" item toggle visibility. `Gtk.main_quit` from the Quit item
  is the only exit. The "Open in Browser" and "Refresh" buttons under the
  view run the same callbacks as the matching menu items. Class `App`
  models `HFCAlertsApp`.
- Module `ClosePolicies` sets the two close policies side by side.

Toolkit calls (`shell.openExternal`, `loadURL`, `reload`, `app.quit`,
`webbrowser.open`, ...) are recorded as effects in a log rather than
performed. The outcome of each `play()` and the clock string are inputs.

Facts of the code that shape the model:
- The status text is `"Connection active - Last check: "` followed by the
  time, with a plain hyphen (inject.js:133).
- Quitting when all windows are closed is decided by the test
  `process.platform !== 'darwin'` (main.js:156-158), so the platform is a
  field of the host state.
- When `assets/icon.png` is missing, the GTK status icon falls back to
  the stock info icon (hfc_alerts.py:107-110), and the window keeps the
  toolkit's default icon (hfc_alerts.py:31-33).
- The watchdog's interval and observer callbacks carry no state of their
  own (inject.js:137-145). A reload discards them with the page, and each
  load is a new `Injection`.

## Model

| member | source | states |
|---|---|---|
| ElectronHost.Perform | main.js:64-128 | a menu verb keeps platform and page URL; it sets `isQuitting` exactly when the verb is Quit and never clears it; it only returns normally or throws |
| ElectronHost.Step | main.js:35-168 | every handler keeps the platform and sets `isQuitting` to its old value or'ed with "this event sets the quit intent", so no handler ever clears it |
| ElectronHost.InitialValid | main.js:10-32 | right after startup `isQuitting` is false and the host invariant holds |
| ElectronHost.StepKeepsValid | main.js:35-168 | every handler Electron can fire keeps the invariant: the window is destroyed only while quitting, and `mainWindow` is dropped only for a destroyed window |
| ElectronHost.RunKeepsValid | main.js:35-168 | the invariant holds after any trace of events Electron can emit |
| ElectronHost.QuitIntentOneWay | main.js:12 | after any trace, `isQuitting` is true iff it started true or some event of the trace (before-quit, either Quit item) set it |
| ElectronHost.CloseWhileNotQuittingHides | main.js:55-61 | while not quitting, a close is prevented, the window is only hidden, and `mainWindow` stays set |
| ElectronHost.CloseWhileQuittingProceeds | main.js:50-61 | while quitting, a close is not prevented and destroys the window; only then can `closed` drop `mainWindow` |
| ElectronHost.CloseNeverCancelledAfterQuit | main.js:55-61 | in any trace containing a Quit click or before-quit, a later close is never cancelled |
| ElectronHost.QuitFromEitherMenu | main.js:79-83 | the Quit item of either menu sets `isQuitting`, records `app.quit`, changes nothing else, and a following close proceeds |
| ElectronHost.QuitItems | main.js:64-128 | each menu has exactly one Quit item, and it is the last entry |
| ElectronHost.ShowOnlyShows | main.js:98-101 | a tray click and "Show App" never hide the window, record no effect, and leave `isQuitting` alone; on a live window they make it visible |
| ElectronHost.OpenInBrowserIsFixed | main.js:110-113 | "Open in Browser" from either menu or over IPC changes no state and opens exactly `HFC_URL` |
| ElectronHost.WindowOpenIsDenied | main.js:44-47 | a window-open request is answered `deny`, changes no state, and opens exactly the requested URL externally once |
| ElectronHost.AllClosedQuitsUnlessDarwin | main.js:156-158 | window-all-closed records `app.quit` iff the platform is not darwin, and changes no state |
| ElectronHost.ActivateCreatesOnlyWhenNone | main.js:148-152 | activate loads a new window iff none exists; otherwise nothing changes |
| ElectronHost.RefreshOnlyReloads | main.js:72-75 | "Refresh" from either menu changes no state and reloads the page the view shows when the window is live; with no live window it throws and records nothing |
| ElectronHost.DidFinishLoadInjects | main.js:35-41 | every finished load on a live window records exactly the script injection and the title, and changes no state; otherwise the handler throws |
| ElectronHost.NavigationIsNotIntercepted | main.js:17-91 | no handler intercepts in-place navigation: the view moves to any URL, nothing is opened externally, and the next finished load injects the watchdog into that page |
| ElectronHost.AlertPageKeptWithoutNavigation | main.js:17-168 | along any trace without in-place navigation, a view showing the alert page keeps showing it |
| ElectronHost.Host.constructor | main.js:141-143 | after startup the window is visible, `mainWindow` is set, `isQuitting` is false, and the alert page was loaded |
| ElectronHost.Host.RunMenuAction | main.js:97-126 | one menu verb, shared by both menus and the tray click, updates the state and log as `Perform` says |
| ElectronHost.Host.OnDidFinishLoad | main.js:35-41 | did-finish-load injects the script and sets the title |
| ElectronHost.Host.OnWindowOpen | main.js:44-47 | the window-open handler logs one external open and answers deny |
| ElectronHost.Host.OnClose | main.js:55-61 | the close handler updates the state and reply as `Step` says |
| ElectronHost.Host.OnClosed | main.js:50-52 | closed drops `mainWindow` and nothing else |
| ElectronHost.Host.OnContextMenu | main.js:88-90 | a right click pops up the window menu and changes no state |
| ElectronHost.Host.OnWindowMenuClick | main.js:64-85 | a click on a window-menu entry runs that entry's verb |
| ElectronHost.Host.OnTrayMenuClick | main.js:96-128 | a click on a tray-menu entry runs that entry's verb |
| ElectronHost.Host.OnTrayClick | main.js:134-136 | a tray click runs Show App |
| ElectronHost.Host.OnActivate | main.js:148-152 | activate updates the state as `Step` says |
| ElectronHost.Host.OnWindowAllClosed | main.js:156-158 | window-all-closed logs a quit unless on darwin |
| ElectronHost.Host.OnBeforeQuit | main.js:161-163 | before-quit sets `isQuitting` and nothing else |
| ElectronHost.Host.OnIpcOpenInBrowser | main.js:166-168 | the IPC handler logs one external open of `HFC_URL` |
| ElectronHost.Host.OnNavigate | main.js:17-91 | in-place navigation only changes the page the view shows |
| Injector.ControlBarLayout | inject.js:65-112 | the bar shows "Open in Browser", "Refresh", the disclaimer, "Version 1.0.0" and the status line, in that order; its buttons call the open-in-browser bridge and reload the page |
| Injector.Injection.constructor | inject.js:65-112 | injection appends exactly one control bar to the page body and leaves the rest of the body as it was; the status reads "Connection active" |
| Injector.Checked | inject.js:119-129 | one element after the `forEach` body: unmuted, same source and position; it stops being paused iff it was paused at time 0 and its `play()` resolved |
| Injector.Sweep | inject.js:117-130 | a pass keeps the number of elements |
| Injector.SweepAt | inject.js:118-130 | element k after a pass is element k after one loop body with its own play outcome |
| Injector.SweepUnmutesAll | inject.js:118-120 | after a pass every element is unmuted; count, order, sources and positions are unchanged |
| Injector.SweepPlayState | inject.js:121-129 | the play state changes iff the element was paused at time 0 and `play()` resolved; playing or partly played elements are only unmuted |
| Injector.RejectionIsIsolated | inject.js:123-128 | a rejected play on one element does not affect any other element of the batch |
| Injector.PlayAttemptsExact | inject.js:122-123 | `play()` is called exactly on the elements paused at time 0, once each, in document order |
| Injector.SweepIdempotent | inject.js:118-123 | a second pass leaves every element unmuted; it retries only elements whose first attempt was rejected, and leaves the rest exactly as the first pass did |
| Injector.Injection.EnableAudio | inject.js:115-134 | the loop leaves the array equal to `Sweep` of the old one, returns the `play()` calls made, and sets the status to "Connection active - Last check: " followed by the time |
| Injector.EveryTriggerSameUpdate | inject.js:136-148 | the initial run, an interval tick and an observed mutation over the same elements perform the same update, which unmutes everything |
| Injector.ReplayEndsChecked | inject.js:133-148 | after any trace whose last event is a trigger, every audio element is unmuted and the status shows that trigger's check time |
| Injector.TriggersKeepAllUnmuted | inject.js:137-148 | in a trace of triggers only, every element is unmuted after every step |
| Injector.EchoesOnlyRetryFresh | inject.js:112-145 | passes started by the status write keep the element count and the unmuted flags, never touch an element that is not paused at time 0, and leave the last pass's time in the status |
| Injector.FiredThenEchoes | inject.js:115-148 | after a pass and any number of passes its own status writes trigger, every element is unmuted, an element the first pass left playing is untouched, and only elements whose first attempt was rejected can be retried |
| GtkVariant.TrayIcon | hfc_alerts.py:105-110 | the tray icon comes from `assets/icon.png` iff that file exists, else from the stock info icon |
| GtkVariant.WindowIconFor | hfc_alerts.py:30-33 | the window icon is set from `assets/icon.png` iff that file exists |
| GtkVariant.Dispatch | hfc_alerts.py:116-167 | a connected callback calls `Gtk.main_quit` iff it is `quit` |
| GtkVariant.Step | hfc_alerts.py:62-155 | a signal (button click, tray click, menu activation, delete-event) asks the main loop to end iff it activates the Quit item |
| GtkVariant.DeleteOnlyHides | hfc_alerts.py:152-155 | delete-event hides the window, records nothing, and never ends the main loop |
| GtkVariant.ToggleTwiceRestores | hfc_alerts.py:116-122 | a tray click flips visibility and does not quit; two clicks restore the state |
| GtkVariant.ShowHideIsToggle | hfc_alerts.py:129-130 | "Show/Hide" runs exactly what a tray click runs |
| GtkVariant.OpenAndRefreshOnlyRecord | hfc_alerts.py:157-163 | "Open in Browser" opens exactly `HFC_URL`, "Refresh" only reloads the view; neither changes the state |
| GtkVariant.ButtonsMatchMenuItems | hfc_alerts.py:62-70 | the "Open in Browser" and "Refresh" buttons run exactly what the menu items of the same caption run, and no button click changes the state |
| GtkVariant.QuitIsOnlyLastItem | hfc_alerts.py:138-146 | the only Quit item is the last entry, after the separator |
| GtkVariant.OnlyQuitEndsLoop | hfc_alerts.py:165-167 | after any trace of button clicks, tray clicks, menu activations and delete-events, `Gtk.main_quit` has been called iff it had been before or the Quit item was activated |
| GtkVariant.TrayClicksParity | hfc_alerts.py:116-122 | after n tray clicks the window's visibility is flipped iff n is odd, and the loop is not ended |
| GtkVariant.App.constructor | hfc_alerts.py:23-114 | title and tooltip are "HFC Alerts (Unofficial) v1.0.0"; the window icon is set only if the file exists; the tray icon falls back; the two buttons are wired to their callbacks; the window is shown and the page loaded |
| GtkVariant.App.OnDeleteEvent | hfc_alerts.py:152-155 | returns True and only hides the window |
| GtkVariant.App.OnTrayIconActivate | hfc_alerts.py:116-122 | the tray click toggles visibility, and presents the window when it shows it |
| GtkVariant.App.OnTrayIconPopupMenu | hfc_alerts.py:124-150 | the menu is Show/Hide, Refresh, Open in Browser, separator, Quit, each wired to its callback |
| GtkVariant.App.OnMenuItemActivate | hfc_alerts.py:129-139 | activating an item runs the callback it is connected to |
| GtkVariant.App.OnButtonClicked | hfc_alerts.py:62-70 | a click on a window button runs the callback it is connected to |
| GtkVariant.App.OpenInBrowser | hfc_alerts.py:157-159 | logs one `webbrowser.open(HFC_URL)` and changes no state |
| GtkVariant.App.RefreshPage | hfc_alerts.py:161-163 | logs one webview reload and changes no state |
| GtkVariant.App.Quit | hfc_alerts.py:165-167 | calls `Gtk.main_quit` and changes nothing else |
| ClosePolicies.ClosePoliciesAgreeUntilQuit | main.js:55-61 | before any quit, both front ends turn a close into a hide that does not end the program |
| ClosePolicies.ClosePoliciesDifferWhenQuitting | hfc_alerts.py:152-155 | once the Electron host is quitting, its close destroys the window, while the GTK delete-event still only hides |

## Left out

- Window, tray and menu construction inside the toolkits is left out. So are sizes, margins, labels' markup and all CSS of the control bar. They are rendering with no decision in them.
- `shell.openExternal`, `webbrowser.open`, `executeJavaScript`, `location.reload` and `loadURL` are recorded as effects, not performed. So are `app.quit` and `Gtk.main_quit`. What Electron does after `app.quit` is the event trace (before-quit, close, closed, window-all-closed).
- Reading `inject.js` from disk (`fs.readFileSync`) is left out; it is I/O.
- `preload.js` is not part of this model. The injected "Open in Browser" button is modelled only as the bridge action it invokes.
- The autoplay command-line switch, the WebKit media settings, SIGINT handling, `print` and `console.log` output, and the two main loops are process configuration or I/O, so they are left out.
- The asynchrony of `play()` is left out: each attempt's outcome is an input, and a missing outcome counts as a rejection.
- The `playPromise !== undefined` guard is not modelled as a separate case. A `play()` without a promise has nothing to catch, which is what a swallowed rejection already models.
- The real timing of `setInterval` and of `MutationObserver` delivery is left out. Both are events of a trace.
- Whether the browser reports a status write as a change, and so how many self-triggered passes follow one pass, is engine behaviour and left out. `Echoes` allows any finite number; whether the chain ever stops is not stated.
- `toLocaleTimeString` is left out; the time string is an input. Hence the model does not state that check times increase.
- Injection.constructor: does not model the `<style>` element appended to the document head. It is CSS only.
- Electron can also emit events in states the model's `Enabled` rules out (for example `closed` for a live window). The invariant lemmas assume Electron's documented ordering.
