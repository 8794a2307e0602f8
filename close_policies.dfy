/**
 * The two front ends side by side: both turn a window close into a hide
 * while the user has not chosen Quit; only the Electron host lets a close
 * through, and only once its quit intent is set.
 */
module ClosePolicies {
  import E = ElectronHost
  import G = GtkVariant

  lemma ClosePoliciesAgreeUntilQuit(h: E.HostState, g: G.AppState)
    requires E.Valid(h) && h.window != E.Destroyed && !h.isQuitting
    ensures E.Step(h, E.Close).state.window == E.Hidden
    ensures G.Step(g, G.DeleteEvent).state.visible == false
    ensures !E.Step(h, E.Close).state.isQuitting && G.Step(g, G.DeleteEvent).state.mainQuit == g.mainQuit
  {
  }

  /** Once quitting, the Electron close goes through; the GTK delete-event never does. */
  lemma ClosePoliciesDifferWhenQuitting(h: E.HostState, g: G.AppState)
    requires E.Valid(h) && h.window != E.Destroyed && h.isQuitting
    ensures E.Step(h, E.Close).reply == E.Done && E.Step(h, E.Close).state.window == E.Destroyed
    ensures G.Step(g, G.DeleteEvent).state == g.(visible := false)
  {
  }
}
