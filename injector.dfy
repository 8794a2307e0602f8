/**
 * The script the host injects into the page its view shows after every load: it
 * appends a control bar to the page body, then keeps every audio element
 * unmuted and retries playback of alerts that have not started, on an
 * initial run, every five seconds and on every observed DOM mutation.
 *
 * `play()` resolves or rejects asynchronously; here each attempt's outcome
 * is an input.  The clock string shown in the status line is an input too.
 */
module Injector {

  const APP_VERSION: string := "1.0.0"
  const OPEN_LABEL: string := "Open in Browser"
  const REFRESH_LABEL: string := "Refresh"
  const DISCLAIMER: string :=
    "DISCLAIMER: This is NOT an official Home Front Command utility. It is provided merely as an "
    + "additional way to receive notifications. No warranty is offered. Do NOT rely upon this as "
    + "your sole means of alert - always rely on official channels first."
  const VERSION_TEXT: string := "Version " + APP_VERSION
  const INITIAL_STATUS: string := "Connection active"
  const CHECK_PREFIX: string := "Connection active - Last check: "

  /** What clicking an injected button does. */
  datatype ClickAction =
    | OpenInBrowserBridge   // window.api.openInBrowser(), answered by the host's IPC handler
    | ReloadLocation        // location.reload()

  /**
   * The DOM nodes the script creates.  The text of the single
   * `StatusParagraph` is the live `status` of the injection, which
   * `EnableAudio` overwrites in place.
   */
  datatype Node =
    | Div(className: string, children: seq<Node>)
    | Button(className: string, caption: string, onClick: ClickAction)
    | Paragraph(className: string, text: string)
    | StatusParagraph(className: string)
    | PageContent           // whatever the alert page itself put in the body

  /** The texts a reader sees in `nodes`, in document order. */
  function Texts(nodes: seq<Node>, status: string): seq<string>
    decreases nodes
  {
    if nodes == [] then []
    else
      var head :=
        match nodes[0]
        case Div(_, children) => Texts(children, status)
        case Button(_, caption, _) => [caption]
        case Paragraph(_, text) => [text]
        case StatusParagraph(_) => [status]
        case PageContent => [];
      head + Texts(nodes[1..], status)
  }

  /** The buttons in `nodes`, in document order, with what each does. */
  function Buttons(nodes: seq<Node>): seq<(string, ClickAction)>
    decreases nodes
  {
    if nodes == [] then []
    else
      var head :=
        match nodes[0]
        case Div(_, children) => Buttons(children)
        case Button(_, caption, action) => [(caption, action)]
        case _ => [];
      head + Buttons(nodes[1..])
  }

  /** The control bar as the script builds it. */
  function ControlBar(): Node
  {
    Div("hfc-wrapper-controls", [
      Div("hfc-wrapper-buttons", [
        Button("hfc-wrapper-button", OPEN_LABEL, OpenInBrowserBridge),
        Button("hfc-wrapper-button", REFRESH_LABEL, ReloadLocation)]),
      Paragraph("hfc-wrapper-disclaimer", DISCLAIMER),
      Paragraph("hfc-wrapper-version", VERSION_TEXT),
      StatusParagraph("hfc-wrapper-status")])
  }

  /**
   * The bar shows "Open in Browser", "Refresh", the disclaimer, the
   * version and the status line, in that order, and its two buttons open
   * the page externally and reload it.
   */
  lemma ControlBarLayout(status: string)
    ensures Texts([ControlBar()], status) == [OPEN_LABEL, REFRESH_LABEL, DISCLAIMER, VERSION_TEXT, status]
    ensures Buttons([ControlBar()]) == [(OPEN_LABEL, OpenInBrowserBridge), (REFRESH_LABEL, ReloadLocation)]
  {
    var buttons := [Button("hfc-wrapper-button", OPEN_LABEL, OpenInBrowserBridge),
                    Button("hfc-wrapper-button", REFRESH_LABEL, ReloadLocation)];
    assert Texts(buttons, status) == [OPEN_LABEL, REFRESH_LABEL] by {
      assert Texts(buttons[1..], status) == [REFRESH_LABEL] + Texts([], status);
    }
    assert Buttons(buttons) == [(OPEN_LABEL, OpenInBrowserBridge), (REFRESH_LABEL, ReloadLocation)] by {
      assert Buttons(buttons[1..]) == [(REFRESH_LABEL, ReloadLocation)] + Buttons([]);
    }
    var rest := [Paragraph("hfc-wrapper-disclaimer", DISCLAIMER),
                 Paragraph("hfc-wrapper-version", VERSION_TEXT),
                 StatusParagraph("hfc-wrapper-status")];
    assert Texts(rest, status) == [DISCLAIMER, VERSION_TEXT, status] by {
      assert Texts(rest[2..], status) == [status] + Texts([], status);
      assert Texts(rest[1..], status) == [VERSION_TEXT] + Texts(rest[2..], status);
    }
    assert Buttons(rest) == [] by {
      assert Buttons(rest[2..]) == [] + Buttons([]);
      assert Buttons(rest[1..]) == [] + Buttons(rest[2..]);
    }
    var children := [Div("hfc-wrapper-buttons", buttons)] + rest;
    assert children[1..] == rest;
    assert Texts(children, status) == Texts(buttons, status) + Texts(rest, status);
    assert Buttons(children) == Buttons(buttons) + Buttons(rest);
  }

  // ---------------------------------------------------------------------
  // The audio watchdog

  /** The fields of an HTMLAudioElement that the watchdog reads or writes. */
  datatype AudioElement = AudioElement(src: string, muted: bool, paused: bool, currentTime: real)

  /** How the promise returned by one `play()` call settles. */
  datatype PlayOutcome = Resolved | Rejected(reason: string)

  /** The heuristic for "an alert that failed to autoplay": paused at the very start. */
  predicate IsFreshAlert(a: AudioElement)
  {
    a.paused && a.currentTime == 0.0
  }

  /** The outcome of the play attempt on element `i`; attempts with no given outcome are rejected. */
  function OutcomeAt(outcomes: seq<PlayOutcome>, i: nat): PlayOutcome
  {
    if i < |outcomes| then outcomes[i] else Rejected("no outcome")
  }

  /** One iteration of the `forEach`: unmute, then try to play a fresh alert. */
  function Checked(a: AudioElement, outcome: PlayOutcome): (r: AudioElement)
    ensures !r.muted
    ensures r.src == a.src && r.currentTime == a.currentTime
    ensures r.paused <==> a.paused && !(IsFreshAlert(a) && outcome.Resolved?)
  {
    var unmuted := a.(muted := false);
    if IsFreshAlert(unmuted) && outcome.Resolved? then unmuted.(paused := false) else unmuted
  }

  /** The elements after one `enableAudio` pass, processed front to back. */
  function Sweep(s: seq<AudioElement>, outcomes: seq<PlayOutcome>): (r: seq<AudioElement>)
    ensures |r| == |s|
    decreases |s|
  {
    if s == [] then []
    else Sweep(s[..|s| - 1], outcomes) + [Checked(s[|s| - 1], OutcomeAt(outcomes, |s| - 1))]
  }

  /** The indices on which `enableAudio` calls `play()`, in the order it calls it. */
  function PlayAttempts(s: seq<AudioElement>): seq<nat>
    decreases |s|
  {
    if s == [] then []
    else PlayAttempts(s[..|s| - 1]) + (if IsFreshAlert(s[|s| - 1]) then [|s| - 1] else [])
  }

  /** Element `k` of a pass depends on element `k` and its own outcome only. */
  lemma {:induction false} SweepAt(s: seq<AudioElement>, outcomes: seq<PlayOutcome>, k: nat)
    requires k < |s|
    ensures Sweep(s, outcomes)[k] == Checked(s[k], OutcomeAt(outcomes, k))
    decreases |s|
  {
    if k < |s| - 1 {
      SweepAt(s[..|s| - 1], outcomes, k);
    }
  }

  /**
   * After a pass every element is unmuted; the number and order of the
   * elements (by source and position) is unchanged.
   */
  lemma SweepUnmutesAll(s: seq<AudioElement>, outcomes: seq<PlayOutcome>)
    ensures |Sweep(s, outcomes)| == |s|
    ensures forall k :: 0 <= k < |s| ==> !Sweep(s, outcomes)[k].muted
    ensures forall k :: 0 <= k < |s| ==>
      Sweep(s, outcomes)[k].src == s[k].src && Sweep(s, outcomes)[k].currentTime == s[k].currentTime
  {
    forall k | 0 <= k < |s|
      ensures !Sweep(s, outcomes)[k].muted
      ensures Sweep(s, outcomes)[k].src == s[k].src && Sweep(s, outcomes)[k].currentTime == s[k].currentTime
    {
      SweepAt(s, outcomes, k);
    }
  }

  /**
   * Playback starts on element `k` exactly when it was a fresh alert and
   * its attempt resolved; a rejection leaves it paused, and elements that
   * were playing or partly played keep their play state.
   */
  lemma SweepPlayState(s: seq<AudioElement>, outcomes: seq<PlayOutcome>, k: nat)
    requires k < |s|
    ensures Sweep(s, outcomes)[k].paused != s[k].paused <==>
            IsFreshAlert(s[k]) && OutcomeAt(outcomes, k).Resolved?
    ensures !IsFreshAlert(s[k]) ==> Sweep(s, outcomes)[k] == s[k].(muted := false)
  {
    SweepAt(s, outcomes, k);
  }

  /**
   * A rejected attempt does not stop the batch: element `k` ends up the
   * same whatever the attempts on the other elements did.
   */
  lemma RejectionIsIsolated(s: seq<AudioElement>, o1: seq<PlayOutcome>, o2: seq<PlayOutcome>, k: nat)
    requires k < |s| && OutcomeAt(o1, k) == OutcomeAt(o2, k)
    ensures Sweep(s, o1)[k] == Sweep(s, o2)[k]
  {
    SweepAt(s, o1, k);
    SweepAt(s, o2, k);
  }

  /** `play()` is called on exactly the fresh alerts, once each, front to back. */
  lemma {:induction false} PlayAttemptsExact(s: seq<AudioElement>)
    ensures forall k :: k in PlayAttempts(s) <==> 0 <= k < |s| && IsFreshAlert(s[k])
    ensures forall i, j :: 0 <= i < j < |PlayAttempts(s)| ==> PlayAttempts(s)[i] < PlayAttempts(s)[j]
    decreases |s|
  {
    if s != [] {
      var init := s[..|s| - 1];
      PlayAttemptsExact(init);
      var pa := PlayAttempts(init);
      var last: seq<nat> := if IsFreshAlert(s[|s| - 1]) then [|s| - 1] else [];
      assert PlayAttempts(s) == pa + last;
      assert forall k :: k in pa ==> k < |s| - 1;
      forall i, j | 0 <= i < j < |pa + last|
        ensures (pa + last)[i] < (pa + last)[j]
      {
        if j >= |pa| {
          assert pa[i] in pa;
        }
      }
    }
  }

  /**
   * A second pass changes nothing that the first settled: muted flags stay
   * cleared, and only elements whose first attempt was rejected are
   * retried; those that started playing are not played again.
   */
  lemma SweepIdempotent(s: seq<AudioElement>, o1: seq<PlayOutcome>, o2: seq<PlayOutcome>, k: nat)
    requires k < |s|
    ensures !Sweep(Sweep(s, o1), o2)[k].muted
    ensures IsFreshAlert(Sweep(s, o1)[k]) ==> IsFreshAlert(s[k]) && OutcomeAt(o1, k).Rejected?
    ensures !IsFreshAlert(Sweep(s, o1)[k]) ==> Sweep(Sweep(s, o1), o2)[k] == Sweep(s, o1)[k]
  {
    SweepAt(s, o1, k);
    SweepAt(Sweep(s, o1), o2, k);
  }

  /**
   * One injection into a loaded page: the page body with the control bar
   * appended, and the live text of the status line.
   */
  class Injection {
    var body: seq<Node>
    var status: string

    /** Builds the control bar child by child and appends it to the body once. */
    constructor (pageBody: seq<Node>)
      ensures body == pageBody + [ControlBar()]
      ensures status == INITIAL_STATUS
    {
      var buttons: seq<Node> := [];
      buttons := buttons + [Button("hfc-wrapper-button", OPEN_LABEL, OpenInBrowserBridge)];
      buttons := buttons + [Button("hfc-wrapper-button", REFRESH_LABEL, ReloadLocation)];
      var controls: seq<Node> := [];
      controls := controls + [Div("hfc-wrapper-buttons", buttons)];
      controls := controls + [Paragraph("hfc-wrapper-disclaimer", DISCLAIMER)];
      controls := controls + [Paragraph("hfc-wrapper-version", VERSION_TEXT)];
      controls := controls + [StatusParagraph("hfc-wrapper-status")];
      status := INITIAL_STATUS;
      assert buttons == ControlBar().children[0].children;
      assert controls == ControlBar().children;
      body := pageBody + [Div("hfc-wrapper-controls", controls)];
    }

    /**
     * `enableAudio`: one pass over the audio elements `document.querySelectorAll`
     * returned, then the status update.  Returns the indices `play()` was
     * called on.
     */
    method EnableAudio(audio: array<AudioElement>, outcomes: seq<PlayOutcome>, time: string)
      returns (attempted: seq<nat>)
      modifies this`status, audio
      ensures audio[..] == Sweep(old(audio[..]), outcomes)
      ensures attempted == PlayAttempts(old(audio[..]))
      ensures status == CHECK_PREFIX + time
    {
      ghost var before := audio[..];
      attempted := [];
      var i := 0;
      while i < audio.Length
        invariant 0 <= i <= audio.Length
        invariant audio[..i] == Sweep(before[..i], outcomes)
        invariant audio[i..] == before[i..]
        invariant attempted == PlayAttempts(before[..i])
      {
        var a := audio[i];
        assert a == before[i];
        audio[i] := a.(muted := false);
        if a.paused && a.currentTime == 0.0 {
          attempted := attempted + [i];
          if OutcomeAt(outcomes, i).Resolved? {
            audio[i] := audio[i].(paused := false);
          }
        }
        assert before[..i + 1][..i] == before[..i];
        i := i + 1;
      }
      assert before[..audio.Length] == before;
      status := CHECK_PREFIX + time;
    }
  }

  // ---------------------------------------------------------------------
  // The three triggers

  /** What the watchdog sees of the page: its audio elements and the status text. */
  datatype PageState = PageState(audio: seq<AudioElement>, status: string)

  /**
   * The three callers of `enableAudio`.  An observed mutation carries the
   * audio elements present once the body's child list has changed.
   */
  datatype Trigger = InitialRun | IntervalTick | ObservedMutation(audio: seq<AudioElement>)

  datatype PageEvent =
    | Fired(trigger: Trigger, outcomes: seq<PlayOutcome>, time: string)
    | Unobserved(audio: seq<AudioElement>)  // a change the observer does not report (properties, attributes)

  /** The elements `querySelectorAll('audio')` returns when `t` fires. */
  function Queried(p: PageState, t: Trigger): seq<AudioElement>
  {
    if t.ObservedMutation? then t.audio else p.audio
  }

  function Apply(p: PageState, e: PageEvent): PageState
  {
    match e
    case Fired(t, outcomes, time) => PageState(Sweep(Queried(p, t), outcomes), CHECK_PREFIX + time)
    case Unobserved(audio) => p.(audio := audio)
  }

  function Replay(p: PageState, evs: seq<PageEvent>): PageState
    decreases |evs|
  {
    if evs == [] then p else Replay(Apply(p, evs[0]), evs[1..])
  }

  predicate AllUnmuted(audio: seq<AudioElement>)
  {
    forall k :: 0 <= k < |audio| ==> !audio[k].muted
  }

  /** The initial run, a timer tick and a mutation over the same elements do the same update. */
  lemma EveryTriggerSameUpdate(p: PageState, outcomes: seq<PlayOutcome>, time: string)
    ensures Apply(p, Fired(InitialRun, outcomes, time)) == Apply(p, Fired(IntervalTick, outcomes, time))
    ensures Apply(p, Fired(ObservedMutation(p.audio), outcomes, time)) == Apply(p, Fired(IntervalTick, outcomes, time))
    ensures AllUnmuted(Apply(p, Fired(IntervalTick, outcomes, time)).audio)
  {
    SweepUnmutesAll(p.audio, outcomes);
  }

  lemma {:induction false} ReplaySnoc(p: PageState, evs: seq<PageEvent>, e: PageEvent)
    ensures Replay(p, evs + [e]) == Apply(Replay(p, evs), e)
    decreases |evs|
  {
    if evs == [] {
      assert [e][1..] == [];
    } else {
      assert (evs + [e])[1..] == evs[1..] + [e];
      ReplaySnoc(Apply(p, evs[0]), evs[1..], e);
    }
  }

  /**
   * Whatever happened before, once a trigger has fired last every audio
   * element is unmuted and the status shows that trigger's check time.
   */
  lemma {:induction false} ReplayEndsChecked(p: PageState, evs: seq<PageEvent>)
    requires |evs| > 0 && evs[|evs| - 1].Fired?
    ensures AllUnmuted(Replay(p, evs).audio)
    ensures Replay(p, evs).status == CHECK_PREFIX + evs[|evs| - 1].time
  {
    var n := |evs|;
    assert evs == evs[..n - 1] + [evs[n - 1]];
    ReplaySnoc(p, evs[..n - 1], evs[n - 1]);
    var q := Replay(p, evs[..n - 1]);
    SweepUnmutesAll(Queried(q, evs[n - 1].trigger), evs[n - 1].outcomes);
  }

  /**
   * The status line sits inside the observed body, so the status write at
   * the end of a pass is itself a child-list change the observer may
   * report, and the pass it starts writes the status again.  `Echoes`
   * runs such self-triggered passes, one per round, each over the
   * elements the page holds at that moment, with the round's outcomes
   * and check time.
   */
  function Echoes(p: PageState, rounds: seq<(seq<PlayOutcome>, string)>): PageState
    decreases |rounds|
  {
    if rounds == [] then p
    else Echoes(Apply(p, Fired(ObservedMutation(p.audio), rounds[0].0, rounds[0].1)), rounds[1..])
  }

  /**
   * Self-triggered passes over already unmuted elements keep the element
   * count and the muted flags, leave every element that is not a fresh
   * alert exactly as it was, and leave the last round's time in the status.
   */
  lemma {:induction false} EchoesOnlyRetryFresh(p: PageState, rounds: seq<(seq<PlayOutcome>, string)>, k: nat)
    requires k < |p.audio| && !p.audio[k].muted
    ensures |Echoes(p, rounds).audio| == |p.audio|
    ensures !Echoes(p, rounds).audio[k].muted
    ensures !IsFreshAlert(p.audio[k]) ==> Echoes(p, rounds).audio[k] == p.audio[k]
    ensures rounds != [] ==> Echoes(p, rounds).status == CHECK_PREFIX + rounds[|rounds| - 1].1
    decreases |rounds|
  {
    if rounds != [] {
      var q := Apply(p, Fired(ObservedMutation(p.audio), rounds[0].0, rounds[0].1));
      SweepAt(p.audio, rounds[0].0, k);
      EchoesOnlyRetryFresh(q, rounds[1..], k);
      if |rounds| > 1 {
        assert rounds[1..][|rounds[1..]| - 1] == rounds[|rounds| - 1];
      }
    }
  }

  /**
   * A pass followed by any number of passes its own status writes
   * trigger: every element ends unmuted, an element the first pass left
   * playing or partly played is never touched again, and only elements
   * whose first attempt was rejected can be retried.
   */
  lemma FiredThenEchoes(p: PageState, t: Trigger, outcomes: seq<PlayOutcome>, time: string,
                        rounds: seq<(seq<PlayOutcome>, string)>, k: nat)
    requires k < |Queried(p, t)|
    ensures var q := Apply(p, Fired(t, outcomes, time));
            && |Echoes(q, rounds).audio| == |Queried(p, t)|
            && !Echoes(q, rounds).audio[k].muted
            && (!IsFreshAlert(q.audio[k]) ==> Echoes(q, rounds).audio[k] == q.audio[k])
            && (IsFreshAlert(q.audio[k]) ==> IsFreshAlert(Queried(p, t)[k]) && OutcomeAt(outcomes, k).Rejected?)
  {
    var q := Apply(p, Fired(t, outcomes, time));
    SweepAt(Queried(p, t), outcomes, k);
    EchoesOnlyRetryFresh(q, rounds, k);
  }

  /** A trace made only of triggers leaves every element unmuted after each step. */
  lemma {:induction false} TriggersKeepAllUnmuted(p: PageState, evs: seq<PageEvent>, j: nat)
    requires forall i :: 0 <= i < |evs| ==> evs[i].Fired?
    requires 0 < j <= |evs|
    ensures AllUnmuted(Replay(p, evs[..j]).audio)
  {
    ReplayEndsChecked(p, evs[..j]);
  }
}
