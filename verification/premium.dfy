/** The ad-wall of `PremiumDownload.jsx`: a one-way `showDownload` flag
    driven by clicks on the ad button and by the timers those clicks start. */
module Premium {

  /** The component's props. */
  datatype Props = Props(adLink: string, downloadUrl: string)

  /** How long after a click the download link is revealed. */
  const UnlockDelayMs: int := 3000

  /** `showDownload`, plus the number of timers scheduled but not yet fired
      (browser state the component does not hold itself). */
  datatype Unlock = Unlock(showDownload: bool, pendingTimers: nat)

  datatype Event = Click | TimerFire

  /** `window.open(url, target)` and `setTimeout(callback, delayMs)`. */
  datatype Effect = OpenWindow(url: string, target: string) | ScheduleTimer(delayMs: int)

  datatype Step = Step(state: Unlock, effects: seq<Effect>)

  /** A freshly displayed premium item. */
  function Init(): (u: Unlock)
    ensures !u.showDownload && u.pendingTimers == 0
  {
    Unlock(false, 0)
  }

  /** `handleAdClick` and the timer callback. A click opens the ad and starts
      a timer but reveals nothing; a timer firing reveals the link. A firing
      with no timer scheduled cannot happen and changes nothing. */
  function Handle(u: Unlock, props: Props, e: Event): (r: Step)
    ensures u.showDownload ==> r.state.showDownload
    ensures e == Click ==> r.state.showDownload == u.showDownload
    ensures e == Click ==> r.effects == [OpenWindow(props.adLink, "_blank"), ScheduleTimer(UnlockDelayMs)]
    ensures e == TimerFire ==> r.effects == []
    ensures e == TimerFire && u.pendingTimers > 0 ==> r.state.showDownload
  {
    match e
    case Click =>
      Step(u.(pendingTimers := u.pendingTimers + 1), [OpenWindow(props.adLink, "_blank"), ScheduleTimer(UnlockDelayMs)])
    case TimerFire =>
      if u.pendingTimers > 0 then Step(Unlock(true, u.pendingTimers - 1), [])
      else Step(u, [])
  }

  /** The state after the events `evs`, in order. */
  function Run(u: Unlock, props: Props, evs: seq<Event>): Unlock
    decreases |evs|
  {
    if evs == [] then u else Handle(Run(u, props, evs[..|evs| - 1]), props, evs[|evs| - 1]).state
  }

  /** Some click happened before some timer fired. */
  predicate ClickThenFire(evs: seq<Event>) {
    exists i, j :: 0 <= i < j < |evs| && evs[i] == Click && evs[j] == TimerFire
  }

  function Clicks(evs: seq<Event>): nat
    decreases |evs|
  {
    if evs == [] then 0 else Clicks(evs[..|evs| - 1]) + (if evs[|evs| - 1] == Click then 1 else 0)
  }

  lemma {:induction false} ClicksPositive(evs: seq<Event>)
    ensures Clicks(evs) > 0 <==> exists i :: 0 <= i < |evs| && evs[i] == Click
    decreases |evs|
  {
    if evs != [] {
      var init := evs[..|evs| - 1];
      ClicksPositive(init);
      if exists i :: 0 <= i < |init| && init[i] == Click {
        var i :| 0 <= i < |init| && init[i] == Click;
        assert evs[i] == Click;
      }
      if exists i :: 0 <= i < |evs| && evs[i] == Click {
        var i :| 0 <= i < |evs| && evs[i] == Click;
        if i < |init| {
          assert init[i] == Click;
        }
      }
    }
  }

  /** The link is revealed exactly when some timer fired after some click;
      until then every click is still waiting on its timer. */
  lemma {:induction false} RevealNeedsClickThenFire(props: Props, evs: seq<Event>)
    ensures Run(Init(), props, evs).showDownload <==> ClickThenFire(evs)
    ensures !Run(Init(), props, evs).showDownload ==> Run(Init(), props, evs).pendingTimers == Clicks(evs)
    decreases |evs|
  {
    if evs != [] {
      var init := evs[..|evs| - 1];
      var e := evs[|evs| - 1];
      RevealNeedsClickThenFire(props, init);
      ClicksPositive(init);
      if ClickThenFire(init) {
        var i, j :| 0 <= i < j < |init| && init[i] == Click && init[j] == TimerFire;
        assert evs[i] == Click && evs[j] == TimerFire;
      }
      if ClickThenFire(evs) {
        var i, j :| 0 <= i < j < |evs| && evs[i] == Click && evs[j] == TimerFire;
        assert init[i] == Click;
        if j < |init| {
          assert init[j] == TimerFire;
        }
      }
      if e == TimerFire && Clicks(init) > 0 {
        var i :| 0 <= i < |init| && init[i] == Click;
        assert evs[i] == Click;
      }
    }
  }

  /** Once revealed, the link stays revealed whatever events follow. */
  lemma {:induction false} RevealIsPermanent(u: Unlock, props: Props, evs: seq<Event>)
    requires u.showDownload
    ensures Run(u, props, evs).showDownload
    decreases |evs|
  {
    if evs != [] {
      RevealIsPermanent(u, props, evs[..|evs| - 1]);
    }
  }

  /** Clicks alone never reveal the link. */
  lemma ClicksAloneNeverReveal(props: Props, evs: seq<Event>)
    requires forall k :: 0 <= k < |evs| ==> evs[k] == Click
    ensures !Run(Init(), props, evs).showDownload
  {
  }

  /** What the component renders below its heading. */
  datatype View = AdButton | DownloadAnchor(href: string, target: string)

  /** Exactly one branch renders: the ad button until the flag is set, then
      the anchor to the unmodified `downloadUrl`. The locked view carries no
      URL at all. */
  function Render(u: Unlock, props: Props): (v: View)
    ensures v.DownloadAnchor? <==> u.showDownload
    ensures v.AdButton? <==> !u.showDownload
    ensures v.DownloadAnchor? ==> v.href == props.downloadUrl && v.target == "_blank"
  {
    if !u.showDownload then AdButton else DownloadAnchor(props.downloadUrl, "_blank")
  }

  /** Over any history of a fresh item, the download anchor is on screen
      exactly when some timer fired after some click; otherwise the ad button
      is, and no URL is rendered. */
  lemma RenderedLinkNeedsClickThenFire(props: Props, evs: seq<Event>)
    ensures Render(Run(Init(), props, evs), props) == DownloadAnchor(props.downloadUrl, "_blank") <==> ClickThenFire(evs)
    ensures Render(Run(Init(), props, evs), props) == AdButton <==> !ClickThenFire(evs)
  {
    RevealNeedsClickThenFire(props, evs);
  }

  /** Straight after a click on a fresh item the link is still withheld; once
      the timer fires it is rendered. */
  lemma ClickThenWaitScenario(props: Props)
    ensures Render(Run(Init(), props, [Click]), props) == AdButton
    ensures Render(Run(Init(), props, [Click, TimerFire]), props) == DownloadAnchor(props.downloadUrl, "_blank")
  {
  }
}
