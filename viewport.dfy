/**
  The responsive controller: the window length chosen for a viewport width,
  and the resize handler that re-renders the uptime list only when that
  length changes. The width is passed in where the JavaScript reads
  `window.innerWidth`; a missing width reads as 0, as `|| 0` makes it.
 */
module Viewport {

  /** The four window lengths, widest first. */
  const WindowLengths: set<nat> := {90, 60, 30, 14}

  /** `getDaysToDisplay`: the first width threshold met, checked widest first. */
  function DaysToDisplay(width: int): (days: nat)
    ensures days in WindowLengths
    ensures days == 90 <==> width >= 1200
    ensures days == 14 <==> width < 640
  {
    if width >= 1200 then 90
    else if width >= 900 then 60
    else if width >= 640 then 30
    else 14
  }

  /** A wider viewport never shows fewer days. */
  lemma DaysToDisplayMonotone(w1: int, w2: int)
    requires w1 <= w2
    ensures DaysToDisplay(w1) <= DaysToDisplay(w2)
  {
  }

  /** The bucket edges on both sides of each threshold. */
  lemma DaysToDisplayBoundaries()
    ensures DaysToDisplay(1200) == 90 && DaysToDisplay(1199) == 60
    ensures DaysToDisplay(900) == 60 && DaysToDisplay(899) == 30
    ensures DaysToDisplay(640) == 30 && DaysToDisplay(639) == 14
    ensures DaysToDisplay(0) == 14
  {
  }

  /**
    The state `initializeDashboard` keeps for the resize handler: the window
    length last rendered (`currentDays`) and whether a debounce timer is
    scheduled (`resizeTimeoutId` holding a timer that has not yet fired).
    `renders` records the window length of every call to render the uptime
    list, the first one being the initial render.
   */
  class ResizeController {
    var currentDays: nat
    var timerPending: bool
    ghost var renders: seq<nat>

    /** The rendered length is a valid bucket, is the last one rendered, and no render repeats the one before it. */
    ghost predicate Valid()
      reads this
    {
      && currentDays in WindowLengths
      && |renders| > 0
      && renders[|renders| - 1] == currentDays
      && forall k :: 0 < k < |renders| ==> renders[k - 1] != renders[k]
    }

    /** The initial render with the length for the width at start-up; no timer yet. */
    constructor (width: int)
      ensures Valid()
      ensures currentDays == DaysToDisplay(width) && !timerPending
      ensures renders == [currentDays]
    {
      currentDays := DaysToDisplay(width);
      timerPending := false;
      renders := [currentDays];
    }

    /**
      A resize event: any scheduled timer is cleared and a fresh one is
      scheduled, so a timer is pending afterwards. Nothing is rendered.
     */
    method OnResize()
      modifies this`timerPending
      ensures timerPending
    {
      timerPending := true;
    }

    /**
      The debounce timer fires with the viewport at `width`: the length is
      recomputed and the list re-rendered only when it differs from the
      rendered one.
     */
    method OnTimerFire(width: int) returns (rerendered: bool)
      requires Valid() && timerPending
      modifies this
      ensures Valid() && !timerPending
      ensures currentDays == DaysToDisplay(width)
      ensures rerendered <==> DaysToDisplay(width) != old(currentDays)
      ensures renders == if rerendered then old(renders) + [currentDays] else old(renders)
    {
      timerPending := false;
      var nextDays := DaysToDisplay(width);
      rerendered := nextDays != currentDays;
      if rerendered {
        currentDays := nextDays;
        renders := renders + [currentDays];
      }
    }
  }

  /**
    A burst of resize events followed by one quiet period: the timer fires
    once, so the list is rendered at most once, with the width at firing time.
   */
  method ResizeBurst(c: ResizeController, width: int) returns (rerendered: bool)
    requires c.Valid()
    modifies c
    ensures c.Valid() && c.currentDays == DaysToDisplay(width)
    ensures |c.renders| <= |old(c.renders)| + 1
    ensures rerendered <==> |c.renders| == |old(c.renders)| + 1
  {
    c.OnResize();
    c.OnResize();
    c.OnResize();
    rerendered := c.OnTimerFire(width);
  }

  /** Two timer firings at the same width render at most once: the second never does. */
  method FireTwiceSameWidth(c: ResizeController, width: int) returns (first: bool, second: bool)
    requires c.Valid()
    modifies c
    ensures !second
    ensures |c.renders| <= |old(c.renders)| + 1
  {
    c.OnResize();
    first := c.OnTimerFire(width);
    c.OnResize();
    second := c.OnTimerFire(width);
  }
}
