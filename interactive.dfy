/**
 * The interactive capture: the calling thread polls a flag that the overlay
 * thread clears, and gives up after a bounded number of polls. The overlay
 * thread is an oracle here: `overlay[k]` says whether it has reported (called
 * `update`) by the time the caller checks the flag for the k-th time; checks
 * beyond the end of `overlay` find it still waiting.
 */
module Interactive {
  import opened Wrappers
  import opened Geometry

  /** The poll budget of `userCapture` (`waitForScreenshot`). */
  const WaitForScreenshot: nat := 300

  /** The overlay has cleared the flag by the k-th check. */
  predicate Signalled(overlay: seq<bool>, k: nat)
  {
    k < |overlay| && overlay[k]
  }

  /** How the poll loop ends, with the number of sleeps it took. */
  datatype Wait = Completed(sleeps: nat) | TimedOut(sleeps: nat)

  /**
   * The poll loop from its k-th check on, against the budget `limit`: at each
   * check a cleared flag ends the wait; otherwise the caller sleeps once and
   * gives up when the counter, read before its increment, exceeds `limit`.
   */
  function WaitFrom(overlay: seq<bool>, k: nat, limit: nat): (w: Wait)
    requires k <= limit + 1
    ensures w.Completed? <==> exists j :: k <= j <= limit + 1 && Signalled(overlay, j)
    ensures w.Completed? ==> k <= w.sleeps <= limit + 1 && Signalled(overlay, w.sleeps)
    ensures w.Completed? ==> forall j :: k <= j < w.sleeps ==> !Signalled(overlay, j)
    ensures w.TimedOut? ==> w.sleeps == limit + 2
    decreases limit + 1 - k
  {
    if Signalled(overlay, k) then Completed(k)
    else if k > limit then TimedOut(k + 1)
    else WaitFrom(overlay, k + 1, limit)
  }

  /** The whole poll loop of one `userCapture` call. */
  function WaitFor(overlay: seq<bool>, limit: nat): (w: Wait)
  {
    WaitFrom(overlay, 0, limit)
  }

  /**
   * If the overlay never reports within the budget, the loop gives up after
   * exactly `limit + 2` sleeps, not `limit`.
   */
  lemma SilentOverlayTimesOut(overlay: seq<bool>, limit: nat)
    requires forall j :: 0 <= j <= limit + 1 ==> !Signalled(overlay, j)
    ensures WaitFor(overlay, limit) == TimedOut(limit + 2)
  {
  }

  /**
   * If the overlay first reports at check k, with k within the budget, the wait
   * completes after exactly k sleeps.
   */
  lemma FirstSignalCompletes(overlay: seq<bool>, limit: nat, k: nat)
    requires k <= limit + 1 && Signalled(overlay, k)
    requires forall j :: 0 <= j < k ==> !Signalled(overlay, j)
    ensures WaitFor(overlay, limit) == Completed(k)
  {
  }

  /** With the source's budget of 300 polls, a silent overlay is abandoned after 302 sleeps. */
  lemma DefaultBudgetTimesOutAfter302Sleeps(overlay: seq<bool>)
    requires forall j :: 0 <= j <= 301 ==> !Signalled(overlay, j)
    ensures WaitFor(overlay, WaitForScreenshot) == TimedOut(302)
  {
    SilentOverlayTimesOut(overlay, WaitForScreenshot);
  }

  /** With a budget of 5 polls and an overlay that never reports, the caller sleeps 7 times, then gives up. */
  lemma FiveAttemptBudgetSleepsSevenTimes()
    ensures WaitFor([], 5) == TimedOut(7)
    ensures UserCaptureResult([], 5, Some(ScreenImage(Rect(10, 20, 100, 50), []))) == None
  {
  }

  /** An overlay that reports a (10,20,100,50) selection by check 3 (the fourth, after 3 sleeps) ends the wait there. */
  lemma SelectionReportedAfterThirdSleep(pixels: Pixels)
    ensures WaitFor([false, false, false, true], 5) == Completed(3)
    ensures RegionOf(UserCaptureResult([false, false, false, true], 5, Some(ScreenImage(Rect(10, 20, 100, 50), pixels))))
              == Some(Rect(10, 20, 100, 50))
  {
    FirstSignalCompletes([false, false, false, true], 5, 3);
  }

  /** What `userCapture` returns: nothing on timeout, else the overlay's selection (itself null on cancel). */
  function UserCaptureResult(overlay: seq<bool>, limit: nat, selection: Option<ScreenImage>): (r: Option<ScreenImage>)
  {
    if WaitFor(overlay, limit).TimedOut? then None else selection
  }

  /** `selectRegion`'s mapping: no capture gives no region, else the capture's ROI. */
  function RegionOf(sim: Option<ScreenImage>): (r: Option<Rect>)
    ensures r.None? <==> sim.None?
    ensures r.Some? ==> r.value == sim.value.roi
  {
    match sim
    case None => None
    case Some(img) => Some(img.roi)
  }

  /**
   * `selectRegion` yields nothing exactly when the wait timed out or the user
   * cancelled; otherwise the region is the selection's ROI.
   */
  lemma SelectRegionIsNoneIff(overlay: seq<bool>, limit: nat, selection: Option<ScreenImage>)
    ensures RegionOf(UserCaptureResult(overlay, limit, selection)).None? <==>
            WaitFor(overlay, limit).TimedOut? || selection.None?
    ensures RegionOf(UserCaptureResult(overlay, limit, selection)).Some? ==>
            RegionOf(UserCaptureResult(overlay, limit, selection)).value == selection.value.roi
  {
  }
}
