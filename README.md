# Screen: monitor registry and interactive capture

A model of SikuliX's `Screen` class (`src/main/java/org/sikuli/script/Screen.java`):
the process-wide table of physical monitors, with one `Screen` object per monitor
and a primary monitor, and the per-screen capture operations, including the
interactive capture in which the caller polls a flag that an overlay thread clears.

- `Geometry`: rectangles (`java.awt.Rectangle`), device descriptions and screen images.
- `Monitors`: the registry's rules as functions. The primary id is the first device
  whose bounds start at (0,0), else 0. The lenient id policy clamps an out-of-range id to the primary.
- `Interactive`: the poll loop of `userCapture` as a function of an oracle for the
  overlay thread, and `selectRegion`'s mapping from a capture to a region.
- `Screens`: the class `Screen` (`curID`, `x`/`y`/`w`/`h`, `robot`, `waitPrompt`,
  `lastScreenImage`). It also holds the class `Registry`, which carries the Java static fields
  (`genv`, `gdevs`, `screens`, `primaryScreen`) as an object of its own.
  The Java exceptions become `Result`/`Outcome` values.

The platform's device query is the input `platform: seq<Device>`. Each device gives its
bounds and whether a `RobotDesktop` can be built for it. Every registry accessor takes
this input because its first call in a process builds the registry.
The overlay thread is the input `overlay: seq<bool>`: `overlay[k]` says whether the overlay
has called `update` before the caller's k-th check of `waitPrompt`.
The overlay's selection is the input `selection`, which is none when the user cancelled.
The robot's pixel grab is the input `pixels`.

What the code does in four edge cases, as the model states it:
- The poll loop tests `count++ > waitForScreenshot` after each sleep, so with a silent
  overlay it gives up after `waitForScreenshot + 2` sleeps (302).
- `getScreen`, `getPrimaryScreen` and `getBounds` read the array reference (`screens` or
  `gdevs`) before evaluating the index expression, whose call initializes the registry.
  So when one of them is the first registry call of the process, it builds the registry
  and then throws `NullPointerException` (see "## Findings").
- With zero devices the primary id is 0. On an initialized registry, `getScreen`,
  `getPrimaryScreen`, `getBounds` and `Screen()` then index an empty array and throw
  `ArrayIndexOutOfBoundsException`; the model returns `Failure(ArrayIndexOutOfBounds)`.
- `Screen.capture` itself has no size check. A screen whose robot could not be built
  throws `NullPointerException` on capture; no dedicated error exists.

## Model

| member | source | states |
|---|---|---|
| Monitors.FirstAtOrigin | src/main/java/org/sikuli/script/Screen.java:60-66 | the search finds the first device at or after k whose bounds start at (0,0), with no such device before it; or reports that there is none |
| Monitors.PrimaryOf | src/main/java/org/sikuli/script/Screen.java:60-66 | the primary id is the first device at (0,0), or 0 if none is (also for an empty list); it is an index whenever there are devices |
| Monitors.PrimaryIsUnique | src/main/java/org/sikuli/script/Screen.java:60-66 | exactly one id satisfies the primary rule for a device list |
| Monitors.NoOriginMeansPrimaryZero | src/main/java/org/sikuli/script/Screen.java:60-66 | with no device at (0,0), or no device, the primary id is 0 |
| Monitors.TwoMonitorsWithNegativeOffset | src/main/java/org/sikuli/script/Screen.java:60-66 | with monitors at (0,0) and (-1280,0), the one at (0,0) is primary in either enumeration order |
| Monitors.ClampId | src/main/java/org/sikuli/script/Screen.java:185-191 | an id in [0, n) is kept; every other id becomes the primary id, also when n = 0; the result is a valid index whenever the primary id is |
| Monitors.ClampIsIdempotent | src/main/java/org/sikuli/script/Screen.java:185-191 | clamping twice is clamping once, for any primary id, also with zero devices |
| Monitors.ClampedIdIsIndex | src/main/java/org/sikuli/script/Screen.java:185-191 | with the registry's primary id and at least one device, every clamped id indexes a device |
| Interactive.WaitFrom | src/main/java/org/sikuli/script/Screen.java:386-392 | the loop completes iff the overlay reports by check limit+1, after exactly as many sleeps as the first check that sees it; otherwise it times out after limit+2 sleeps |
| Interactive.SilentOverlayTimesOut | src/main/java/org/sikuli/script/Screen.java:386-392 | an overlay that never reports within the budget leads to a timeout after limit+2 sleeps |
| Interactive.FirstSignalCompletes | src/main/java/org/sikuli/script/Screen.java:386-392 | an overlay whose first report is at check k (k at most limit+1) ends the wait after k sleeps |
| Interactive.DefaultBudgetTimesOutAfter302Sleeps | src/main/java/org/sikuli/script/Screen.java:386-392 | with waitForScreenshot = 300, a silent overlay is abandoned after 302 sleeps |
| Interactive.FiveAttemptBudgetSleepsSevenTimes | src/main/java/org/sikuli/script/Screen.java:386-392 | with a budget of 5, a silent overlay is abandoned after 7 sleeps and the capture is nothing |
| Interactive.SelectionReportedAfterThirdSleep | src/main/java/org/sikuli/script/Screen.java:417-425 | a selection (10,20,100,50) reported by check 3 (the fourth check, since check 0 comes before any sleep) is seen after 3 sleeps and becomes the region (10,20,100,50) |
| Interactive.RegionOf | src/main/java/org/sikuli/script/Screen.java:417-425 | no capture gives no region; a capture gives the region of its ROI |
| Interactive.SelectRegionIsNoneIff | src/main/java/org/sikuli/script/Screen.java:417-425 | region selection yields nothing exactly when the wait timed out or the user cancelled, and otherwise the selection's ROI |
| Screens.RobotFor | src/main/java/org/sikuli/script/Screen.java:122-128 | a screen has a robot, bound to it with auto-delay 10, exactly when the device allows one; otherwise none |
| Screens.Screen.Create | src/main/java/org/sikuli/script/Screen.java:71-74 | the internal constructor sets the id and nothing else |
| Screens.Screen.InitScreen | src/main/java/org/sikuli/script/Screen.java:115-129 | the region fields equal the device bounds; a robot that cannot be built is recorded as none, without failing |
| Screens.Screen.SetScreen | src/main/java/org/sikuli/script/Screen.java:143-145 | always throws UnsupportedOperationException |
| Screens.Screen.Capture | src/main/java/org/sikuli/script/Screen.java:341-346 | with a robot: the image of the rectangle, also recorded as the last image; without one: NullPointerException, nothing recorded |
| Screens.Screen.CaptureScreen | src/main/java/org/sikuli/script/Screen.java:315-317 | captures the screen's own rectangle |
| Screens.Screen.Update | src/main/java/org/sikuli/script/Screen.java:433-435 | the overlay callback clears the wait flag |
| Screens.Screen.UserCapture | src/main/java/org/sikuli/script/Screen.java:375-400 | the poll loop ends as WaitFor says, with that many sleeps; on timeout it returns nothing and keeps the last image; on completion it returns the selection and records it as the last image |
| Screens.Screen.SelectRegion | src/main/java/org/sikuli/script/Screen.java:417-425 | the region of the user capture; nothing iff the wait timed out or the user cancelled; on timeout the flag stays set and the last image is kept, on completion the flag is cleared and the selection is the last image |
| Screens.Registry.constructor | src/main/java/org/sikuli/script/Screen.java:32-36 | the registry starts uninitialized with primary id -1 |
| Screens.Registry.InitScreens | src/main/java/org/sikuli/script/Screen.java:49-68 | a no-op when initialized and no reset is asked, keeping the screen objects; otherwise one fresh screen per device with id = index and the device's bounds, and the primary id by the (0,0) rule |
| Screens.Registry.GetNumberScreens | src/main/java/org/sikuli/script/Screen.java:197-200 | the number of devices, equal to the number of screens |
| Screens.Registry.GetPrimaryId | src/main/java/org/sikuli/script/Screen.java:206-209 | the primary id by the (0,0) rule |
| Screens.Registry.ValidId | src/main/java/org/sikuli/script/Screen.java:185-191 | an in-range id is kept, any other id is the primary id; an index whenever devices exist |
| Screens.Registry.GetValidID | src/main/java/org/sikuli/script/Screen.java:185-191 | after lazy initialization, the clamped id |
| Screens.Registry.ScreenAt | src/main/java/org/sikuli/script/Screen.java:224-226 | on a built registry, the screen object whose id is the clamped id; ArrayIndexOutOfBounds exactly when there are no screens |
| Screens.Registry.PrimaryScreen | src/main/java/org/sikuli/script/Screen.java:215-217 | on a built registry, the screen object `screens[primary]`, whose id is the primary id; ArrayIndexOutOfBounds exactly when there are no screens |
| Screens.Registry.OutOfRangeIdGivesPrimaryScreen | src/main/java/org/sikuli/script/Screen.java:215-226 | for an out-of-range id, the screen returned is the same object as the primary screen |
| Screens.Registry.GetScreen | src/main/java/org/sikuli/script/Screen.java:224-226 | the registry is initialized; on the first call NullPointerException, afterwards the clamped id's screen object (`ScreenAt`) |
| Screens.Registry.GetPrimaryScreen | src/main/java/org/sikuli/script/Screen.java:215-217 | the registry is initialized; on the first call NullPointerException, afterwards the primary screen object (`PrimaryScreen`) |
| Screens.Registry.BoundsAt | src/main/java/org/sikuli/script/Screen.java:233-235 | on a built registry, the bounds of the clamped id's device (the primary's for an out-of-range id); ArrayIndexOutOfBounds exactly when there are no devices |
| Screens.Registry.GetBounds | src/main/java/org/sikuli/script/Screen.java:233-235 | the registry is initialized; on the first call NullPointerException, afterwards the clamped id's bounds (`BoundsAt`) |
| Screens.FirstGetScreenThrows | src/main/java/org/sikuli/script/Screen.java:224-226 | a first `getScreen(7)` with two monitors throws NullPointerException, where the built registry gives the primary screen (id 1) |
| Screens.FirstGetPrimaryScreenThrows | src/main/java/org/sikuli/script/Screen.java:215-217 | a first `getPrimaryScreen()` throws NullPointerException, where the built registry gives the screen with id 1 |
| Screens.FirstGetBoundsThrows | src/main/java/org/sikuli/script/Screen.java:233-235 | a first `getBounds(0)` throws NullPointerException, where the built registry gives (-1280,0,1280,1024) |
| Screens.Registry.NewScreen | src/main/java/org/sikuli/script/Screen.java:82-93 | IllegalArgumentException exactly when id < 0 or id >= number of devices; otherwise a new screen with that id showing that device |
| Screens.Registry.NewPrimaryScreen | src/main/java/org/sikuli/script/Screen.java:99-105 | a new screen with the primary id showing its device; ArrayIndexOutOfBounds when there are no devices |

## Left out

- AWT `GraphicsEnvironment`/`GraphicsDevice`: replaced by the `platform` input. The instance method `getBounds()`, the static `getBounds(int)` and the primary search in `initScreens` query the device live; the model uses the bounds recorded at initialization in all three.
- `RobotDesktop` and its pixel grab: the robot is a value, and its grab is the `pixels` input. The model takes the ROI of a captured image to be the requested rectangle, and its grab never fails, so any size check or failure inside `RobotDesktop.captureScreen` is not modelled.
- The overlay thread (`OverlayCapturePrompt`), `Thread.sleep`, `InterruptedException` and `prompt.close()`: only the flag polling is modelled, driven by the `overlay` input. The prompt message is not modelled, so the default-message overloads `userCapture()` and `selectRegion()` are the same calls.
- `capture(int, int, int, int)`, `capture(Region)`, `newRegion`, `newLocation`: they rely on `Region` and `Location`, which are not part of this model.
- `showMonitors`, `resetMonitors` (logging around `InitScreens(true, ...)`), `toString`, `toStringShort`, `showTarget`, `Debug` logging: diagnostics and visual effects only.
- `getRobot`, `getID`, `getGraphicsDevice`, `getScreen()`, `useFullscreen`, `initScreen(Screen)`: plain field getters or `Region` hooks.

## Findings

| source | as written | input that shows it | evidently intended | confidence | as-written member | corrected member |
|---|---|---|---|---|---|---|
| src/main/java/org/sikuli/script/Screen.java:224-226 | `screens[getValidID(id)]` reads `screens` before the index call initializes the registry | first call of the process: `getScreen(7)` with two monitors | initialize, then return the clamped id's screen | high, not executed | Screens.FirstGetScreenThrows | Screens.Registry.ScreenAt |
| src/main/java/org/sikuli/script/Screen.java:215-217 | `screens[getPrimaryId()]` reads `screens` before the index call initializes the registry | first call of the process: `getPrimaryScreen()` | initialize, then return the primary screen | high, not executed | Screens.FirstGetPrimaryScreenThrows | Screens.Registry.PrimaryScreen |
| src/main/java/org/sikuli/script/Screen.java:233-235 | `gdevs[getValidID(id)]` reads `gdevs` before the index call initializes the registry | first call of the process: `getBounds(0)` | initialize, then return the clamped id's bounds | high, not executed | Screens.FirstGetBoundsThrows | Screens.Registry.BoundsAt |
