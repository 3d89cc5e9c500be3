/**
 * `Screen`: one physical monitor, and the process-wide display registry that
 * owns one `Screen` per monitor. The registry is the Java class's static state
 * (`genv`, `gdevs`, `screens`, `primaryScreen`), modelled as an object of its own.
 */
module Screens {
  import opened Wrappers
  import opened Geometry
  import opened Monitors
  import opened Interactive

  /** The exceptions the modelled code throws. */
  datatype Error = IllegalArgument | UnsupportedOperation | ArrayIndexOutOfBounds | NullPointer

  /** The auto-delay every screen's robot is given, in milliseconds. */
  const AutoDelay: int := 10

  /** A `RobotDesktop`: bound to one screen, with its auto-delay. */
  datatype Robot = Robot(screenId: int, autoDelay: int)

  /** The robot a screen ends up with for a device: none when it cannot be built. */
  function RobotFor(id: int, d: Device): (r: Option<Robot>)
    ensures r.Some? <==> d.robotAvailable
    ensures r.Some? ==> r.value.screenId == id && r.value.autoDelay == AutoDelay
  {
    if d.robotAvailable then Some(Robot(id, AutoDelay)) else None
  }

  class Screen {
    /** The screen's id: its index in the registry's device list. */
    const curID: int
    /** The screen's rectangle as a region: a copy of the device bounds. */
    var x: int
    var y: int
    var w: int
    var h: int
    var robot: Option<Robot>
    /** Set while an interactive capture waits for the overlay. */
    var waitPrompt: bool
    var lastScreenImage: Option<ScreenImage>

    /** The screen shows device `d`: its rectangle and its robot come from `d`. */
    ghost predicate Reflects(d: Device)
      reads this
    {
      Rect(x, y, w, h) == d.bounds && robot == RobotFor(curID, d)
    }

    /** The internal constructor: a screen with the given id and nothing else set yet. */
    constructor Create(id: int)
      ensures curID == id
      ensures x == 0 && y == 0 && w == 0 && h == 0
      ensures robot == None && !waitPrompt && lastScreenImage == None
    {
      curID := id;
      x, y, w, h := 0, 0, 0, 0;
      robot := None;
      waitPrompt := false;
      lastScreenImage := None;
    }

    /**
     * Copies the device's bounds into the region fields and builds the robot;
     * a robot that cannot be built is recorded as none, nothing is thrown.
     */
    method InitScreen(d: Device)
      modifies this`x, this`y, this`w, this`h, this`robot
      ensures Reflects(d)
    {
      x := d.bounds.x;
      y := d.bounds.y;
      w := d.bounds.w;
      h := d.bounds.h;
      if d.robotAvailable {
        robot := Some(Robot(curID, AutoDelay));
      } else {
        robot := None;
      }
    }

    /** A screen's monitor cannot be reassigned: the call always throws. */
    method SetScreen(s: Screen) returns (r: Outcome<Error>)
      ensures r == Fail(UnsupportedOperation)
    {
      r := Fail(UnsupportedOperation);
    }

    /**
     * Captures `rect` through the robot, recording the image as the last one.
     * The robot returns `pixels`; without a robot the call throws.
     */
    method Capture(rect: Rect, pixels: Pixels) returns (r: Result<ScreenImage, Error>)
      modifies this`lastScreenImage
      ensures robot.None? ==> r == Failure(NullPointer) && lastScreenImage == old(lastScreenImage)
      ensures robot.Some? ==> r == Success(ScreenImage(rect, pixels)) && lastScreenImage == Some(r.value)
    {
      if robot.None? {
        return Failure(NullPointer);
      }
      var simg := ScreenImage(rect, pixels);
      lastScreenImage := Some(simg);
      r := Success(simg);
    }

    /** Captures the whole screen: the rectangle of its own region fields. */
    method CaptureScreen(pixels: Pixels) returns (r: Result<ScreenImage, Error>)
      modifies this`lastScreenImage
      ensures robot.None? ==> r == Failure(NullPointer) && lastScreenImage == old(lastScreenImage)
      ensures robot.Some? ==> r == Success(ScreenImage(Rect(x, y, w, h), pixels)) && lastScreenImage == Some(r.value)
    {
      r := Capture(Rect(x, y, w, h), pixels);
    }

    /** The overlay's callback: the selection is ready, stop waiting. */
    method Update()
      modifies this`waitPrompt
      ensures !waitPrompt
    {
      waitPrompt := false;
    }

    /**
     * Interactive capture. The overlay runs elsewhere and reports through
     * `Update`; `overlay` says at which checks it has done so, and `selection`
     * is what it hands back (none when the user cancelled). `sleeps` counts the
     * polling sleeps.
     */
    method UserCapture(overlay: seq<bool>, selection: Option<ScreenImage>)
      returns (r: Option<ScreenImage>, ghost sleeps: nat)
      modifies this`waitPrompt, this`lastScreenImage
      ensures r == UserCaptureResult(overlay, WaitForScreenshot, selection)
      ensures sleeps == WaitFor(overlay, WaitForScreenshot).sleeps
      ensures WaitFor(overlay, WaitForScreenshot).TimedOut? ==>
                waitPrompt && lastScreenImage == old(lastScreenImage)
      ensures WaitFor(overlay, WaitForScreenshot).Completed? ==>
                !waitPrompt && lastScreenImage == selection
    {
      waitPrompt := true;
      var count := 0;
      if Signalled(overlay, count) {
        Update();
      }
      while waitPrompt
        invariant 0 <= count <= WaitForScreenshot + 1
        invariant waitPrompt <==> !Signalled(overlay, count)
        invariant WaitFrom(overlay, count, WaitForScreenshot) == WaitFor(overlay, WaitForScreenshot)
        invariant lastScreenImage == old(lastScreenImage)
        decreases WaitForScreenshot + 1 - count
      {
        // one Thread.sleep per round
        var c := count;
        count := count + 1;
        if c > WaitForScreenshot {
          sleeps := count;
          r := None;
          return;
        }
        if Signalled(overlay, count) {
          Update();
        }
      }
      sleeps := count;
      r := selection;
      lastScreenImage := r;
    }

    /** Interactive region selection: the region of the user's capture, if there is one. */
    method SelectRegion(overlay: seq<bool>, selection: Option<ScreenImage>) returns (r: Option<Rect>)
      modifies this`waitPrompt, this`lastScreenImage
      ensures r == RegionOf(UserCaptureResult(overlay, WaitForScreenshot, selection))
      ensures r.None? <==> WaitFor(overlay, WaitForScreenshot).TimedOut? || selection.None?
      ensures WaitFor(overlay, WaitForScreenshot).TimedOut? ==>
                waitPrompt && lastScreenImage == old(lastScreenImage)
      ensures WaitFor(overlay, WaitForScreenshot).Completed? ==>
                !waitPrompt && lastScreenImage == selection
    {
      var sim, _ := UserCapture(overlay, selection);
      SelectRegionIsNoneIff(overlay, WaitForScreenshot, selection);
      r := RegionOf(sim);
    }
  }

  /**
   * The display registry: the Java class's static fields. `devices` is `gdevs`,
   * `initialized` stands for `genv != null`. Every accessor initializes lazily
   * from `platform`, the list the platform would report at that moment.
   */
  class Registry {
    var initialized: bool
    var devices: seq<Device>
    var screens: seq<Screen>
    var primary: int

    /** One screen per device, with the device's index as id, and the primary id of the list. */
    ghost predicate Valid()
      reads this
    {
      && (!initialized ==> devices == [] && screens == [] && primary == -1)
      && (initialized ==>
            && |screens| == |devices|
            && (forall i :: 0 <= i < |screens| ==> screens[i].curID == i)
            && primary == PrimaryOf(devices))
    }

    /** The registry as the process starts: nothing queried yet, primary id -1. */
    constructor ()
      ensures Valid() && !initialized
    {
      initialized := false;
      devices := [];
      screens := [];
      primary := -1;
    }

    /**
     * The state an accessor leaves: initialized, and if it already was, not
     * touched; otherwise built from `platform`.
     */
    twostate predicate LazilyInitialized(platform: seq<Device>)
      reads this, screens
    {
      && Valid() && initialized
      && (old(initialized) ==>
            devices == old(devices) && screens == old(screens) && primary == old(primary))
      && (!old(initialized) ==>
            && devices == platform
            && (forall i :: 0 <= i < |screens| ==> fresh(screens[i]) && screens[i].Reflects(devices[i])))
    }

    /**
     * Builds the registry from the platform's devices, unless it is already
     * built and no reset is asked for: then nothing changes and the existing
     * screen objects stay.
     */
    method InitScreens(reset: bool, platform: seq<Device>)
      requires Valid()
      modifies this
      ensures Valid() && initialized
      ensures old(initialized) && !reset ==>
                devices == old(devices) && screens == old(screens) && primary == old(primary)
      ensures !old(initialized) || reset ==>
                && devices == platform
                && (forall i :: 0 <= i < |screens| ==> fresh(screens[i]))
                && (forall i :: 0 <= i < |screens| ==> screens[i].Reflects(devices[i]))
      ensures LazilyInitialized(platform) || reset
    {
      if initialized && !reset {
        return;
      }
      initialized := true;
      devices := platform;
      screens := [];
      var i := 0;
      while i < |devices|
        invariant initialized && devices == platform
        invariant 0 <= i <= |devices| && |screens| == i
        invariant forall j :: 0 <= j < i ==> screens[j].curID == j
        invariant forall j :: 0 <= j < i ==> fresh(screens[j])
        invariant forall j :: 0 <= j < i ==> screens[j].Reflects(devices[j])
      {
        var s := new Screen.Create(i);
        s.InitScreen(devices[i]);
        screens := screens + [s];
        i := i + 1;
      }
      primary := 0;
      i := 0;
      while i < |devices|
        invariant initialized && devices == platform && |screens| == |devices|
        invariant forall j :: 0 <= j < |screens| ==> screens[j].curID == j
        invariant forall j :: 0 <= j < |screens| ==> fresh(screens[j])
        invariant forall j :: 0 <= j < |screens| ==> screens[j].Reflects(devices[j])
        invariant 0 <= i <= |devices|
        invariant primary == 0
        invariant forall j :: 0 <= j < i ==> !AtOrigin(devices[j].bounds)
      {
        if AtOrigin(devices[i].bounds) {
          primary := i;
          break;
        }
        i := i + 1;
      }
      PrimaryIsUnique(devices, primary, PrimaryOf(devices));
    }

    /** The number of screens. */
    method GetNumberScreens(platform: seq<Device>) returns (n: nat)
      requires Valid()
      modifies this
      ensures LazilyInitialized(platform)
      ensures n == |devices| == |screens|
    {
      InitScreens(false, platform);
      n := |devices|;
    }

    /** The primary id: the first screen at (0,0), else 0. */
    method GetPrimaryId(platform: seq<Device>) returns (p: int)
      requires Valid()
      modifies this
      ensures LazilyInitialized(platform)
      ensures IsPrimary(devices, p)
    {
      InitScreens(false, platform);
      p := primary;
    }

    /** The lenient id policy applied to the registry's own devices and primary id. */
    function ValidId(id: int): (r: int)
      reads this
      requires Valid() && initialized
      ensures 0 <= id < |devices| ==> r == id
      ensures !(0 <= id < |devices|) ==> IsPrimary(devices, r)
      ensures |devices| > 0 ==> 0 <= r < |devices|
    {
      ClampId(|devices|, primary, id)
    }

    /** `getValidID`: an out-of-range id becomes the primary id. */
    method GetValidID(id: int, platform: seq<Device>) returns (r: int)
      requires Valid()
      modifies this
      ensures LazilyInitialized(platform)
      ensures r == ValidId(id)
    {
      InitScreens(false, platform);
      r := ClampId(|devices|, primary, id);
    }

    /** The screen object for `id`, clamped; indexing the empty table throws. */
    function ScreenAt(id: int): (r: Result<Screen, Error>)
      reads this
      requires Valid() && initialized
      ensures r.Failure? <==> |screens| == 0
      ensures r.Failure? ==> r.error == ArrayIndexOutOfBounds
      ensures r.Success? ==> r.value.curID == ValidId(id) && r.value == screens[ValidId(id)]
    {
      var k := ValidId(id);
      if 0 <= k < |screens| then Success(screens[k]) else Failure(ArrayIndexOutOfBounds)
    }

    /** The primary screen object; indexing the empty table throws. */
    function PrimaryScreen(): (r: Result<Screen, Error>)
      reads this
      requires Valid() && initialized
      ensures r.Failure? <==> |screens| == 0
      ensures r.Failure? ==> r.error == ArrayIndexOutOfBounds
      ensures r.Success? ==> r.value == screens[primary] && IsPrimary(devices, r.value.curID)
    {
      if 0 <= primary < |screens| then Success(screens[primary]) else Failure(ArrayIndexOutOfBounds)
    }

    /** The device bounds for `id`, clamped; indexing the empty table throws. */
    function BoundsAt(id: int): (r: Result<Rect, Error>)
      reads this
      requires Valid() && initialized
      ensures r.Failure? <==> |devices| == 0
      ensures r.Failure? ==> r.error == ArrayIndexOutOfBounds
      ensures r.Success? ==> r.value == devices[ValidId(id)].bounds
      ensures r.Success? && !(0 <= id < |devices|) ==> r.value == devices[primary].bounds
    {
      var k := ValidId(id);
      if 0 <= k < |devices| then Success(devices[k].bounds) else Failure(ArrayIndexOutOfBounds)
    }

    /** Asking for an out-of-range id gives the very object of the primary screen. */
    lemma OutOfRangeIdGivesPrimaryScreen(id: int)
      requires Valid() && initialized
      requires !(0 <= id < |devices|)
      ensures ScreenAt(id) == PrimaryScreen()
    {
    }

    /**
     * `getScreen(id)`. Java reads the array reference `screens` before it
     * evaluates the index `getValidID(id)`, which initializes the registry; on
     * the first call that reference is still null, so the call throws after
     * initializing.
     */
    method GetScreen(id: int, platform: seq<Device>) returns (r: Result<Screen, Error>)
      requires Valid()
      modifies this
      ensures LazilyInitialized(platform)
      ensures !old(initialized) ==> r == Failure(NullPointer)
      ensures old(initialized) ==> r == ScreenAt(id)
    {
      var arrayIsNull := !initialized;
      var k := GetValidID(id, platform);
      if arrayIsNull {
        r := Failure(NullPointer);
      } else if 0 <= k < |screens| {
        r := Success(screens[k]);
      } else {
        r := Failure(ArrayIndexOutOfBounds);
      }
    }

    /**
     * `getPrimaryScreen()`: as with `GetScreen`, the still-null `screens` is
     * read before `getPrimaryId()` initializes the registry.
     */
    method GetPrimaryScreen(platform: seq<Device>) returns (r: Result<Screen, Error>)
      requires Valid()
      modifies this
      ensures LazilyInitialized(platform)
      ensures !old(initialized) ==> r == Failure(NullPointer)
      ensures old(initialized) ==> r == PrimaryScreen()
    {
      var arrayIsNull := !initialized;
      var p := GetPrimaryId(platform);
      if arrayIsNull {
        r := Failure(NullPointer);
      } else if 0 <= p < |screens| {
        r := Success(screens[p]);
      } else {
        r := Failure(ArrayIndexOutOfBounds);
      }
    }

    /**
     * `getBounds(id)`: the device bounds for the clamped id. As with
     * `GetScreen`, the still-null `gdevs` is read before `getValidID(id)`
     * initializes the registry.
     */
    method GetBounds(id: int, platform: seq<Device>) returns (r: Result<Rect, Error>)
      requires Valid()
      modifies this
      ensures LazilyInitialized(platform)
      ensures !old(initialized) ==> r == Failure(NullPointer)
      ensures old(initialized) ==> r == BoundsAt(id)
    {
      var arrayIsNull := !initialized;
      var k := GetValidID(id, platform);
      if arrayIsNull {
        r := Failure(NullPointer);
      } else if 0 <= k < |devices| {
        r := Success(devices[k].bounds);
      } else {
        r := Failure(ArrayIndexOutOfBounds);
      }
    }

    /**
     * The strict constructor `Screen(id)`: a new screen object for an id in
     * range, an `IllegalArgumentException` for any other id.
     */
    method NewScreen(id: int, platform: seq<Device>) returns (r: Result<Screen, Error>)
      requires Valid()
      modifies this
      ensures LazilyInitialized(platform)
      ensures r.Failure? <==> id < 0 || id >= |devices|
      ensures r.Failure? ==> r.error == IllegalArgument
      ensures r.Success? ==> fresh(r.value) && r.value.curID == id && r.value.Reflects(devices[id])
    {
      InitScreens(false, platform);
      if id < 0 || id >= |devices| {
        return Failure(IllegalArgument);
      }
      var s := new Screen.Create(id);
      s.InitScreen(devices[id]);
      r := Success(s);
    }

    /**
     * The default constructor `Screen()`: a new screen object for the primary
     * id; with no devices, looking up device 0 throws.
     */
    method NewPrimaryScreen(platform: seq<Device>) returns (r: Result<Screen, Error>)
      requires Valid()
      modifies this
      ensures LazilyInitialized(platform)
      ensures r.Failure? <==> |devices| == 0
      ensures r.Failure? ==> r.error == ArrayIndexOutOfBounds
      ensures r.Success? ==> fresh(r.value) && IsPrimary(devices, r.value.curID)
      ensures r.Success? ==> r.value.Reflects(devices[r.value.curID])
    {
      var p := GetPrimaryId(platform);
      if !(0 <= p < |devices|) {
        return Failure(ArrayIndexOutOfBounds);
      }
      var s := new Screen.Create(p);
      s.InitScreen(devices[p]);
      r := Success(s);
    }
  }

  /** Two monitors, the primary one enumerated second. */
  const TwoMonitors: seq<Device> :=
    [Device(Rect(-1280, 0, 1280, 1024), false), Device(Rect(0, 0, 1920, 1080), true)]

  /**
   * The first `getScreen` of a process throws, although it has just built the
   * registry, where the clamped id 7 would have given the primary screen.
   */
  method FirstGetScreenThrows() returns (r: Result<Screen, Error>, intended: Result<Screen, Error>)
    ensures r == Failure(NullPointer)
    ensures intended.Success? && intended.value.curID == 1
  {
    var registry := new Registry();
    r := registry.GetScreen(7, TwoMonitors);
    intended := registry.ScreenAt(7);
  }

  /** The first `getPrimaryScreen` of a process throws; the built registry has a primary screen. */
  method FirstGetPrimaryScreenThrows() returns (r: Result<Screen, Error>, intended: Result<Screen, Error>)
    ensures r == Failure(NullPointer)
    ensures intended.Success? && intended.value.curID == 1
  {
    var registry := new Registry();
    r := registry.GetPrimaryScreen(TwoMonitors);
    intended := registry.PrimaryScreen();
  }

  /** The first `getBounds` of a process throws; the built registry has bounds for id 0. */
  method FirstGetBoundsThrows() returns (r: Result<Rect, Error>, intended: Result<Rect, Error>)
    ensures r == Failure(NullPointer)
    ensures intended == Success(Rect(-1280, 0, 1280, 1024))
  {
    var registry := new Registry();
    r := registry.GetBounds(0, TwoMonitors);
    intended := registry.BoundsAt(0);
  }
}
