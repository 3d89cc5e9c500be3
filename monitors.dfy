/**
 * The rules the display registry applies to the platform's device list:
 * which id is primary, and how a requested id is made valid.
 */
module Monitors {
  import opened Wrappers
  import opened Geometry

  /**
   * `p` is the primary id of `ds`: the first device, in enumeration order,
   * whose bounds start at (0,0); or 0 when no device does (also when there are none).
   */
  ghost predicate IsPrimary(ds: seq<Device>, p: int)
  {
    || (0 <= p < |ds| && AtOrigin(ds[p].bounds) && forall j :: 0 <= j < p ==> !AtOrigin(ds[j].bounds))
    || (p == 0 && forall j :: 0 <= j < |ds| ==> !AtOrigin(ds[j].bounds))
  }

  /** The first index at or after `k` whose device starts at the origin, if any. */
  function FirstAtOrigin(ds: seq<Device>, k: nat): (r: Option<nat>)
    requires k <= |ds|
    ensures r.Some? ==> k <= r.value < |ds| && AtOrigin(ds[r.value].bounds)
    ensures r.Some? ==> forall j :: k <= j < r.value ==> !AtOrigin(ds[j].bounds)
    ensures r.None? ==> forall j :: k <= j < |ds| ==> !AtOrigin(ds[j].bounds)
    decreases |ds| - k
  {
    if k == |ds| then None
    else if AtOrigin(ds[k].bounds) then Some(k)
    else FirstAtOrigin(ds, k + 1)
  }

  /** The primary id the registry settles on for the device list `ds`. */
  function PrimaryOf(ds: seq<Device>): (p: nat)
    ensures IsPrimary(ds, p)
    ensures p < |ds| || (p == 0 && |ds| == 0)
  {
    match FirstAtOrigin(ds, 0)
    case Some(i) => i
    case None => 0
  }

  /** There is exactly one primary id per device list. */
  lemma PrimaryIsUnique(ds: seq<Device>, p: int, q: int)
    requires IsPrimary(ds, p) && IsPrimary(ds, q)
    ensures p == q
  {
  }

  /**
   * The lenient id policy: an id in [0, n) is kept, any other id is replaced by
   * the primary id.
   */
  function ClampId(n: nat, primary: int, id: int): (r: int)
    ensures 0 <= id < n ==> r == id
    ensures !(0 <= id < n) ==> r == primary
    ensures 0 <= primary < n ==> 0 <= r < n
  {
    if id < 0 || id >= n then primary else id
  }

  /** Clamping an already clamped id changes nothing. */
  lemma ClampIsIdempotent(n: nat, primary: int, id: int)
    ensures ClampId(n, primary, ClampId(n, primary, id)) == ClampId(n, primary, id)
  {
  }

  /** With the registry's own primary id, a clamped id is always an index of `ds`, unless `ds` is empty. */
  lemma ClampedIdIsIndex(ds: seq<Device>, id: int)
    requires |ds| > 0
    ensures 0 <= ClampId(|ds|, PrimaryOf(ds), id) < |ds|
  {
  }

  /** Monitor A at (0,0,1920,1080) and B at (-1280,0,1280,1024): A is primary in either order. */
  lemma TwoMonitorsWithNegativeOffset()
    ensures PrimaryOf([Device(Rect(0, 0, 1920, 1080), true), Device(Rect(-1280, 0, 1280, 1024), true)]) == 0
    ensures PrimaryOf([Device(Rect(-1280, 0, 1280, 1024), true), Device(Rect(0, 0, 1920, 1080), true)]) == 1
  {
  }

  /** No device at the origin, or no device at all: the primary id is 0. */
  lemma NoOriginMeansPrimaryZero(ds: seq<Device>)
    requires forall j :: 0 <= j < |ds| ==> !AtOrigin(ds[j].bounds)
    ensures PrimaryOf(ds) == 0
  {
  }
}
