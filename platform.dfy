/**
 * Platforms the sheep can stand on and the queries over them
 * (esheep/ESheepPlatform.swift). A platform is its frame rectangle; the
 * borderless window that draws it is not modelled.
 */
module Platforms {
  import opened Wrappers

  /** A width or height; rectangles here never have negative sizes. */
  type Extent = r: real | r >= 0.0

  datatype Point = Point(x: real, y: real)

  /** An AppKit rectangle: origin at the bottom-left corner, y growing upwards. */
  datatype Rect = Rect(x: real, y: real, width: Extent, height: Extent) {
    function MinX(): real { x }
    function MaxX(): real { x + width }
    function MinY(): real { y }
    function MaxY(): real { y + height }
  }

  /** The default `margin` of both "standing on" tests. */
  const DefaultMargin: real := 5.0
  /** The default `maxDistance` of `getPlatformBelow`. */
  const DefaultMaxDistance: real := 1000.0
  /** `createWindowPlatforms` skips windows smaller than this in either direction. */
  const MinWindowSize: real := 50.0
  /** Thickness of a platform made from a window. */
  const WindowPlatformHeight: real := 10.0
  /** Thickness of a platform made by `createRandomPlatforms`. */
  const RandomPlatformHeight: real := 20.0

  function Abs(v: real): real { if v < 0.0 then -v else v }

  /** `top`: the height the sheep stands at. */
  function Top(p: Rect): real { p.MaxY() }

  /** `isPointOnPlatform`. */
  predicate IsPointOnPlatform(p: Rect, pt: Point, margin: real) {
    if pt.x >= p.MinX() && pt.x <= p.MaxX() then Abs(pt.y - Top(p)) <= margin else false
  }

  /** `isSheepOnPlatform`: bottom edge near the top, and the horizontal spans touch or overlap. */
  predicate IsSheepOnPlatform(p: Rect, sheep: Rect, margin: real) {
    if Abs(sheep.MinY() - Top(p)) <= margin then
      !(sheep.MaxX() < p.MinX() || sheep.MinX() > p.MaxX())
    else false
  }

  predicate InSpan(v: real, lo: real, hi: real) { lo <= v <= hi }

  /**
   * The overlap test means the two closed horizontal spans share a column, so
   * spans that only touch at an end count; the vertical test is `|bottom - top| <= margin`.
   */
  lemma SheepOnPlatformIffSharedColumn(p: Rect, sheep: Rect, margin: real)
    ensures IsSheepOnPlatform(p, sheep, margin) <==>
      Abs(sheep.MinY() - Top(p)) <= margin &&
      exists v :: InSpan(v, sheep.MinX(), sheep.MaxX()) && InSpan(v, p.MinX(), p.MaxX())
  {
    var v := if sheep.MinX() < p.MinX() then p.MinX() else sheep.MinX();
    if !(sheep.MaxX() < p.MinX() || sheep.MinX() > p.MaxX()) {
      assert InSpan(v, sheep.MinX(), sheep.MaxX()) && InSpan(v, p.MinX(), p.MaxX());
    }
  }

  /** The point test is the sheep test for a sheep of zero width standing at that point. */
  lemma PointTestIsZeroWidthSheepTest(p: Rect, pt: Point, margin: real, height: Extent)
    ensures IsPointOnPlatform(p, pt, margin) == IsSheepOnPlatform(p, Rect(pt.x, pt.y, 0.0, height), margin)
    ensures IsPointOnPlatform(p, pt, margin) ==> p.MinX() <= pt.x <= p.MaxX() && Abs(pt.y - Top(p)) <= margin
  {
  }

  // ---------------------------------------------------------------------------
  // getPlatformUnderSheep

  /** The first platform, in list order from position `i` on, that the sheep stands on. */
  function FirstUnderSheepFrom(ps: seq<Rect>, sheep: Rect, i: nat): (r: Option<nat>)
    requires i <= |ps|
    ensures r.Some? ==> i <= r.value < |ps| && IsSheepOnPlatform(ps[r.value], sheep, DefaultMargin)
    decreases |ps| - i
  {
    if i == |ps| then None
    else if IsSheepOnPlatform(ps[i], sheep, DefaultMargin) then Some(i)
    else FirstUnderSheepFrom(ps, sheep, i + 1)
  }

  /** The search from `i` skips exactly the platforms the sheep does not stand on. */
  lemma {:induction false} FirstUnderSheepFromIsFirst(ps: seq<Rect>, sheep: Rect, i: nat)
    requires i <= |ps|
    ensures var r := FirstUnderSheepFrom(ps, sheep, i);
      && (r.Some? ==> forall j :: i <= j < r.value ==> !IsSheepOnPlatform(ps[j], sheep, DefaultMargin))
      && (r.None? <==> forall j :: i <= j < |ps| ==> !IsSheepOnPlatform(ps[j], sheep, DefaultMargin))
    decreases |ps| - i
  {
    if i < |ps| && !IsSheepOnPlatform(ps[i], sheep, DefaultMargin) {
      FirstUnderSheepFromIsFirst(ps, sheep, i + 1);
    }
  }

  /** Which platform `getPlatformUnderSheep` returns, as a position in the list. */
  function PlatformUnderSheep(ps: seq<Rect>, sheep: Rect): (r: Option<nat>)
    ensures r.Some? ==> r.value < |ps| && IsSheepOnPlatform(ps[r.value], sheep, DefaultMargin)
  {
    FirstUnderSheepFrom(ps, sheep, 0)
  }

  /**
   * The platform returned is the first one in list order the sheep stands on,
   * and there is none exactly when the sheep stands on no platform.
   */
  lemma PlatformUnderSheepIsFirst(ps: seq<Rect>, sheep: Rect)
    ensures var r := PlatformUnderSheep(ps, sheep);
      && (r.Some? ==> forall j :: 0 <= j < r.value ==> !IsSheepOnPlatform(ps[j], sheep, DefaultMargin))
      && (r.None? <==> forall j :: 0 <= j < |ps| ==> !IsSheepOnPlatform(ps[j], sheep, DefaultMargin))
  {
    FirstUnderSheepFromIsFirst(ps, sheep, 0);
  }

  /** `getPlatformUnderSheep`: a loop with an early return. */
  method GetPlatformUnderSheep(ps: seq<Rect>, sheep: Rect) returns (r: Option<nat>)
    ensures r == PlatformUnderSheep(ps, sheep)
  {
    var i := 0;
    while i < |ps|
      invariant 0 <= i <= |ps|
      invariant FirstUnderSheepFrom(ps, sheep, i) == PlatformUnderSheep(ps, sheep)
    {
      if IsSheepOnPlatform(ps[i], sheep, DefaultMargin) {
        return Some(i);
      }
      i := i + 1;
    }
    return None;
  }

  // ---------------------------------------------------------------------------
  // getPlatformBelow

  /** A platform strictly below `pt` whose horizontal span contains `pt.x`. */
  predicate IsBelow(p: Rect, pt: Point) {
    p.MinX() <= pt.x && p.MaxX() >= pt.x && Top(p) < pt.y
  }

  function Gap(p: Rect, pt: Point): real { pt.y - Top(p) }

  /** The platform `getPlatformBelow` has kept after looking at the first `n` platforms. */
  function NearestBelow(ps: seq<Rect>, pt: Point, maxDistance: real, n: nat): (r: Option<nat>)
    requires n <= |ps|
    ensures r.Some? ==> r.value < n && IsBelow(ps[r.value], pt) && Gap(ps[r.value], pt) < maxDistance
  {
    if n == 0 then None
    else
      var prev := NearestBelow(ps, pt, maxDistance, n - 1);
      var closest := if prev.None? then maxDistance else Gap(ps[prev.value], pt);
      if IsBelow(ps[n - 1], pt) && Gap(ps[n - 1], pt) < closest then Some(n - 1) else prev
  }

  /**
   * The platform kept is a nearest candidate, strictly nearer than every
   * earlier one (ties go to the earliest), and none is kept exactly when no
   * candidate is nearer than `maxDistance`.
   */
  lemma {:induction false} NearestBelowIsNearest(ps: seq<Rect>, pt: Point, maxDistance: real, n: nat)
    requires n <= |ps|
    ensures var r := NearestBelow(ps, pt, maxDistance, n);
      && (r.Some? ==> forall j :: 0 <= j < n && IsBelow(ps[j], pt) ==> Gap(ps[r.value], pt) <= Gap(ps[j], pt))
      && (r.Some? ==> forall j :: 0 <= j < r.value && IsBelow(ps[j], pt) ==> Gap(ps[r.value], pt) < Gap(ps[j], pt))
      && (r.None? <==> forall j :: 0 <= j < n && IsBelow(ps[j], pt) ==> Gap(ps[j], pt) >= maxDistance)
  {
    if n > 0 {
      NearestBelowIsNearest(ps, pt, maxDistance, n - 1);
    }
  }

  /** `getPlatformBelow`: a loop keeping the closest candidate and its distance. */
  method GetPlatformBelow(ps: seq<Rect>, pt: Point, maxDistance: real) returns (r: Option<nat>)
    ensures r == NearestBelow(ps, pt, maxDistance, |ps|)
  {
    var closestPlatform: Option<nat> := None;
    var closestDistance := maxDistance;
    var i := 0;
    while i < |ps|
      invariant 0 <= i <= |ps|
      invariant closestPlatform == NearestBelow(ps, pt, maxDistance, i)
      invariant closestPlatform.Some? ==> closestDistance == Gap(ps[closestPlatform.value], pt)
      invariant closestPlatform.None? ==> closestDistance == maxDistance
    {
      var platform := ps[i];
      if platform.MinX() <= pt.x && platform.MaxX() >= pt.x {
        var platformTop := Top(platform);
        if platformTop < pt.y {
          var distance := pt.y - platformTop;
          if distance < closestDistance {
            closestDistance := distance;
            closestPlatform := Some(i);
          }
        }
      }
      i := i + 1;
    }
    return closestPlatform;
  }

  // ---------------------------------------------------------------------------
  // Platforms made from windows and at random

  /**
   * One window's bounds (top-left origin, y growing downwards, as the window
   * server reports them) to a platform: windows under 50 x 50 are skipped, and
   * the 10-unit platform's top lies on the window's top edge in AppKit coordinates.
   */
  function WindowPlatform(bounds: Rect, screenHeight: real): (p: Option<Rect>)
    ensures p.Some? <==> bounds.width >= MinWindowSize && bounds.height >= MinWindowSize
    ensures p.Some? ==> p.value.MinX() == bounds.MinX() && p.value.MaxX() == bounds.MaxX()
    ensures p.Some? ==> p.value.height == WindowPlatformHeight
    ensures p.Some? ==> Top(p.value) == screenHeight - bounds.MinY()
  {
    if bounds.width >= MinWindowSize && bounds.height >= MinWindowSize then
      var appKitWindowTop := screenHeight - bounds.MaxY();
      var platformY := appKitWindowTop + bounds.height - WindowPlatformHeight;
      Some(Rect(bounds.MinX(), platformY, bounds.width, WindowPlatformHeight))
    else None
  }

  /** The platform a window listing entry gives: none without bounds, without a screen or when too small. */
  function EntryPlatform(entry: Option<Rect>, screenHeight: Option<real>): Option<Rect> {
    if entry.None? || screenHeight.None? then None else WindowPlatform(entry.value, screenHeight.value)
  }

  /**
   * The platforms `createWindowPlatforms` builds from the window listing, in
   * listing order. An entry is `None` when its bounds are missing or unreadable.
   */
  function WindowPlatforms(entries: seq<Option<Rect>>, screenHeight: Option<real>): (ps: seq<Rect>)
    ensures |ps| <= |entries|
    ensures screenHeight.None? ==> ps == []
    ensures forall k :: 0 <= k < |ps| ==>
      exists i :: 0 <= i < |entries| && EntryPlatform(entries[i], screenHeight) == Some(ps[k])
    ensures forall i :: 0 <= i < |entries| && EntryPlatform(entries[i], screenHeight).Some? ==>
      EntryPlatform(entries[i], screenHeight).value in ps
  {
    if entries == [] then []
    else
      var init := entries[..|entries| - 1];
      var rest := WindowPlatforms(init, screenHeight);
      var last := EntryPlatform(entries[|entries| - 1], screenHeight);
      assert forall i :: 0 <= i < |init| ==> init[i] == entries[i];
      if last.Some? then rest + [last.value] else rest
  }

  /** Every platform made from a window is a 10-unit strip at least 50 units wide. */
  lemma WindowPlatformShape(entries: seq<Option<Rect>>, screenHeight: Option<real>, p: Rect)
    requires p in WindowPlatforms(entries, screenHeight)
    ensures p.height == WindowPlatformHeight && p.width >= MinWindowSize
  {
    var ps := WindowPlatforms(entries, screenHeight);
    var k :| 0 <= k < |ps| && ps[k] == p;
    var i :| 0 <= i < |entries| && EntryPlatform(entries[i], screenHeight) == Some(ps[k]);
  }

  /** The random values `createRandomPlatforms` draws for one platform. */
  datatype RandomPlatformDraw = RandomPlatformDraw(width: Extent, x: real, y: real)

  function RandomPlatforms(draws: seq<RandomPlatformDraw>): (ps: seq<Rect>)
    ensures |ps| == |draws|
    ensures forall k :: 0 <= k < |ps| ==>
      ps[k] == Rect(draws[k].x, draws[k].y, draws[k].width, RandomPlatformHeight)
  {
    seq(|draws|, k requires 0 <= k < |draws| => Rect(draws[k].x, draws[k].y, draws[k].width, RandomPlatformHeight))
  }

  /** The platform list the engine reads (`ESheepPlatformManager`). */
  class PlatformManager {
    var platforms: seq<Rect>

    constructor ()
      ensures platforms == []
    {
      platforms := [];
    }

    /**
     * `createWindowPlatforms`: the previous list is discarded, then one platform
     * is appended per usable window. `windowList` is `None` when the window
     * server gives no listing; `screenHeight` is `None` when there is no main screen.
     */
    method CreateWindowPlatforms(windowList: Option<seq<Option<Rect>>>, screenHeight: Option<real>)
      modifies this
      ensures platforms == if windowList.None? then [] else WindowPlatforms(windowList.value, screenHeight)
    {
      platforms := [];
      if windowList.None? {
        return;
      }
      var entries := windowList.value;
      var i := 0;
      while i < |entries|
        invariant 0 <= i <= |entries|
        invariant platforms == WindowPlatforms(entries[..i], screenHeight)
      {
        assert entries[..i + 1][..i] == entries[..i];
        var entry := entries[i];
        if entry.Some? {
          var bounds := entry.value;
          if bounds.width >= MinWindowSize && bounds.height >= MinWindowSize {
            if screenHeight.Some? {
              var platform := WindowPlatform(bounds, screenHeight.value);
              platforms := platforms + [platform.value];
            }
          }
        }
        i := i + 1;
      }
      assert entries[..i] == entries;
    }

    /**
     * `createRandomPlatforms`: the previous list is discarded; with a main
     * screen one 20-unit platform is appended per draw.
     */
    method CreateRandomPlatforms(hasScreen: bool, draws: seq<RandomPlatformDraw>)
      modifies this
      ensures platforms == if hasScreen then RandomPlatforms(draws) else []
    {
      platforms := [];
      if !hasScreen {
        return;
      }
      var i := 0;
      while i < |draws|
        invariant 0 <= i <= |draws|
        invariant platforms == RandomPlatforms(draws[..i])
      {
        var d := draws[i];
        platforms := platforms + [Rect(d.x, d.y, d.width, RandomPlatformHeight)];
        i := i + 1;
      }
      assert draws[..i] == draws;
    }
  }
}
