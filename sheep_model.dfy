/**
 * The per-tick state machine of one sheep (`ESheep.updateAnimation`,
 * `startAnimation`, `handleFlip` and the drag handlers, esheep/ESheep.swift),
 * as functions from the old state and the tick's inputs to the new state.
 * Each phase function covers one contiguous block of `updateAnimation`; a
 * `Stop` result stands for one of its early returns.
 */
module SheepModel {
  import opened Wrappers
  import opened Animations
  import opened Platforms

  const Gravity: real := 0.5
  const MaxFallSpeed: real := 10.0
  /** Seconds of confusion before the sheep decides what to do at an edge. */
  const ConfusedDuration: real := 2.0
  /** How close the sheep's centre may come to a platform edge before it gets confused. */
  const EdgeThreshold: real := 20.0
  /** How far past a platform edge the centre may go before the sheep is made to fall. */
  const WalkOffDistance: real := 5.0
  /** Heights up to this count as "at the bottom". */
  const BottomThreshold: real := 50.0
  /** Seconds at the bottom before the sheep is moved up. */
  const BottomTeleportDelay: real := 30.0
  const TeleportHeightFraction: real := 0.8
  /** The tile shown while the sheep is dragged. */
  const DragFrame: int := 2
  const WalkId: string := "0"
  const FallId: string := "3"
  /** The animation name landing tests for. */
  const FallName: string := "fall"
  const FlipAction: string := "flip"

  /** Width and height of the main screen's visible frame. */
  datatype Screen = Screen(width: real, height: real)

  /** What a sheep reads but never changes while it runs: its animation table and sprite size. */
  datatype Config = Config(animations: map<string, Animation>, frameWidth: Extent, frameHeight: Extent)

  /** The fields `updateAnimation` and the handlers change. */
  datatype State = State(
    x: real, y: real,
    velocityY: real,
    isOnPlatform: bool,
    currentPlatform: Option<Rect>,
    isFlipped: bool,
    current: Option<Animation>,
    step: int,
    isConfused: bool, confusedStartTime: real, isAtEdge: bool,
    isAtBottom: bool, timeAtBottom: real,
    isDragging: bool)

  /**
   * One tick's view of the world: the platform snapshot, the main screen if
   * any, the clock, the coin of the edge decision, the draw for the next
   * animation and the x of a teleport.
   */
  datatype TickInput = TickInput(platforms: seq<Rect>, screen: Option<Screen>, now: real,
                                 jump: bool, draw: int, teleportX: real)

  /** An early return (`Stop`) or falling through to the rest of the tick (`Go`). */
  datatype Phase = Stop(state: State) | Go(state: State)

  datatype TickResult = TickResult(state: State, frame: Option<int>)

  predicate ConfigValid(c: Config) {
    forall k :: k in c.animations ==> AnimationValid(c.animations[k])
  }

  predicate StateValid(s: State) {
    s.step >= 0 && (s.current.Some? ==> AnimationValid(s.current.value))
  }

  /** The transition draw lies in `[0, total)` of the running animation. */
  predicate DrawInRange(s: State, draw: int) {
    s.current.Some? && s.current.value.transitions != [] ==>
      0 <= draw < TotalWeight(s.current.value.transitions)
  }

  function Max(a: real, b: real): real { if a >= b then a else b }
  function Min(a: real, b: real): real { if a <= b then a else b }

  function SheepFrame(c: Config, s: State): Rect {
    Rect(s.x, s.y, c.frameWidth, c.frameHeight)
  }

  /** `startAnimation`: a known id restarts at step 0, an unknown id changes nothing. */
  function StartAnimation(c: Config, s: State, id: string): (r: State)
    ensures id in c.animations ==> r.current == Some(c.animations[id]) && r.step == 0
    ensures r.(current := s.current, step := s.step) == s
    ensures id !in c.animations ==> r == s
  {
    if id in c.animations then s.(current := Some(c.animations[id]), step := 0) else s
  }

  /** `handleFlip`. */
  function Flip(s: State): State {
    s.(isFlipped := !s.isFlipped)
  }

  // ---------------------------------------------------------------------------
  // Vertical: support, gravity, landing and the ground

  /** Hitting the ground: clamp to 0, stop, and leave any platform. */
  function GroundClamp(s: State): (r: State)
    ensures r.y >= 0.0 || r.y == s.y
    ensures s.y <= 0.0 ==> r.y == 0.0 && r.velocityY == 0.0 && !r.isOnPlatform && r.currentPlatform.None?
  {
    if s.y <= 0.0 then s.(y := 0.0, velocityY := 0.0, isOnPlatform := false, currentPlatform := None) else s
  }

  /** The point `getPlatformBelow` is asked about: the middle of the sheep's bottom edge. */
  function FootPoint(c: Config, s: State): Point {
    Point(s.x + c.frameWidth / 2.0, s.y)
  }

  /** Standing on `p`: it becomes the current platform and the fall stops. */
  function Supported(s: State, p: Rect): State {
    s.(isOnPlatform := true, currentPlatform := Some(p), velocityY := 0.0)
  }

  /** One tick of gravity: the speed grows by 0.5 up to 10 and the sheep drops by it. */
  function Accelerated(s: State): State {
    var v := Max(s.velocityY - Gravity, -MaxFallSpeed);
    s.(velocityY := v, y := s.y + v)
  }

  /** Snapped onto `p`'s top, at rest on it. */
  function Landed(s: State, p: Rect): State {
    s.(y := Top(p), velocityY := 0.0, isOnPlatform := true, currentPlatform := Some(p))
  }

  /** Falling towards `target`, if any; `Stop` is landing while playing "fall". */
  function Falling(c: Config, s: State, a: Animation, target: Option<Rect>): Phase {
    var fallen := Accelerated(s);
    if target.Some? && fallen.y <= Top(target.value) then
      var landed := Landed(fallen, target.value);
      if a.name == FallName then Stop(StartAnimation(c, landed, WalkId))
      else Go(GroundClamp(landed))
    else Go(GroundClamp(fallen))
  }

  /** The platform collision and gravity block; `Stop` is landing while falling. */
  function Vertical(c: Config, s: State, a: Animation, ps: seq<Rect>): Phase {
    var under := PlatformUnderSheep(ps, SheepFrame(c, s));
    if under.None? then
      var target := NearestBelow(ps, FootPoint(c, s), DefaultMaxDistance, |ps|);
      if target.Some? || s.y > 0.0 then
        Falling(c, s, a, if target.Some? then Some(ps[target.value]) else None)
      else Go(s)
    else Go(Supported(s, ps[under.value]))
  }

  // ---------------------------------------------------------------------------
  // Horizontal: scripted movement, platform edges, screen edges, bottom dwell

  /** The per-tick displacement at the animation's current progress. */
  function MoveX(a: Animation, step: int): real
    requires AnimationValid(a)
  {
    TotalStepsAtLeastFrames(a.sequence);
    var progress := step as real / TotalSteps(a.sequence) as real;
    a.movement.startX + (a.movement.endX - a.movement.startX) * progress
  }

  function MoveY(a: Animation, step: int): real
    requires AnimationValid(a)
  {
    TotalStepsAtLeastFrames(a.sequence);
    var progress := step as real / TotalSteps(a.sequence) as real;
    a.movement.startY + (a.movement.endY - a.movement.startY) * progress
  }

  /** Scripted movement: facing right moves right; vertical movement only on solid ground. */
  function Scripted(s: State, a: Animation): State
    requires AnimationValid(a)
  {
    var moved := s.(x := if s.isFlipped then s.x + MoveX(a, s.step) else s.x - MoveX(a, s.step));
    if moved.isOnPlatform || moved.y <= 0.0 then moved.(y := moved.y + MoveY(a, s.step)) else moved
  }

  /** Enter confusion: remember the time and end the tick. */
  function Confuse(s: State, now: real): State {
    s.(isAtEdge := true, isConfused := true, confusedStartTime := now)
  }

  /** Falling off a platform: off the platform with the given speed, playing "3". */
  function StartFalling(c: Config, s: State, velocity: real): State {
    StartAnimation(c, s.(isOnPlatform := false, currentPlatform := None, velocityY := velocity), FallId)
  }

  /** Whether the sheep's centre is in the 20-unit edge zone of `p`. */
  predicate NearEdge(c: Config, s: State, p: Rect) {
    var center := s.x + c.frameWidth / 2.0;
    center < p.MinX() + EdgeThreshold || center > p.MaxX() - EdgeThreshold
  }

  /** The confusion timeout: after 2 seconds the coin says jump off or turn round. */
  function ResolveConfusion(c: Config, s: State, now: real, jump: bool): Phase {
    if !s.isConfused then Go(s)
    else if now - s.confusedStartTime >= ConfusedDuration then
      var calm := s.(isConfused := false, isAtEdge := false);
      if jump then Stop(StartFalling(c, calm, -1.0)) else Go(Flip(calm))
    else Stop(s)
  }

  /** A centre more than 5 units past an edge of `p` forces a fall. */
  function WalkOff(c: Config, s: State, p: Rect): Phase {
    var center := s.x + c.frameWidth / 2.0;
    if center < p.MinX() - WalkOffDistance || center > p.MaxX() + WalkOffDistance then
      Stop(StartFalling(c, s.(isConfused := false, isAtEdge := false), 0.0))
    else Go(s)
  }

  /** The platform-edge block: confusion, the timed decision and the forced fall. */
  function PlatformEdge(c: Config, s: State, p: Rect, now: real, jump: bool): Phase {
    var atEdge := NearEdge(c, s, p);
    if atEdge && !s.isAtEdge && !s.isConfused then Stop(Confuse(s, now))
    else
      var decided := ResolveConfusion(c, if !atEdge then s.(isAtEdge := false) else s, now, jump);
      if decided.Stop? then decided else WalkOff(c, decided.state, p)
  }

  /** The horizontal screen-edge block. It never times a confusion out. */
  function ScreenEdge(c: Config, s: State, width: real, now: real): Phase {
    if s.x <= 0.0 || s.x >= width - c.frameWidth then
      if !s.isConfused && !s.isAtEdge then Stop(Confuse(s, now))
      else if !s.isConfused then Go(Flip(s).(x := Max(0.0, Min(s.x, width - c.frameWidth))))
      else Go(s)
    else Go(s)
  }

  /** The cap at the top of the screen. */
  function CapHeight(c: Config, s: State, height: real): State {
    if s.y >= height - c.frameHeight then s.(y := height - c.frameHeight) else s
  }

  /** The bottom-dwell timer and teleport. */
  function BottomDwell(s: State, height: real, now: real, teleportX: real): State {
    if s.y <= BottomThreshold && !s.isOnPlatform then
      if !s.isAtBottom then s.(isAtBottom := true, timeAtBottom := now)
      else if now - s.timeAtBottom >= BottomTeleportDelay then
        s.(x := teleportX, y := height * TeleportHeightFraction, velocityY := 0.0, isAtBottom := false)
      else s
    else if s.y > BottomThreshold then s.(isAtBottom := false)
    else s
  }

  /** Everything the screen is needed for. */
  function ScreenPhase(c: Config, s: State, screen: Option<Screen>, now: real, teleportX: real): Phase {
    if screen.None? then Go(s)
    else
      var e := ScreenEdge(c, s, screen.value.width, now);
      if e.Stop? then e
      else Go(BottomDwell(CapHeight(c, e.state, screen.value.height), screen.value.height, now, teleportX))
  }

  /** The movement block, entered only when the sheep is not falling. */
  function MovementPhase(c: Config, s: State, a: Animation, inp: TickInput): Phase
    requires AnimationValid(a)
  {
    if s.velocityY != 0.0 then Go(s)
    else
      var moved := Scripted(s, a);
      var e := if moved.isOnPlatform && moved.currentPlatform.Some? then
                 PlatformEdge(c, moved, moved.currentPlatform.value, inp.now, inp.jump)
               else Go(moved);
      if e.Stop? then e else ScreenPhase(c, e.state, inp.screen, inp.now, inp.teleportX)
  }

  // ---------------------------------------------------------------------------
  // Step advance

  /** The next step; at the end the action runs and the next animation starts. */
  function Advance(c: Config, s: State, a: Animation, draw: int): State
    requires a.transitions != [] ==> 0 <= draw < TotalWeight(a.transitions)
  {
    var next := s.(step := s.step + 1);
    if next.step >= TotalSteps(a.sequence) then EndOfAnimation(c, next, a, draw) else next
  }

  /** After the last step: the flip action, if any, and the animation the draw chooses ("0" without transitions). */
  function EndOfAnimation(c: Config, s: State, a: Animation, draw: int): State
    requires a.transitions != [] ==> 0 <= draw < TotalWeight(a.transitions)
  {
    var acted := if a.action == Some(FlipAction) then Flip(s) else s;
    var chosen := ChosenNext(a.transitions, draw);
    StartAnimation(c, acted, if chosen.Some? then chosen.value else WalkId)
  }

  /** One call of `updateAnimation`: the new state and the tile it shows (`None`: no animation). */
  function Tick(c: Config, s: State, inp: TickInput): TickResult
    requires StateValid(s) && DrawInRange(s, inp.draw)
  {
    if s.current.None? then TickResult(s, None)
    else if s.isDragging then TickResult(s, Some(DragFrame))
    else
      var a := s.current.value;
      var frame := FrameAtStep(a.sequence, s.step);
      var v := Vertical(c, s, a, inp.platforms);
      var m := if v.Stop? then v else MovementPhase(c, v.state, a, inp);
      if m.Stop? then TickResult(m.state, Some(frame))
      else TickResult(Advance(c, m.state, a, inp.draw), Some(frame))
  }

  // ---------------------------------------------------------------------------
  // Drag handlers

  function MouseDown(s: State): State {
    s.(isDragging := true)
  }

  /** The sheep's centre follows the pointer, only while dragging. */
  function MouseDragged(c: Config, s: State, pointer: Point): State {
    if s.isDragging then s.(x := pointer.x - c.frameWidth / 2.0, y := pointer.y - c.frameHeight / 2.0)
    else s
  }

  function MouseUp(c: Config, s: State, ps: seq<Rect>): State {
    var released := s.(isDragging := false, velocityY := 0.0);
    var under := PlatformUnderSheep(ps, SheepFrame(c, released));
    if under.Some? then
      StartAnimation(c, released.(isOnPlatform := true, currentPlatform := Some(ps[under.value])), WalkId)
    else if released.y > 0.0 then
      StartAnimation(c, released.(isOnPlatform := false, currentPlatform := None), FallId)
    else
      StartAnimation(c, released.(isOnPlatform := false, currentPlatform := None), WalkId)
  }
}
