/**
 * The sheep controller of esheep/ESheep.swift as a class whose fields the
 * tick and the mouse handlers update in place. Every method is proved to
 * leave the state the matching function of `SheepModel` computes.
 */
module Sheep {
  import opened Wrappers
  import opened Animations
  import opened Platforms
  import opened SheepModel
  import SheepProperties

  /** The values the controller's fields are declared with. */
  function InitialState(): (s: State)
    ensures StateValid(s) && s.current.None? && !s.isDragging
  {
    State(100.0, 300.0, 0.0, false, None, true, None, 0, false, 0.0, false, false, 0.0, false)
  }

  class ESheep {
    // Written only by the loading code, which is not part of this model.
    const animations: map<string, Animation>
    const frameWidth: Extent
    const frameHeight: Extent
    var currentAnimation: Option<Animation>
    var currentAnimationStep: int
    var position: Point
    var isFlipped: bool
    var isDragging: bool
    var velocityY: real
    var isOnPlatform: bool
    var currentPlatform: Option<Rect>
    var isConfused: bool
    var confusedStartTime: real
    var isAtEdge: bool
    var timeAtBottom: real
    var isAtBottom: bool

    /** The animation table and frame size. */
    function Settings(): Config {
      Config(animations, frameWidth, frameHeight)
    }

    /** The physics, edge and animation state, as a value. */
    function Snapshot(): State
      reads this
    {
      State(position.x, position.y, velocityY, isOnPlatform, currentPlatform, isFlipped,
            currentAnimation, currentAnimationStep, isConfused, confusedStartTime,
            isAtEdge, isAtBottom, timeAtBottom, isDragging)
    }

    /** The outcome of a phase: `stop` says the tick returns early. */
    function Outcome(stop: bool): Phase
      reads this
    {
      if stop then Stop(Snapshot()) else Go(Snapshot())
    }

    /** A sheep whose table and frame size are set up, every other field at its declared value. */
    constructor(table: map<string, Animation>, width: Extent, height: Extent)
      ensures Settings() == Config(table, width, height)
      ensures Snapshot() == InitialState()
    {
      animations := table;
      frameWidth := width;
      frameHeight := height;
      currentAnimation := None;
      currentAnimationStep := 0;
      position := Point(100.0, 300.0);
      isFlipped := true;
      isDragging := false;
      velocityY := 0.0;
      isOnPlatform := false;
      currentPlatform := None;
      isConfused := false;
      confusedStartTime := 0.0;
      isAtEdge := false;
      timeAtBottom := 0.0;
      isAtBottom := false;
    }

    /** Plays the animation `id` from step 0; an unknown id changes nothing. */
    method StartAnimation(id: string)
      modifies this
      ensures Snapshot() == SheepModel.StartAnimation(Settings(), old(Snapshot()), id)
    {
      if id in animations {
        currentAnimation := Some(animations[id]);
        currentAnimationStep := 0;
      }
    }

    /** Turns the sheep round. */
    method HandleFlip()
      modifies this
      ensures Snapshot() == Flip(old(Snapshot()))
    {
      isFlipped := !isFlipped;
    }

    /** Gravity and landing; `stop` when a falling sheep lands and the tick ends. */
    method ApplyGravity(platforms: seq<Rect>, animation: Animation) returns (stop: bool)
      modifies this
      ensures Outcome(stop) == Vertical(Settings(), old(Snapshot()), animation, platforms)
    {
      var sheepFrame := Rect(position.x, position.y, frameWidth, frameHeight);
      var platformBelow := GetPlatformUnderSheep(platforms, sheepFrame);
      if platformBelow.None? {
        var foot := Point(position.x + frameWidth / 2.0, position.y);
        var platformTarget := GetPlatformBelow(platforms, foot, DefaultMaxDistance);
        if platformTarget.Some? || position.y > 0.0 {
          stop := ApplyFalling(animation, if platformTarget.Some? then Some(platforms[platformTarget.value]) else None);
          return;
        }
      } else {
        StandOn(platforms[platformBelow.value]);
      }
      return false;
    }

    /** Falling towards `target`; `stop` when a sheep playing "fall" lands. */
    method ApplyFalling(animation: Animation, target: Option<Rect>) returns (stop: bool)
      modifies this
      ensures Outcome(stop) == Falling(Settings(), old(Snapshot()), animation, target)
    {
      Accelerate();
      if target.Some? {
        var platform := target.value;
        if position.y <= Top(platform) {
          Land(platform);
          if animation.name == FallName {
            StartAnimation(WalkId);
            return true;
          }
        }
      }
      ClampToGround();
      return false;
    }

    /** Standing on `platform`: it becomes the current platform and the fall stops. */
    method StandOn(platform: Rect)
      modifies this
      ensures Snapshot() == Supported(old(Snapshot()), platform)
    {
      isOnPlatform := true;
      currentPlatform := Some(platform);
      velocityY := 0.0;
    }

    /** One tick of gravity: the speed grows by 0.5 up to 10 and the sheep drops by it. */
    method Accelerate()
      modifies this
      ensures Snapshot() == Accelerated(old(Snapshot()))
    {
      velocityY := velocityY - Gravity;
      velocityY := Max(velocityY, -MaxFallSpeed);
      position := position.(y := position.y + velocityY);
    }

    /** Standing on `platform`'s top, at rest. */
    method Land(platform: Rect)
      modifies this
      ensures Snapshot() == Landed(old(Snapshot()), platform)
    {
      position := position.(y := Top(platform));
      velocityY := 0.0;
      isOnPlatform := true;
      currentPlatform := Some(platform);
    }

    /** The ground check after gravity. */
    method ClampToGround()
      modifies this
      ensures Snapshot() == GroundClamp(old(Snapshot()))
    {
      if position.y <= 0.0 {
        position := position.(y := 0.0);
        velocityY := 0.0;
        isOnPlatform := false;
        currentPlatform := None;
      }
    }

    /** The platform-edge block: confusion, its timed decision and the forced fall. */
    method CheckPlatformEdge(platform: Rect, now: real, jump: bool) returns (stop: bool)
      modifies this
      ensures Outcome(stop) == PlatformEdge(Settings(), old(Snapshot()), platform, now, jump)
    {
      var sheepCenter := position.x + frameWidth / 2.0;
      var atEdge := sheepCenter < platform.MinX() + EdgeThreshold || sheepCenter > platform.MaxX() - EdgeThreshold;
      if atEdge && !isAtEdge && !isConfused {
        isAtEdge := true;
        isConfused := true;
        confusedStartTime := now;
        return true;
      } else if !atEdge {
        isAtEdge := false;
      }
      stop := CheckConfusion(now, jump);
      if stop {
        return;
      }
      stop := CheckWalkOff(platform, sheepCenter);
    }

    /** The confusion timeout; `stop` while still confused or after jumping off. */
    method CheckConfusion(now: real, jump: bool) returns (stop: bool)
      modifies this
      ensures Outcome(stop) == ResolveConfusion(Settings(), old(Snapshot()), now, jump)
    {
      if isConfused {
        if now - confusedStartTime >= ConfusedDuration {
          isConfused := false;
          isAtEdge := false;
          if jump {
            isOnPlatform := false;
            currentPlatform := None;
            velocityY := -1.0;
            StartAnimation(FallId);
            return true;
          } else {
            HandleFlip();
          }
        } else {
          return true;
        }
      }
      return false;
    }

    /** The forced fall of a sheep whose centre is more than 5 units past an edge. */
    method CheckWalkOff(platform: Rect, sheepCenter: real) returns (stop: bool)
      requires sheepCenter == position.x + frameWidth / 2.0
      modifies this
      ensures Outcome(stop) == WalkOff(Settings(), old(Snapshot()), platform)
    {
      if sheepCenter < platform.MinX() - WalkOffDistance || sheepCenter > platform.MaxX() + WalkOffDistance {
        isOnPlatform := false;
        currentPlatform := None;
        isConfused := false;
        isAtEdge := false;
        velocityY := 0.0;
        StartAnimation(FallId);
        return true;
      }
      return false;
    }

    /** The screen block: edge confusion or turn, height cap and bottom dwell. */
    method CheckScreen(screen: Option<Screen>, now: real, teleportX: real) returns (stop: bool)
      modifies this
      ensures Outcome(stop) == ScreenPhase(Settings(), old(Snapshot()), screen, now, teleportX)
    {
      if screen.None? {
        return false;
      }
      stop := CheckScreenEdge(screen.value.width, now);
      if stop {
        return;
      }
      CapHeight(screen.value.height);
      CheckBottom(screen.value.height, now, teleportX);
    }

    /** At a horizontal screen edge: enter confusion, or turn round and move back inside. */
    method CheckScreenEdge(width: real, now: real) returns (stop: bool)
      modifies this
      ensures Outcome(stop) == ScreenEdge(Settings(), old(Snapshot()), width, now)
    {
      if position.x <= 0.0 || position.x >= width - frameWidth {
        if !isConfused && !isAtEdge {
          isAtEdge := true;
          isConfused := true;
          confusedStartTime := now;
          return true;
        }
        if !isConfused {
          HandleFlip();
          position := position.(x := Max(0.0, Min(position.x, width - frameWidth)));
        }
      }
      return false;
    }

    /** Keeps the sheep under the top of the screen. */
    method CapHeight(height: real)
      modifies this
      ensures Snapshot() == SheepModel.CapHeight(Settings(), old(Snapshot()), height)
    {
      if position.y >= height - frameHeight {
        position := position.(y := height - frameHeight);
      }
    }

    /** The bottom-dwell timer and the teleport to 80% of the screen height. */
    method CheckBottom(height: real, now: real, teleportX: real)
      modifies this
      ensures Snapshot() == BottomDwell(old(Snapshot()), height, now, teleportX)
    {
      if position.y <= BottomThreshold && !isOnPlatform {
        if !isAtBottom {
          isAtBottom := true;
          timeAtBottom := now;
        } else if now - timeAtBottom >= BottomTeleportDelay {
          position := Point(teleportX, height * TeleportHeightFraction);
          velocityY := 0.0;
          isAtBottom := false;
        }
      } else if position.y > BottomThreshold {
        isAtBottom := false;
      }
    }

    /** Scripted movement followed by the platform-edge and screen blocks. */
    method ApplyMovement(animation: Animation, screen: Option<Screen>, now: real, jump: bool, teleportX: real)
      returns (stop: bool)
      requires AnimationValid(animation)
      modifies this
      ensures Outcome(stop) ==
        MovementPhase(Settings(), old(Snapshot()), animation, TickInput([], screen, now, jump, 0, teleportX))
    {
      if velocityY != 0.0 {
        return false;
      }
      MoveScripted(animation);
      if isOnPlatform && currentPlatform.Some? {
        stop := CheckPlatformEdge(currentPlatform.value, now, jump);
        if stop {
          return;
        }
      }
      stop := CheckScreen(screen, now, teleportX);
    }

    /** The scripted displacement of the current step. */
    method MoveScripted(animation: Animation)
      requires AnimationValid(animation)
      modifies this
      ensures Snapshot() == Scripted(old(Snapshot()), animation)
    {
      var moveX := MoveX(animation, currentAnimationStep);
      var moveY := MoveY(animation, currentAnimationStep);
      if isFlipped {
        position := position.(x := position.x + moveX);
      } else {
        position := position.(x := position.x - moveX);
      }
      if isOnPlatform || position.y <= 0.0 {
        position := position.(y := position.y + moveY);
      }
    }

    /**
     * One tick: the tile shown and the new state are those of `Tick` on the
     * old state; the table and frame size never change.
     */
    method UpdateAnimation(platforms: seq<Rect>, screen: Option<Screen>, now: real, jump: bool, draw: int,
                           teleportX: real) returns (frame: Option<int>)
      requires StateValid(Snapshot()) && DrawInRange(Snapshot(), draw)
      modifies this
      ensures TickResult(Snapshot(), frame) ==
        Tick(Settings(), old(Snapshot()), TickInput(platforms, screen, now, jump, draw, teleportX))
      ensures ConfigValid(Settings()) ==> StateValid(Snapshot())
    {
      if ConfigValid(Settings()) {
        SheepProperties.TickPreservesValid(Settings(), Snapshot(), TickInput(platforms, screen, now, jump, draw, teleportX));
      }
      if currentAnimation.None? {
        return None;
      }
      var animation := currentAnimation.value;
      if isDragging {
        return Some(DragFrame);
      }
      frame := Some(FrameAtStep(animation.sequence, currentAnimationStep));
      var stop := ApplyGravity(platforms, animation);
      if stop {
        return;
      }
      stop := ApplyMovement(animation, screen, now, jump, teleportX);
      if stop {
        return;
      }
      AdvanceStep(animation, draw);
    }

    /** The end of a tick that did not return early: the next step, or the next animation. */
    method AdvanceStep(animation: Animation, draw: int)
      requires animation.transitions != [] ==> 0 <= draw < TotalWeight(animation.transitions)
      modifies this
      ensures Snapshot() == Advance(Settings(), old(Snapshot()), animation, draw)
    {
      currentAnimationStep := currentAnimationStep + 1;
      if currentAnimationStep >= TotalSteps(animation.sequence) {
        EndAnimation(animation, draw);
      }
    }

    /** The last step is over: run the action, then start the next animation. */
    method EndAnimation(animation: Animation, draw: int)
      requires animation.transitions != [] ==> 0 <= draw < TotalWeight(animation.transitions)
      modifies this
      ensures Snapshot() == EndOfAnimation(Settings(), old(Snapshot()), animation, draw)
    {
      if animation.action == Some(FlipAction) {
        HandleFlip();
      }
      var next := NextAnimation(animation.transitions, draw);
      if next.Some? {
        StartAnimation(next.value);
      } else {
        StartAnimation(WalkId);
      }
    }

    /** Pressing the mouse starts a drag. */
    method HandleMouseDown()
      modifies this
      ensures Snapshot() == MouseDown(old(Snapshot()))
    {
      isDragging := true;
    }

    /** While dragging, the sheep's centre follows the pointer. */
    method HandleMouseDragged(screenLocation: Point)
      modifies this
      ensures Snapshot() == MouseDragged(Settings(), old(Snapshot()), screenLocation)
    {
      if isDragging {
        position := Point(screenLocation.x - frameWidth / 2.0, screenLocation.y - frameHeight / 2.0);
      }
    }

    /** Releasing the mouse ends the drag and chooses walking or falling. */
    method HandleMouseUp(platforms: seq<Rect>)
      modifies this
      ensures Snapshot() == MouseUp(Settings(), old(Snapshot()), platforms)
    {
      isDragging := false;
      velocityY := 0.0;
      var sheepFrame := Rect(position.x, position.y, frameWidth, frameHeight);
      var platformBelow := GetPlatformUnderSheep(platforms, sheepFrame);
      if platformBelow.Some? {
        isOnPlatform := true;
        currentPlatform := Some(platforms[platformBelow.value]);
        StartAnimation(WalkId);
      } else if position.y > 0.0 {
        isOnPlatform := false;
        currentPlatform := None;
        StartAnimation(FallId);
      } else {
        isOnPlatform := false;
        currentPlatform := None;
        StartAnimation(WalkId);
      }
    }
  }
}
