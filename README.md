# esheep simulation engine in Dafny

esheep puts a sprite sheep on the macOS desktop. It walks, runs, idles and falls.
It stands on platforms made from the other windows' top edges and gets confused at
edges. After a while at the bottom of the screen it jumps back up, and it can be
dragged with the mouse. This project models the engine behind that behaviour and
proves properties of the model:

- **Animations** (`animation.dfy`, module `Animations`). An animation is a frame list
  with a loop-back point and a repeat count, a movement, and weighted transitions to
  the next animation. The module has the step count, the tile shown at each step,
  and the weighted choice of the next animation for a draw `r` in `[0, W)`.
- **Platforms** (`platform.dfy`, module `Platforms`). A platform is a rectangle.
  The module has the "sheep stands on it" and "point on it" tests, the first
  platform under the sheep, and the nearest platform strictly below a point. It also
  has the platform manager, which rebuilds its list from the window listing.
- **The tick state machine** (`sheep_model.dfy`, module `SheepModel`). It is a set of
  functions from the old state and the tick's inputs to the new state. Each block of
  `updateAnimation` is one function: gravity and landing, scripted movement,
  platform-edge confusion and forced falls, screen edges, the bottom-dwell teleport,
  and the step advance. These functions are the specification of the class below.
- **The sheep** (`sheep.dfy`, module `Sheep`). `ESheep` is a class with the
  controller's fields. Its methods update those fields in place. Each method is proved
  to leave exactly the state its `SheepModel` function computes.
- **The built-in table** (`animation_loader.dfy`, module `AnimationLoader`). These are
  the four fallback animations "0" to "3" and the `Loader` class that writes them into
  its table. The module proves the table's closure, weights, step counts and atlas
  bounds.
- **Properties** (`sheep_properties.dfy`, module `SheepProperties`). It states the
  tick's rules one by one, the invariant that a sheep keeps playing an animation of its
  table at a step inside it, and what a whole pass of a steady animation does.
- **The default scenario** (`default_scenario.dfy`, module `DefaultScenario`). It
  covers "walk" on open ground: where the sheep is after 8 ticks and after the full
  16 ticks, and which animation the draw chooses next.

The source reads several things from the environment: the clock, the coin of the
edge decision, the transition draw, the teleport's random x, the main screen and the
platform snapshot. The model takes all of them as inputs of the tick (`TickInput`).
Reals stand for `CGFloat`.

Behaviours of the code worth knowing:

- **A confused sheep still moves.** A sheep on a platform that is confused for less
  than 2 seconds still moves by the scripted displacement. The source moves it before
  it looks at the confusion, so only the step and the animation are frozen
  (`ConfusedSheepKeepsStepButMoves`).
- **Screen-edge confusion does not time out on the ground.** It is only timed out
  inside the on-platform block. Off every platform, a confused sheep stays confused
  whatever the clock says (`GroundConfusionNeverTimesOut`, `ScreenEdgeIgnoresClock`).
- **The confusion decision has a third outcome.** When the coin says "turn round", a
  centre already more than 5 units past the edge still forces a fall with speed 0 in
  the same tick (`ConfusionDecides`).
- **An animation without transitions is followed by "0".** When it ends, the source
  starts "0" rather than restarting the same animation (`AdvanceRules`).
- **The ground clamp can be skipped.** A sheep playing "fall" that lands on a
  platform whose top is under the ground ends the tick before the ground clamp
  (`GravityNeverBelowGround`).
- **"walk" takes 16 ticks.** Its repeat count is 1, so it lasts 16 steps. After 8
  ticks the sheep has walked 24 units and is at step 8, with no transition yet
  (`WalkHalfway`). The weighted choice happens on tick 16 (`WalkPass`). With a main
  screen, the first of those ticks also starts the bottom-dwell timer.
- **The current platform and animation are held as values.** They are the platform's
  rectangle and the animation value, not an index or an id. An index would not
  survive a rebuild of the platform list. The source itself holds the objects.

## Model

| member | source | states |
|---|---|---|
| Animations.TotalSteps | esheep/ESheepAnimation.swift:96-98 | the step count: the frames once, then the frames from `repeatFrom` on, `repeatCount` more times |
| Animations.TotalStepsAtLeastFrames | esheep/ESheepAnimation.swift:96-98 | the step count is at least the number of frames, and positive for a well-formed sequence |
| Animations.TileIndex | esheep/ESheepAnimation.swift:82-94 | the position read in `frames` is in bounds for every step, and from `repeatFrom` on it is never below `repeatFrom` |
| Animations.FrameAtStep | esheep/ESheepAnimation.swift:82-94 | the tile is always an element of `frames` (no trap), and during the first pass it is `frames[step]` |
| Animations.FramePeriodicFromStart | esheep/ESheepAnimation.swift:88-89 | with `repeatFrom == 0` the tile repeats with period `|frames|` |
| Animations.FramePeriodicAfterRepeatFrom | esheep/ESheepAnimation.swift:90-93 | with `repeatFrom > 0`, from `repeatFrom` on the index stays at or above `repeatFrom` and the tile repeats with period `|frames| - repeatFrom` |
| Animations.TotalWeight | esheep/ESheepAnimation.swift:68 | the sum of the transitions' weights |
| Animations.RunningWeight | esheep/ESheepAnimation.swift:71-73 | the accumulated weight after transition `j` |
| Animations.PrefixWeightStep | esheep/ESheepAnimation.swift:71-73 | each transition adds its weight to the running sum |
| Animations.PrefixWeightAll | esheep/ESheepAnimation.swift:68 | the running sum over the whole list is the `reduce` total |
| Animations.RunningWeightOfLast | esheep/ESheepAnimation.swift:72-79 | the running sum after the last transition is the total, so a draw below the total always stops the loop and the `last` fallback is never reached |
| Animations.PickFrom | esheep/ESheepAnimation.swift:72-77 | the loop from position `i` stops at the first transition whose running sum exceeds the draw |
| Animations.SelectedIndex | esheep/ESheepAnimation.swift:71-79 | the chosen transition is the first one whose running sum exceeds the draw |
| Animations.SelectedIndexUnique | esheep/ESheepAnimation.swift:71-77 | any index with the first-exceeding property is the chosen one |
| Animations.ChosenNext | esheep/ESheepAnimation.swift:63-80 | none exactly for an empty list; otherwise an id that one of the listed transitions names |
| Animations.NextAnimation | esheep/ESheepAnimation.swift:63-80 | the accumulating loop returns the id `ChosenNext` gives for the draw; a non-empty list needs a draw in `[0, total)` |
| Animations.PrefixWeightMonotone | esheep/ESheepAnimation.swift:71-73 | with positive weights the running sums grow along the list |
| Animations.SelectedIndexInterval | esheep/ESheepAnimation.swift:71-77 | with positive weights, transition `i` is chosen exactly for draws in `[P(i), P(i+1))`, in both directions |
| Animations.Interval | esheep/ESheepAnimation.swift:69 | the draws `a <= r < b` that `0..<total` ranges over, and there are `b - a` of them |
| Animations.WeightsAround | esheep/ESheepAnimation.swift:71-73 | the running sums before and after transition `i` lie inside `[0, total]` |
| Animations.ChoosingWithin | esheep/ESheepAnimation.swift:71-77 | a draw that chooses transition `i` lies between the running sums around it |
| Animations.WithinChoosing | esheep/ESheepAnimation.swift:71-77 | a draw between the running sums around transition `i` chooses it |
| Animations.ChosenDraws | esheep/ESheepAnimation.swift:68-77 | the set of draws that choose transition `i` is the interval between the running sums around it |
| Animations.DrawsChoosingTransition | esheep/ESheepAnimation.swift:68-77 | with positive weights, transition `i` is chosen by exactly `probability` of the `total` possible draws |
| Platforms.Top | esheep/ESheepPlatform.swift:83-85 | a platform's top is its rectangle's `maxY` |
| Platforms.IsPointOnPlatform | esheep/ESheepPlatform.swift:52-60 | the point lies in the closed horizontal span and within `margin` of the top |
| Platforms.IsSheepOnPlatform | esheep/ESheepPlatform.swift:63-80 | the sheep's bottom is within `margin` of the top and the spans do not lie apart on either side |
| Platforms.SheepOnPlatformIffSharedColumn | esheep/ESheepPlatform.swift:63-80 | the sheep stands on a platform iff its bottom is within `margin` of the top and the two closed horizontal spans share a column (touching spans count) |
| Platforms.PointTestIsZeroWidthSheepTest | esheep/ESheepPlatform.swift:52-60 | the point test is `minX <= x <= maxX` and `abs(y - top) <= margin`, the sheep test for a zero-width sheep |
| Platforms.FirstUnderSheepFrom | esheep/ESheepPlatform.swift:206-211 | a platform found from position `i` on is at or after `i` and the sheep stands on it |
| Platforms.FirstUnderSheepFromIsFirst | esheep/ESheepPlatform.swift:206-211 | the search skips exactly the platforms the sheep does not stand on; none is found iff it stands on none from `i` on |
| Platforms.PlatformUnderSheep | esheep/ESheepPlatform.swift:205-212 | a platform returned is one the sheep stands on |
| Platforms.PlatformUnderSheepIsFirst | esheep/ESheepPlatform.swift:205-212 | the platform returned is the first in list order that the sheep stands on, and none is returned iff it stands on none (the empty list included) |
| Platforms.GetPlatformUnderSheep | esheep/ESheepPlatform.swift:205-212 | the loop with an early return gives the first platform in list order that the sheep stands on |
| Platforms.IsBelow | esheep/ESheepPlatform.swift:221-223 | the platform spans the point's x and its top is strictly under the point |
| Platforms.NearestBelow | esheep/ESheepPlatform.swift:215-234 | the platform kept spans the point's x, lies strictly below it, and its gap is under `maxDistance` |
| Platforms.NearestBelowIsNearest | esheep/ESheepPlatform.swift:219-233 | the kept platform's gap is no greater than any candidate's and strictly less than every earlier candidate's (ties go to the earliest); none is kept iff no candidate's gap is under `maxDistance` |
| Platforms.GetPlatformBelow | esheep/ESheepPlatform.swift:215-234 | the loop keeping the closest candidate and its distance gives the nearest platform below |
| Platforms.WindowPlatform | esheep/ESheepPlatform.swift:153-175 | a window gives a platform iff it is at least 50 x 50; the platform keeps the window's horizontal span, is 10 thick, and its top is `screenHeight - bounds.minY` |
| Platforms.EntryPlatform | esheep/ESheepPlatform.swift:147-158 | an entry whose bounds were decoded gives its window's platform, if the window is large enough, when there is a main screen; otherwise nothing |
| Platforms.WindowPlatforms | esheep/ESheepPlatform.swift:133-199 | at most one platform per listing entry; none without a screen; every platform comes from an entry, and every usable entry gives a platform in the list |
| Platforms.WindowPlatformShape | esheep/ESheepPlatform.swift:153-175 | every platform made from a window is 10 thick and at least 50 wide |
| Platforms.RandomPlatforms | esheep/ESheepPlatform.swift:100-112 | one 20-thick platform per draw, at the drawn position and width, in draw order |
| Platforms.PlatformManager.constructor | esheep/ESheepPlatform.swift:90 | the manager starts with no platforms |
| Platforms.PlatformManager.CreateWindowPlatforms | esheep/ESheepPlatform.swift:117-202 | the old list is discarded; without a listing the list stays empty, otherwise it is the converted usable windows in order |
| Platforms.PlatformManager.CreateRandomPlatforms | esheep/ESheepPlatform.swift:92-115 | the old list is discarded; with a main screen it becomes one platform per draw, without one it stays empty |
| AnimationLoader.Walk | esheep/ESheepAnimationLoader.swift:102-113 | "walk": tiles 0 to 7 repeated once from 0, 3 units a step, then "0", "1" or "2" with weights 50, 30, 20 |
| AnimationLoader.Run | esheep/ESheepAnimationLoader.swift:115-126 | "run": tiles 8 to 13 repeated twice from 0, 5 units a step, then "0", "1" or "2" with weights 40, 30, 30 |
| AnimationLoader.Idle | esheep/ESheepAnimationLoader.swift:128-138 | "idle": its eight tiles with the last four repeated once, standing still, then "0", "1" or "3" with weights 60, 20, 20 |
| AnimationLoader.Fall | esheep/ESheepAnimationLoader.swift:140-150 | "fall": tiles 34 and 35 repeated five times, no horizontal move, 3 to 5 units vertically, then "0" |
| AnimationLoader.DefaultAnimations | esheep/ESheepAnimationLoader.swift:152-155 | the table with the four animations under keys "0" to "3" |
| AnimationLoader.DefaultTableKeys | esheep/ESheepAnimationLoader.swift:152-155 | the table holds exactly the keys "0" to "3", each animation under its own id |
| AnimationLoader.DefaultTableWeights | esheep/ESheepAnimationLoader.swift:107-146 | every weight is positive and each animation's weights sum to 100 |
| AnimationLoader.DefaultTableValid | esheep/ESheepAnimationLoader.swift:102-150 | every transition target is a key of the table, and every animation is well formed with a positive total weight |
| AnimationLoader.DefaultTotalSteps | esheep/ESheepAnimationLoader.swift:105-143 | walk lasts 16 steps, run 18, idle 12 and fall 12 |
| AnimationLoader.DefaultFramesInAtlas | esheep/ESheepAnimationLoader.swift:85-143 | every frame index is below 16 x 11, the default atlas size |
| AnimationLoader.DefaultNamesAndActions | esheep/ESheepAnimationLoader.swift:102-150 | only "3" is named "fall", and no animation carries an action |
| AnimationLoader.WalkFixture | esheep/ESheepAnimationLoader.swift:105-106 | walk shows tile 1 at step 9 and moves a constant 3 per step |
| AnimationLoader.InsertionsMakeDefaultTable | esheep/ESheepAnimationLoader.swift:152-155 | the four insertions overwrite keys "0" to "3" of whatever table was there and keep the rest |
| AnimationLoader.Loader.constructor | esheep/ESheepAnimationLoader.swift:82 | the loader starts with an empty table |
| AnimationLoader.Loader.LoadDefaultAnimations | esheep/ESheepAnimationLoader.swift:82-158 | the table gains the four default animations; the grid is what the sprite search found, or 16 x 11 after the reset; the returned values are the new fields |
| SheepModel.StartAnimation | esheep/ESheep.swift:199-206 | a known id plays from step 0; an unknown id changes nothing; nothing but the animation and step changes |
| SheepModel.GroundClamp | esheep/ESheep.swift:259-265 | at or below the ground the sheep is put at 0, at rest, off every platform |
| SheepModel.Flip | esheep/ESheep.swift:440-444 | the facing is toggled |
| SheepModel.Supported | esheep/ESheep.swift:267-272 | on a platform: it becomes current and the speed is 0 |
| SheepModel.Accelerated | esheep/ESheep.swift:239-241 | the speed falls by 0.5, to at most 10 downwards, and the sheep drops by it |
| SheepModel.Landed | esheep/ESheep.swift:245-249 | the sheep is snapped onto the platform's top, at rest on it |
| SheepModel.Falling | esheep/ESheep.swift:238-265 | accelerate; land on a target reached, ending the tick when playing "fall"; then the ground clamp |
| SheepModel.Vertical | esheep/ESheep.swift:228-272 | the gravity block: supported on the first platform under the sheep, otherwise falling when there is a platform below or the sheep is in the air |
| SheepModel.MoveX | esheep/ESheep.swift:275-276 | the horizontal offset interpolated from `startX` to `endX` by step over the step count |
| SheepModel.MoveY | esheep/ESheep.swift:275-277 | the vertical offset interpolated from `startY` to `endY` the same way |
| SheepModel.Scripted | esheep/ESheep.swift:279-288 | the horizontal offset right when flipped and left otherwise; the vertical one only on a platform or the ground |
| SheepModel.ResolveConfusion | esheep/ESheep.swift:315-343 | confused for 2 seconds or more: heads falls off with speed -1 playing "3" and ends the tick, tails turns round; before that the tick ends |
| SheepModel.WalkOff | esheep/ESheep.swift:345-357 | a centre more than 5 units past an edge forces a fall at speed 0, playing "3", and ends the tick |
| SheepModel.PlatformEdge | esheep/ESheep.swift:290-358 | the platform-edge block: entering the 20-unit edge zone confuses the sheep and ends the tick; leaving it clears the edge flag; then the confusion timeout and the forced fall |
| SheepModel.ScreenEdge | esheep/ESheep.swift:364-380 | at a horizontal screen edge: confused and the tick ends with neither flag set; otherwise, unless confused, turn round and clamp into the screen |
| SheepModel.CapHeight | esheep/ESheep.swift:382-384 | the height is capped at the screen's height less the frame's |
| SheepModel.BottomDwell | esheep/ESheep.swift:386-409 | low and unsupported: start the timer, or after 30 seconds teleport to the given x at 80% of the height; above 50 the timer is cleared |
| SheepModel.ScreenPhase | esheep/ESheep.swift:360-410 | without a main screen nothing changes; with one, the screen edge, then the height cap, then the bottom dwell |
| SheepModel.MovementPhase | esheep/ESheep.swift:274-411 | entered only at speed 0: the scripted move, the platform-edge block on a current platform, then the screen block |
| SheepModel.EndOfAnimation | esheep/ESheep.swift:419-437 | the flip action if any, then the animation the draw chooses, or "0" without transitions |
| SheepModel.Advance | esheep/ESheep.swift:415-437 | the step grows by one, and past the last step the animation ends |
| SheepModel.Tick | esheep/ESheep.swift:215-438 | no animation: nothing; dragging: tile 2; otherwise the tile of the current step, then gravity, movement and advance, each of the first two possibly ending the tick |
| SheepModel.MouseDown | esheep/ESheep.swift:450-453 | the drag flag is set |
| SheepModel.MouseDragged | esheep/ESheep.swift:455-463 | while dragging the sheep's centre goes to the pointer |
| SheepModel.MouseUp | esheep/ESheep.swift:465-489 | the drag stops at speed 0; on a platform under the sheep it plays "0" with that platform current; otherwise off every platform, playing "3" in the air and "0" on the ground |
| Sheep.InitialState | esheep/ESheep.swift:14-43 | the declared field values: no animation, not dragging, runnable |
| Sheep.ESheep.constructor | esheep/ESheep.swift:13-43 | the table and frame size are the given ones; every other field has its declared value |
| Sheep.ESheep.StartAnimation | esheep/ESheep.swift:199-206 | the new state is `SheepModel.StartAnimation` of the old one |
| Sheep.ESheep.HandleFlip | esheep/ESheep.swift:440-444 | only the facing is toggled |
| Sheep.ESheep.ApplyGravity | esheep/ESheep.swift:228-272 | the platform and gravity block, with its early return on landing, is `Vertical` |
| Sheep.ESheep.ApplyFalling | esheep/ESheep.swift:238-265 | falling towards the target is `Falling` |
| Sheep.ESheep.StandOn | esheep/ESheep.swift:267-272 | the platform under the sheep becomes current and the fall stops |
| Sheep.ESheep.Accelerate | esheep/ESheep.swift:239-241 | the speed grows by 0.5 up to 10 and the sheep drops by it |
| Sheep.ESheep.Land | esheep/ESheep.swift:245-249 | the sheep is snapped onto the platform's top, at rest on it |
| Sheep.ESheep.ClampToGround | esheep/ESheep.swift:259-265 | the ground check is `GroundClamp` |
| Sheep.ESheep.CheckPlatformEdge | esheep/ESheep.swift:290-358 | the platform-edge block is `PlatformEdge` |
| Sheep.ESheep.CheckConfusion | esheep/ESheep.swift:315-343 | the confusion timeout is `ResolveConfusion` |
| Sheep.ESheep.CheckWalkOff | esheep/ESheep.swift:345-357 | the forced fall is `WalkOff` |
| Sheep.ESheep.CheckScreen | esheep/ESheep.swift:360-410 | the screen block is `ScreenPhase` |
| Sheep.ESheep.CheckScreenEdge | esheep/ESheep.swift:364-380 | the horizontal screen-edge block is `ScreenEdge` |
| Sheep.ESheep.CapHeight | esheep/ESheep.swift:382-384 | the height is capped at the top of the screen |
| Sheep.ESheep.CheckBottom | esheep/ESheep.swift:386-409 | the bottom-dwell block is `BottomDwell` |
| Sheep.ESheep.ApplyMovement | esheep/ESheep.swift:274-410 | the movement block, entered only at speed 0, is `MovementPhase` |
| Sheep.ESheep.MoveScripted | esheep/ESheep.swift:275-288 | the scripted displacement is `Scripted` |
| Sheep.ESheep.UpdateAnimation | esheep/ESheep.swift:215-438 | the tile shown and the new state are `Tick` of the old state and the tick's inputs; with a table of runnable animations, the sheep stays runnable |
| Sheep.ESheep.AdvanceStep | esheep/ESheep.swift:415-437 | the step advance is `Advance` |
| Sheep.ESheep.EndAnimation | esheep/ESheep.swift:419-437 | the end of an animation is `EndOfAnimation`: the flip action, then the chosen animation or "0" |
| Sheep.ESheep.HandleMouseDown | esheep/ESheep.swift:450-453 | only the drag flag is set |
| Sheep.ESheep.HandleMouseDragged | esheep/ESheep.swift:455-463 | the centre goes to the pointer while dragging; otherwise nothing changes |
| Sheep.ESheep.HandleMouseUp | esheep/ESheep.swift:465-489 | the release is `MouseUp` |
| SheepProperties.TickWithoutAnimation | esheep/ESheep.swift:216 | without a current animation a tick changes nothing and shows nothing |
| SheepProperties.TickWhileDragging | esheep/ESheep.swift:218-222 | while dragging, a tick shows tile 2 and changes nothing |
| SheepProperties.TickShowsCurrentFrame | esheep/ESheep.swift:225-226 | a tick that runs shows the tile of the step it started at, an element of the frames |
| SheepProperties.TickPreservesValid | esheep/ESheep.swift:215-438 | with a table of runnable animations the sheep stays runnable after a tick |
| SheepProperties.StartAnimationFromTable | esheep/ESheep.swift:199-206 | starting keeps the animation and step, or restarts at 0 with an animation of the table |
| SheepProperties.VerticalAnimation | esheep/ESheep.swift:228-272 | the gravity block changes the animation only when it ends the tick |
| SheepProperties.FallingAnimation | esheep/ESheep.swift:238-265 | falling changes the animation only on the landing that ends the tick |
| SheepProperties.GroundClampKeepsAnimation | esheep/ESheep.swift:259-265 | the ground clamp keeps the animation and step |
| SheepProperties.PlatformEdgeAnimation | esheep/ESheep.swift:290-358 | the platform-edge block changes the animation only when it ends the tick |
| SheepProperties.ScreenPhaseAnimation | esheep/ESheep.swift:360-410 | the screen block never changes the animation or the step |
| SheepProperties.MovementAnimation | esheep/ESheep.swift:274-410 | the movement block changes the animation only when it ends the tick |
| SheepProperties.AdvanceAnimation | esheep/ESheep.swift:415-437 | with every transition target and "0" in the table, the advance keeps the step inside the animation or starts one of the table at step 0 |
| SheepProperties.DrawFitsState | esheep/ESheep.swift:431 | a draw that fits every animation of the table fits the one playing |
| SheepProperties.TickKeepsTableState | esheep/ESheep.swift:215-438 | in a valid, closed table holding "0", a tick keeps the sheep playing an animation of the table at a step inside it |
| SheepProperties.Ticks | esheep/ESheep.swift:208-212 | the table invariant holds after any number of ticks, each given the same input (the same clock reading, coin and draws) |
| SheepProperties.TicksSplit | esheep/ESheep.swift:208-212 | `n + 1` ticks are `n` ticks followed by one more |
| SheepProperties.RepeatIsProduct | esheep/ESheep.swift:281-283 | `k` equal displacements of `d` cover `k * d` |
| SheepProperties.SteadyMoves | esheep/ESheep.swift:275-277 | a steady animation moves horizontally by its start speed at every step and not vertically |
| SheepProperties.RepeatAdd | esheep/ESheep.swift:281-283 | `i` displacements of `d` and then `j` more are `i + j` of them |
| SheepProperties.Dwell | esheep/ESheep.swift:386-393 | on a main screen the dwell timer is started now unless it already runs; without one nothing changes |
| SheepProperties.Walked | esheep/ESheep.swift:274-416 | where `k` steady ticks leave the sheep: `k` speeds further on, `k` steps later, with the dwell timer running |
| SheepProperties.QuietScreenPhase | esheep/ESheep.swift:360-410 | on the ground, off every platform, strictly inside the side edges and under the top, the screen block only starts the dwell timer, and leaves a running one that is not due |
| SheepProperties.QuietScreenFewer | esheep/ESheep.swift:364-397 | a screen that leaves `m` steady ticks alone leaves fewer alone |
| SheepProperties.QuietScreenLater | esheep/ESheep.swift:364-397 | after `i` of `k` steady ticks under a quiet screen, the screen stays quiet for the other `k - i` |
| SheepProperties.SteadyTickState | esheep/ESheep.swift:274-416 | a tick of a steady animation on the ground with no platforms, under a quiet screen or none, moves the sheep by its signed speed, runs the dwell timer, and then advances |
| SheepProperties.SteadyTick | esheep/ESheep.swift:274-416 | before its last step, a tick of a steady animation on the ground with no platforms, under a quiet screen or none, moves the sheep by its signed speed, advances the step and runs the dwell timer |
| SheepProperties.SteadyFirstTick | esheep/ESheep.swift:274-416 | the first of `k` steady ticks keeps the table invariant and the quiet screen, and the rest are `k - 1` ticks from there |
| SheepProperties.WalkedThenWalked | esheep/ESheep.swift:274-416 | one steady tick and then `k - 1` more are `k` of them |
| SheepProperties.SteadyTicks | esheep/ESheep.swift:274-416 | `k` steady ticks before the end, with or without a main screen, move the sheep `k` times its speed, advance the step by `k` and run the dwell timer |
| SheepProperties.SteadyLastTick | esheep/ESheep.swift:415-437 | the last tick of a steady animation without an action moves once more, runs the dwell timer and starts the animation the draw chooses |
| SheepProperties.LastAdvance | esheep/ESheep.swift:415-437 | the advance past the last step of an animation without an action starts the animation the draw chooses |
| SheepProperties.WalkedOneMore | esheep/ESheep.swift:274-416 | one more steady tick after `k` of them is `k + 1` |
| SheepProperties.WalkedDwell | esheep/ESheep.swift:386-393 | after steady ticks the speed is the same, the position is the sum of the moves, and the dwell timer is the one started on the first tick |
| SheepProperties.DwellAgain | esheep/ESheep.swift:389-397 | a running dwell timer is not restarted |
| SheepProperties.LastTickOfPass | esheep/ESheep.swift:415-437 | the last tick of a pass covers the last step, keeps the dwell timer and starts the chosen animation of the table at step 0 |
| SheepProperties.StartAfterWalk | esheep/ESheep.swift:199-206 | starting a table animation after steady ticks plays it from step 0 at the position reached |
| SheepProperties.TicksToLast | esheep/ESheep.swift:274-416 | the first `n - 1` ticks of a pass of `n` steps are steady ones and keep the table invariant |
| SheepProperties.SteadyUntilLast | esheep/ESheep.swift:274-437 | a pass of `n` steps ends `n` speeds further on with the dwell timer running, playing the chosen animation from step 0 |
| SheepProperties.SteadyPass | esheep/ESheep.swift:274-437 | with or without a main screen, after as many ticks as a steady animation has steps, the sheep has moved that many times its speed, the dwell timer runs, and it plays the animation the draw chooses, which is in the table |
| SheepProperties.SupportedSheep | esheep/ESheep.swift:267-272 | with a platform under the sheep, that platform becomes current and the speed is 0, and nothing else changes |
| SheepProperties.FallingWithoutLanding | esheep/ESheep.swift:233-265 | without landing, the speed grows by 0.5 up to 10 and the sheep drops by it, or is clamped to the ground at rest; `x`, the animation and the step are kept |
| SheepProperties.Landing | esheep/ESheep.swift:244-265 | however far the fall overshoots, the sheep snaps onto the target's top at rest on it; the tick ends, playing "0" from step 0, iff the animation is named "fall"; otherwise a top at or under the ground gives way to the ground clamp |
| SheepProperties.GravityNeverBelowGround | esheep/ESheep.swift:233-265 | gravity never leaves the sheep under the ground, except on a "fall" landing onto a platform whose top is under it |
| SheepProperties.LandingEndsFallingTick | esheep/ESheep.swift:244-256 | a falling sheep that lands ends the tick at the platform's top, at rest on it, playing "0" from step 0 |
| SheepProperties.TickOnOpenGround | esheep/ESheep.swift:228-437 | on the ground with no platforms, gravity changes nothing, so a tick is the movement block and then the advance unless that block ends the tick |
| SheepProperties.TickWithoutScreen | esheep/ESheep.swift:274-437 | without a main screen, a tick on open ground is the scripted move, right when flipped and left otherwise, and then the advance |
| SheepProperties.OnGroundScripted | esheep/ESheep.swift:279-288 | on the ground and off every platform, the scripted move applies both offsets |
| SheepProperties.OpenGroundVertical | esheep/ESheep.swift:233-237 | with no platforms and on the ground, the gravity block changes nothing |
| SheepProperties.OffPlatformMovement | esheep/ESheep.swift:279-291 | off every platform and at rest: the scripted movement, then the screen block |
| SheepProperties.AdvanceRules | esheep/ESheep.swift:415-437 | before the end the step grows by one; at the end the flip action toggles the facing and the chosen animation (or "0") starts, or nothing changes for an unknown id |
| SheepProperties.EnterPlatformEdgeConfusion | esheep/ESheep.swift:297-310 | entering the 20-unit edge zone with neither flag set makes the sheep confused now, and the tick ends |
| SheepProperties.ConfusionWaits | esheep/ESheep.swift:339-342 | confused for less than 2 seconds, the tick ends with nothing changed except possibly the edge flag |
| SheepProperties.ConfusionDecides | esheep/ESheep.swift:316-357 | after 2 seconds the coin decides: heads falls off with speed -1 playing "3"; tails turns round, or is made to fall at speed 0 past the edge; confusion is cleared either way |
| SheepProperties.WalkingOffForcesFall | esheep/ESheep.swift:345-357 | a centre more than 5 units past an edge forces a fall at speed 0, off the platform, playing "3" from step 0 |
| SheepProperties.ConfusedSheepKeepsStepButMoves | esheep/ESheep.swift:274-342 | a confused sheep on a platform keeps its step and animation but still moves by the scripted displacement |
| SheepProperties.EnterScreenEdgeConfusion | esheep/ESheep.swift:365-373 | at a horizontal screen edge with neither flag set, the sheep is confused now and the tick ends |
| SheepProperties.ScreenEdgeTurnsAndClamps | esheep/ESheep.swift:375-379 | at the edge and not confused, the sheep turns round and is put back into `[0, width - frameWidth]`; nothing else changes |
| SheepProperties.ScreenEdgeIgnoresClock | esheep/ESheep.swift:365-380 | the screen-edge block reads the clock only to enter a confusion, and leaves a confused sheep as it is |
| SheepProperties.HeightIsCapped | esheep/ESheep.swift:382-384 | the height becomes `min(y, height - frameHeight)` and nothing else changes |
| SheepProperties.BottomDwellRules | esheep/ESheep.swift:386-409 | low and unsupported, the first tick starts the timer; after 30 seconds the sheep goes to 80% of the height at speed 0 and the timer is reset; before that nothing changes; above 50 the timer is cleared |
| SheepProperties.GroundConfusionNeverTimesOut | esheep/ESheep.swift:316-380 | off every platform and on the ground, a confused sheep stays confused after a tick, whatever the clock says |
| SheepProperties.ScreenPhaseKeepsConfusion | esheep/ESheep.swift:360-410 | the screen block never clears a confusion |
| SheepProperties.DraggingFollowsPointer | esheep/ESheep.swift:455-463 | while dragging the centre is at the pointer and nothing else changes; otherwise nothing changes |
| SheepProperties.PressedSheepIgnoresTicks | esheep/ESheep.swift:218-222 | after mouse-down a tick shows tile 2 and changes nothing |
| SheepProperties.ReleaseChoosesAnimation | esheep/ESheep.swift:465-489 | release stops the drag at speed 0 and keeps the position; on a platform under the sheep it plays "0" with that platform current; off every platform it plays "3" above the ground and "0" on it |
| DefaultScenario.DefaultConfigReady | esheep/ESheepAnimationLoader.swift:102-155 | the built-in table meets every assumption of the table invariant for draws in `[0, 100)` |
| DefaultScenario.WalkReady | esheep/ESheepAnimationLoader.swift:102-113 | walk is runnable, steady at 3 a step, 16 steps long, and its weights sum to 100 |
| DefaultScenario.WalkSelection | esheep/ESheepAnimation.swift:68-77 | for walk, draws below 50 choose "0", below 80 choose "1", and the rest choose "2" |
| DefaultScenario.WalkDistances | esheep/ESheep.swift:280-284 | walk covers 3 a tick in the facing direction: 24 in 8 ticks and 48 in 16 |
| DefaultScenario.WalkRoom | esheep/ESheep.swift:364-397 | room for `k` steps of walk between the side edges, under the top, with no dwell due, is a quiet screen for `k` ticks |
| DefaultScenario.WalkHalfway | esheep/ESheep.swift:274-416 | after 8 ticks of walk on the ground with no platforms, with or without a main screen, the sheep has walked 24 units and is at step 8; on a screen the dwell timer runs |
| DefaultScenario.WalkPass | esheep/ESheep.swift:274-437 | after 16 ticks of walk, with or without a main screen, the sheep has walked 48 units and plays, from step 0, "0", "1" or "2" as the draw says; on a screen the dwell timer runs |

## Left out

- Timers: the 0.1-second animation timer and the platform refresh timer are not modelled. A tick is one call of `UpdateAnimation`, and the clock is its `now` input.
- Randomness: `Bool.random`, `Int.random` and `CGFloat.random` are inputs (`jump`, `draw`, `teleportX`, `RandomPlatformDraw`).
- Platforms.PlatformManager.CreateRandomPlatforms: the ranges the source draws from (width 100 to 300, x and y inside the screen) are not enforced on the draws.
- Sheep.ESheep.UpdateAnimation: `teleportX` is not constrained to `[0, width - frameWidth]`.
- Sheep.ESheep.UpdateAnimation: requires the data invariant the model keeps for the current animation: a non-empty frame list, `0 <= repeatFrom < |frames|`, `repeatCount >= 0`, and a positive total weight when there are transitions; and a draw in `[0, total)`, the range `Int.random` draws from. This also excludes inputs on which the source does not trap: with a negative `repeatCount` the step count can be 0 and the progress division gives NaN; a `repeatFrom` out of range is harmless while a pass ends before it is read; a zero total weight traps only on the tick the animation ends.
- Animations.FrameAtStep: requires `step >= 0` and, past the first pass, `0 <= repeatFrom < |frames|`. This excludes inputs on which the source does not trap, such as a `repeatFrom` of -1 that still reads a valid index.
- SheepProperties.SteadyPass: the steady-walking lemmas assume the sheep on the ground with no platforms and, under a main screen, away from its side edges and top with no dwell teleport due; ticks at a screen edge are covered by the screen-edge lemmas instead.
- Rendering: drawing tiles (`setFrame`) and moving the window (`updateWindowPosition`) are not modelled. The tile to show is returned by `UpdateAnimation`, and the position is a field.
- Sprite and XML loading (`loadAnimations`, `parseAnimationXML`, `loadSpriteFromXML`, the fallback file path) is I/O. `LoadDefaultAnimations` takes the grid the sprite search found as an input; the image is not modelled.
- `setupWithLoadedData`, `createPlaceholderSprite` and the tile-grid fields of the sheep are not modelled. The table and the frame size are fixed when an `ESheep` is built.
- Window discovery: `CGWindowListCopyWindowInfo` and the decoding of the bounds dictionary are foreign calls. `CreateWindowPlatforms` takes the listing as a sequence of optional rectangles.
- The spawn position chosen in `start()`, the window and view set-up, `stop`, `stopAllSharedResources`, and the static toggles `showPlatforms` and `frontmostAppOnly` are not modelled.
- Sheep.ESheep.HandleMouseDown: the timer is stopped in the source, so no tick normally runs while dragging. The model keeps the tick's own dragging branch (tile 2, nothing changes) instead.
- Concurrency: `DispatchQueue` hand-offs and the process-wide shared platform manager are not modelled. The platform snapshot is an input of each tick.
- Floating point: `CGFloat` is modelled as exact reals, so there is no rounding, and `velocityY == 0` is exact equality.
- Rectangles have non-negative sizes. `CGRect` standardising of negative sizes is not modelled.
- `hasGravity`, `hasBorder`, `startInterval` and `endInterval` are carried in `Animation` but never read, as in the source.
- `isPointOnPlatform` is modelled and related to the sheep test, but nothing in the engine calls it.
