/**
 * Properties of the tick state machine of esheep/ESheep.swift, stated over the
 * phase functions of `SheepModel` and over whole ticks.
 */
module SheepProperties {
  import opened Wrappers
  import opened Animations
  import opened Platforms
  import opened SheepModel
  import AnimationLoader

  // ---------------------------------------------------------------------------
  // Ticks that do nothing but show a tile

  /** Without a current animation a tick changes nothing and shows nothing. */
  lemma TickWithoutAnimation(c: Config, s: State, inp: TickInput)
    requires StateValid(s) && s.current.None?
    ensures Tick(c, s, inp) == TickResult(s, None)
  {
  }

  /** While dragging, a tick shows the drag tile and changes nothing else. */
  lemma TickWhileDragging(c: Config, s: State, inp: TickInput)
    requires StateValid(s) && DrawInRange(s, inp.draw)
    requires s.current.Some? && s.isDragging
    ensures Tick(c, s, inp) == TickResult(s, Some(DragFrame))
  {
  }

  /** A tick that runs shows the tile of the step it started at. */
  lemma TickShowsCurrentFrame(c: Config, s: State, inp: TickInput)
    requires StateValid(s) && DrawInRange(s, inp.draw)
    requires s.current.Some? && !s.isDragging
    ensures Tick(c, s, inp).frame == Some(FrameAtStep(s.current.value.sequence, s.step))
    ensures Tick(c, s, inp).frame.value in s.current.value.sequence.frames
  {
  }

  /** A tick keeps the sheep runnable when every animation of its table is. */
  lemma TickPreservesValid(c: Config, s: State, inp: TickInput)
    requires ConfigValid(c) && StateValid(s) && DrawInRange(s, inp.draw)
    ensures StateValid(Tick(c, s, inp).state)
  {
    if s.current.Some? && !s.isDragging {
      var a := s.current.value;
      var v := Vertical(c, s, a, inp.platforms);
      VerticalAnimation(c, s, a, inp.platforms);
      if v.Go? {
        MovementAnimation(c, v.state, a, inp);
        var m := MovementPhase(c, v.state, a, inp);
        if m.Go? {
          AdvanceAnimation(c, m.state, a, inp.draw);
        }
      }
    }
  }

  /** The animation being played comes from the configured table. */
  predicate PlaysFromTable(c: Config, s: State) {
    s.current.Some? ==> s.current.value in c.animations.Values
  }

  /** `r` plays what `s` played at the same step, or restarts at step 0 with an animation of the table. */
  predicate KeepsOrRestarts(c: Config, s: State, r: State) {
    || (r.current == s.current && r.step == s.step)
    || (r.step == 0 && r.current.Some? && r.current.value in c.animations.Values)
  }

  lemma StartAnimationFromTable(c: Config, s: State, id: string)
    ensures KeepsOrRestarts(c, s, StartAnimation(c, s, id))
  {
  }

  /** The gravity phase only changes the animation when it ends the tick. */
  lemma VerticalAnimation(c: Config, s: State, a: Animation, ps: seq<Rect>)
    ensures var r := Vertical(c, s, a, ps);
      KeepsOrRestarts(c, s, r.state) && (r.Go? ==> r.state.current == s.current && r.state.step == s.step)
  {
    var under := PlatformUnderSheep(ps, SheepFrame(c, s));
    var target := NearestBelow(ps, FootPoint(c, s), DefaultMaxDistance, |ps|);
    if under.None? && (target.Some? || s.y > 0.0) {
      FallingAnimation(c, s, a, if target.Some? then Some(ps[target.value]) else None);
    }
  }

  lemma FallingAnimation(c: Config, s: State, a: Animation, target: Option<Rect>)
    ensures var r := Falling(c, s, a, target);
      KeepsOrRestarts(c, s, r.state) && (r.Go? ==> r.state.current == s.current && r.state.step == s.step)
  {
    var fallen := Accelerated(s);
    if target.Some? && fallen.y <= Top(target.value) {
      var landed := Landed(fallen, target.value);
      StartAnimationFromTable(c, landed, WalkId);
      GroundClampKeepsAnimation(landed);
    } else {
      GroundClampKeepsAnimation(fallen);
    }
  }

  lemma GroundClampKeepsAnimation(s: State)
    ensures GroundClamp(s).current == s.current && GroundClamp(s).step == s.step
  {
  }

  /** The platform-edge block only changes the animation when it ends the tick. */
  lemma PlatformEdgeAnimation(c: Config, s: State, p: Rect, now: real, jump: bool)
    ensures var r := PlatformEdge(c, s, p, now, jump);
      KeepsOrRestarts(c, s, r.state) && (r.Go? ==> r.state.current == s.current && r.state.step == s.step)
  {
    var atEdge := NearEdge(c, s, p);
    if !(atEdge && !s.isAtEdge && !s.isConfused) {
      var s1 := if !atEdge then s.(isAtEdge := false) else s;
      var decided := ResolveConfusion(c, s1, now, jump);
      if decided.Go? {
        assert decided.state.current == s.current && decided.state.step == s.step;
        var w := WalkOff(c, decided.state, p);
        StartAnimationFromTable(c, decided.state.(isConfused := false, isAtEdge := false,
          isOnPlatform := false, currentPlatform := None, velocityY := 0.0), FallId);
      } else {
        StartAnimationFromTable(c, s1.(isConfused := false, isAtEdge := false,
          isOnPlatform := false, currentPlatform := None, velocityY := -1.0), FallId);
      }
    }
  }

  /** The screen block never changes the animation or the step. */
  lemma ScreenPhaseAnimation(c: Config, s: State, screen: Option<Screen>, now: real, teleportX: real)
    ensures var r := ScreenPhase(c, s, screen, now, teleportX);
      r.state.current == s.current && r.state.step == s.step
  {
    if screen.Some? {
      var e := ScreenEdge(c, s, screen.value.width, now);
      assert e.state.current == s.current && e.state.step == s.step;
      var capped := CapHeight(c, e.state, screen.value.height);
      assert capped.current == s.current && capped.step == s.step;
      var dwelt := BottomDwell(capped, screen.value.height, now, teleportX);
      assert dwelt.current == s.current && dwelt.step == s.step;
    }
  }

  /** The movement phase only changes the animation when it ends the tick. */
  lemma MovementAnimation(c: Config, s: State, a: Animation, inp: TickInput)
    requires AnimationValid(a)
    ensures var r := MovementPhase(c, s, a, inp);
      KeepsOrRestarts(c, s, r.state) && (r.Go? ==> r.state.current == s.current && r.state.step == s.step)
  {
    if s.velocityY == 0.0 {
      var moved := Scripted(s, a);
      if moved.isOnPlatform && moved.currentPlatform.Some? {
        PlatformEdgeAnimation(c, moved, moved.currentPlatform.value, inp.now, inp.jump);
        var e := PlatformEdge(c, moved, moved.currentPlatform.value, inp.now, inp.jump);
        ScreenPhaseAnimation(c, e.state, inp.screen, inp.now, inp.teleportX);
      } else {
        ScreenPhaseAnimation(c, moved, inp.screen, inp.now, inp.teleportX);
      }
    }
  }

  /**
   * Advancing keeps the step inside the animation when the next animation is
   * always in the table: every transition target and the fallback "0".
   */
  lemma AdvanceAnimation(c: Config, s: State, a: Animation, draw: int)
    requires a.transitions != [] ==> 0 <= draw < TotalWeight(a.transitions)
    ensures var r := Advance(c, s, a, draw);
      || KeepsOrRestarts(c, s.(step := s.step + 1), r)
    ensures var r := Advance(c, s, a, draw);
      s.current == Some(a) && 0 <= s.step < TotalSteps(a.sequence) && WalkId in c.animations &&
      (forall t :: t in a.transitions ==> t.nextAnimationId in c.animations) ==>
      r.current.Some? && r.current.value in c.animations.Values + {a} &&
      (r.current == s.current ==> 0 <= r.step < TotalSteps(a.sequence)) &&
      (r.current != s.current ==> r.step == 0)
  {
    var next := s.(step := s.step + 1);
    if next.step >= TotalSteps(a.sequence) && a.transitions != [] {
      var k := SelectedIndex(a.transitions, draw);
      assert a.transitions[k] in a.transitions;
    }
  }

  /** The step of a sheep playing an animation lies inside that animation. */
  predicate StepInRange(s: State) {
    s.current.Some? ==> s.step < TotalSteps(s.current.value.sequence)
  }

  /** Every draw is in range for every animation of the table. */
  predicate DrawFitsTable(c: Config, draw: int) {
    forall k :: k in c.animations && c.animations[k].transitions != [] ==>
      0 <= draw < TotalWeight(c.animations[k].transitions)
  }

  /** The per-tick invariant of a sheep playing from a closed, valid table. */
  predicate TableState(c: Config, s: State) {
    StateValid(s) && PlaysFromTable(c, s) && StepInRange(s)
  }

  /** A draw that fits every animation of the table fits the one playing. */
  lemma DrawFitsState(c: Config, s: State, draw: int)
    requires TableState(c, s) && DrawFitsTable(c, draw)
    ensures DrawInRange(s, draw)
  {
    if s.current.Some? {
      var k :| k in c.animations && c.animations[k] == s.current.value;
    }
  }

  /**
   * In a valid table whose transitions stay inside it and which holds "0",
   * the sheep always plays an animation of the table at a step inside it.
   */
  lemma TickKeepsTableState(c: Config, s: State, inp: TickInput)
    requires ConfigValid(c) && AnimationLoader.TransitionsClosed(c.animations) && WalkId in c.animations
    requires TableState(c, s) && DrawFitsTable(c, inp.draw)
    ensures DrawInRange(s, inp.draw)
    ensures TableState(c, Tick(c, s, inp).state)
  {
    if s.current.Some? {
      var a := s.current.value;
      var k :| k in c.animations && c.animations[k] == a;
      assert DrawInRange(s, inp.draw);
      if !s.isDragging {
        assert forall t :: t in a.transitions ==> t.nextAnimationId in c.animations;
        var v := Vertical(c, s, a, inp.platforms);
        VerticalAnimation(c, s, a, inp.platforms);
        var m := if v.Stop? then v else MovementPhase(c, v.state, a, inp);
        if v.Go? {
          MovementAnimation(c, v.state, a, inp);
        }
        assert KeepsOrRestarts(c, s, m.state);
        assert m.Go? ==> m.state.current == s.current && m.state.step == s.step;
        var r := if m.Stop? then m.state else Advance(c, m.state, a, inp.draw);
        assert Tick(c, s, inp).state == r;
        if m.Go? {
          AdvanceAnimation(c, m.state, a, inp.draw);
        }
        if r.current != s.current {
          var j :| j in c.animations && c.animations[j] == r.current.value;
          TotalStepsAtLeastFrames(r.current.value.sequence);
        }
      }
    }
    TickPreservesValid(c, s, inp);
  }

  /**
   * `n` ticks, each given the same input: the same platforms, screen, clock
   * reading, coin and draw. The table invariant holds after each of them.
   */
  function Ticks(c: Config, s: State, inp: TickInput, n: nat): (r: State)
    requires ConfigValid(c) && AnimationLoader.TransitionsClosed(c.animations) && WalkId in c.animations
    requires TableState(c, s) && DrawFitsTable(c, inp.draw)
    ensures TableState(c, r)
    decreases n
  {
    if n == 0 then s
    else
      TickKeepsTableState(c, s, inp);
      Ticks(c, Tick(c, s, inp).state, inp, n - 1)
  }

  /** Running `n + 1` ticks is running `n`, reaching `m`, and then one more. */
  lemma {:induction false} TicksSplit(c: Config, s: State, inp: TickInput, n: nat, m: State)
    requires ConfigValid(c) && AnimationLoader.TransitionsClosed(c.animations) && WalkId in c.animations
    requires TableState(c, s) && DrawFitsTable(c, inp.draw)
    requires Ticks(c, s, inp, n) == m
    ensures TableState(c, m)
    ensures (DrawFitsState(c, m, inp.draw); Ticks(c, s, inp, n + 1) == Tick(c, m, inp).state)
    decreases n
  {
    TickKeepsTableState(c, s, inp);
    var t := Tick(c, s, inp).state;
    if n > 0 {
      assert Ticks(c, s, inp, n) == Ticks(c, t, inp, n - 1);
      TicksSplit(c, t, inp, n - 1, m);
      assert Ticks(c, s, inp, n + 1) == Ticks(c, t, inp, n);
    } else {
      assert s == m;
    }
  }

  // ---------------------------------------------------------------------------
  // Walking on open ground at a constant speed

  /** A constant horizontal speed and no vertical movement. */
  predicate Steady(a: Animation) {
    a.movement.startX == a.movement.endX && a.movement.startY == 0.0 && a.movement.endY == 0.0
  }

  /** The signed distance a steady animation covers in one tick: rightwards when flipped. */
  function Speed(s: State): real
    requires s.current.Some?
  {
    if s.isFlipped then s.current.value.movement.startX else -s.current.value.movement.startX
  }

  /** `k` displacements of `d`, one after the other. */
  function Repeat(d: real, k: nat): real {
    if k == 0 then 0.0 else Repeat(d, k - 1) + d
  }

  /** `k` displacements of `d` cover `k * d`. */
  lemma {:induction false} RepeatIsProduct(d: real, k: nat)
    ensures Repeat(d, k) == (k as real) * d
  {
    if k > 0 {
      RepeatIsProduct(d, k - 1);
      var m := (k - 1) as real;
      assert (m + 1.0) * d == m * d + d;
    }
  }

  /** `i` displacements of `d` followed by `j` more are `i + j` of them. */
  lemma {:induction false} RepeatAdd(d: real, i: nat, j: nat)
    ensures Repeat(d, i) + Repeat(d, j) == Repeat(d, i + j)
    decreases j
  {
    if j > 0 {
      RepeatAdd(d, i, j - 1);
      assert Repeat(d, i + j) == Repeat(d, i + j - 1) + d;
    }
  }

  /** On the ground, off every platform, at rest and playing a steady animation, with no platforms around. */
  predicate OnOpenGround(s: State, inp: TickInput) {
    && s.current.Some? && Steady(s.current.value)
    && s.y == 0.0 && s.velocityY == 0.0 && !s.isOnPlatform && !s.isDragging
    && inp.platforms == []
  }

  /**
   * The main screen, if there is one, leaves the next `k` steady ticks alone
   * but for the dwell timer: after each move the sheep is strictly between
   * the screen's side edges, it fits under the top, and a dwell timer that
   * already runs is not yet due.
   */
  predicate QuietScreen(c: Config, s: State, inp: TickInput, k: int) {
    && s.current.Some?
    && (inp.screen.Some? ==>
          && c.frameHeight < inp.screen.value.height
          && (s.isAtBottom ==> inp.now - s.timeAtBottom < BottomTeleportDelay)
          && forall j :: 1 <= j <= k ==> 0.0 < s.x + Repeat(Speed(s), j) < inp.screen.value.width - c.frameWidth)
  }

  /** The dwell timer of a sheep on the ground of a screen: started now unless it already runs. */
  function Dwell(s: State, inp: TickInput): State {
    if inp.screen.Some? && !s.isAtBottom then s.(isAtBottom := true, timeAtBottom := inp.now) else s
  }

  /** Where `k` steady ticks leave the sheep: `k` speeds further on, `k` steps later, the dwell timer running. */
  function Walked(s: State, inp: TickInput, k: nat): State
    requires s.current.Some?
  {
    if k == 0 then s else Dwell(s, inp).(x := s.x + Repeat(Speed(s), k), step := s.step + k)
  }

  lemma SteadyMoves(a: Animation, step: int)
    requires AnimationValid(a) && Steady(a) && step >= 0
    ensures MoveX(a, step) == a.movement.startX && MoveY(a, step) == 0.0
  {
  }

  /**
   * On the ground, off every platform and clear of the screen's edges and
   * top, the screen block only starts the dwell timer; an already running
   * timer that is not yet due is left alone.
   */
  lemma QuietScreenPhase(c: Config, m: State, inp: TickInput)
    requires m.y == 0.0 && !m.isOnPlatform
    requires inp.screen.Some? ==>
      && c.frameHeight < inp.screen.value.height
      && 0.0 < m.x < inp.screen.value.width - c.frameWidth
      && (m.isAtBottom ==> inp.now - m.timeAtBottom < BottomTeleportDelay)
    ensures ScreenPhase(c, m, inp.screen, inp.now, inp.teleportX) == Go(Dwell(m, inp))
  {
  }

  /** A quiet screen for `m` ticks is a quiet screen for fewer. */
  lemma QuietScreenFewer(c: Config, s: State, inp: TickInput, k: int, m: int)
    requires QuietScreen(c, s, inp, m) && k <= m
    ensures QuietScreen(c, s, inp, k)
  {
  }

  /** After `i` of `k` quiet steady ticks, the screen stays quiet for the remaining `k - i`. */
  lemma QuietScreenLater(c: Config, s: State, inp: TickInput, i: nat, k: int)
    requires QuietScreen(c, s, inp, k) && i <= k
    ensures QuietScreen(c, Walked(s, inp, i), inp, k - i)
  {
    var w := Walked(s, inp, i);
    assert Speed(w) == Speed(s);
    if inp.screen.Some? {
      forall j | 1 <= j <= k - i
        ensures 0.0 < w.x + Repeat(Speed(w), j) < inp.screen.value.width - c.frameWidth
      {
        RepeatAdd(Speed(s), i, j);
        assert 1 <= i + j <= k;
        assert w.x + Repeat(Speed(w), j) == s.x + Repeat(Speed(s), i + j);
      }
    }
  }

  /**
   * A tick of a steady animation on the ground and under a quiet screen moves
   * the sheep by its speed, runs the dwell timer, and then advances.
   */
  lemma SteadyTickState(c: Config, s: State, inp: TickInput)
    requires StateValid(s) && DrawInRange(s, inp.draw) && OnOpenGround(s, inp) && QuietScreen(c, s, inp, 1)
    ensures Tick(c, s, inp).state == Advance(c, Dwell(s, inp).(x := s.x + Speed(s)), s.current.value, inp.draw)
  {
    var a := s.current.value;
    var moved := s.(x := s.x + Speed(s));
    assert Scripted(s, a) == moved by {
      SteadyMoves(a, s.step);
      OnGroundScripted(s, a);
    }
    assert MovementPhase(c, s, a, inp) == Go(Dwell(moved, inp)) by {
      assert Repeat(Speed(s), 1) == Speed(s);
      OffPlatformMovement(c, s, a, inp);
      QuietScreenPhase(c, moved, inp);
    }
    TickOnOpenGround(c, s, inp);
    assert Dwell(moved, inp) == Dwell(s, inp).(x := s.x + Speed(s));
  }

  /**
   * Before its last step, a tick of a steady animation on the ground and
   * under a quiet screen moves the sheep by its speed, advances the step and
   * runs the dwell timer.
   */
  lemma SteadyTick(c: Config, s: State, inp: TickInput)
    requires StateValid(s) && DrawInRange(s, inp.draw) && OnOpenGround(s, inp) && QuietScreen(c, s, inp, 1)
    requires s.step + 1 < TotalSteps(s.current.value.sequence)
    ensures Tick(c, s, inp).state == Dwell(s, inp).(x := s.x + Speed(s), step := s.step + 1)
  {
    SteadyTickState(c, s, inp);
    AdvanceRules(c, Dwell(s, inp).(x := s.x + Speed(s)), s.current.value, inp.draw);
  }

  /** The first of `k` steady ticks, with the invariants it keeps. */
  lemma SteadyFirstTick(c: Config, s: State, inp: TickInput, k: nat)
    requires ConfigValid(c) && AnimationLoader.TransitionsClosed(c.animations) && WalkId in c.animations
    requires TableState(c, s) && DrawFitsTable(c, inp.draw) && OnOpenGround(s, inp) && QuietScreen(c, s, inp, k)
    requires 0 < k && s.step + k < TotalSteps(s.current.value.sequence)
    ensures var s1 := Walked(s, inp, 1);
      && TableState(c, s1) && OnOpenGround(s1, inp) && QuietScreen(c, s1, inp, k - 1)
      && Ticks(c, s, inp, k) == Ticks(c, s1, inp, k - 1)
  {
    TickKeepsTableState(c, s, inp);
    QuietScreenFewer(c, s, inp, 1, k);
    SteadyTick(c, s, inp);
    assert Repeat(Speed(s), 1) == Speed(s);
    QuietScreenLater(c, s, inp, 1, k);
  }

  /** One steady tick and then `k - 1` more are `k` of them. */
  lemma WalkedThenWalked(s: State, inp: TickInput, k: nat)
    requires s.current.Some? && k > 0
    ensures Walked(Walked(s, inp, 1), inp, k - 1) == Walked(s, inp, k)
  {
    var s1 := Walked(s, inp, 1);
    assert Repeat(Speed(s), 1) == Speed(s);
    if k > 1 {
      assert Dwell(s1, inp) == s1;
      assert Speed(s1) == Speed(s);
      assert Repeat(Speed(s), k) == Repeat(Speed(s), k - 1) + Speed(s);
    }
  }

  /**
   * `k` steady ticks under a quiet screen move the sheep `k` times its speed
   * and run the dwell timer, as long as the animation does not end.
   */
  lemma {:induction false} SteadyTicks(c: Config, s: State, inp: TickInput, k: nat)
    requires ConfigValid(c) && AnimationLoader.TransitionsClosed(c.animations) && WalkId in c.animations
    requires TableState(c, s) && DrawFitsTable(c, inp.draw) && OnOpenGround(s, inp) && QuietScreen(c, s, inp, k)
    requires s.step + k < TotalSteps(s.current.value.sequence)
    ensures Ticks(c, s, inp, k) == Walked(s, inp, k)
    decreases k
  {
    if k > 0 {
      SteadyFirstTick(c, s, inp, k);
      SteadyTicks(c, Walked(s, inp, 1), inp, k - 1);
      WalkedThenWalked(s, inp, k);
    }
  }

  /**
   * The last tick of a steady animation without an action moves the sheep by
   * the speed once more, runs the dwell timer and starts the animation the
   * draw chooses.
   */
  lemma SteadyLastTick(c: Config, s: State, inp: TickInput)
    requires StateValid(s) && DrawInRange(s, inp.draw) && OnOpenGround(s, inp) && QuietScreen(c, s, inp, 1)
    requires s.current.value.action.None? && s.current.value.transitions != []
    requires s.step + 1 == TotalSteps(s.current.value.sequence)
    ensures var a := s.current.value;
      var next := a.transitions[SelectedIndex(a.transitions, inp.draw)].nextAnimationId;
      Tick(c, s, inp).state == StartAnimation(c, Walked(s, inp, 1), next)
  {
    var d := Dwell(s, inp).(x := s.x + Speed(s));
    SteadyTickState(c, s, inp);
    LastAdvance(c, d, s.current.value, inp.draw);
    assert Repeat(Speed(s), 1) == Speed(s);
    assert Walked(s, inp, 1) == d.(step := s.step + 1);
  }

  /** The advance past the last step of an animation without an action starts the animation the draw chooses. */
  lemma LastAdvance(c: Config, m: State, a: Animation, draw: int)
    requires a.action.None? && a.transitions != [] && 0 <= draw < TotalWeight(a.transitions)
    requires m.step + 1 == TotalSteps(a.sequence)
    ensures Advance(c, m, a, draw) ==
      StartAnimation(c, m.(step := m.step + 1), a.transitions[SelectedIndex(a.transitions, draw)].nextAnimationId)
  {
  }

  /** One more steady tick after `k` of them is `k + 1` of them. */
  lemma WalkedOneMore(s: State, inp: TickInput, k: nat)
    requires s.current.Some?
    ensures Walked(Walked(s, inp, k), inp, 1) == Walked(s, inp, k + 1)
  {
    WalkedDwell(s, inp, k);
    assert Repeat(Speed(s), 1) == Speed(s);
    assert Repeat(Speed(s), k + 1) == Repeat(Speed(s), k) + Speed(s);
  }

  /** After `k` steady ticks the dwell timer runs and the speed is the same. */
  lemma WalkedDwell(s: State, inp: TickInput, k: nat)
    requires s.current.Some?
    ensures var w := Walked(s, inp, k);
      && Speed(w) == Speed(s) && w.x == s.x + Repeat(Speed(s), k)
      && Dwell(w, inp) == Dwell(s, inp).(x := w.x, step := w.step)
  {
    if k > 0 {
      DwellAgain(Dwell(s, inp), inp);
    }
  }

  /** The dwell timer, once running, stays as it is. */
  lemma DwellAgain(d: State, inp: TickInput)
    requires inp.screen.Some? ==> d.isAtBottom
    ensures forall x: real, step: int :: Dwell(d.(x := x, step := step), inp) == d.(x := x, step := step)
  {
  }

  /**
   * The last tick of a pass of `n` steps from `s`, when the id the draw
   * chooses is in the table: it covers the last step and starts that animation.
   */
  lemma LastTickOfPass(c: Config, s: State, inp: TickInput, n: nat, next: string)
    requires StateValid(s) && DrawInRange(s, inp.draw) && OnOpenGround(s, inp) && QuietScreen(c, s, inp, n)
    requires s.current.value.action.None? && s.current.value.transitions != []
    requires s.step == 0 && n == TotalSteps(s.current.value.sequence)
    requires next == s.current.value.transitions[SelectedIndex(s.current.value.transitions, inp.draw)].nextAnimationId
    requires next in c.animations
    ensures n > 0
    ensures Tick(c, Walked(s, inp, n - 1), inp).state ==
      Dwell(s, inp).(x := s.x + Repeat(Speed(s), n), current := Some(c.animations[next]), step := 0)
  {
    TotalStepsAtLeastFrames(s.current.value.sequence);
    var last := Walked(s, inp, n - 1);
    assert Tick(c, last, inp).state == StartAnimation(c, Walked(s, inp, n), next) by {
      QuietScreenLater(c, s, inp, n - 1, n);
      SteadyLastTick(c, last, inp);
      WalkedOneMore(s, inp, n - 1);
    }
    StartAfterWalk(c, s, inp, n, next);
  }

  /** Starting a table animation after `n` steady ticks. */
  lemma StartAfterWalk(c: Config, s: State, inp: TickInput, n: nat, next: string)
    requires s.current.Some? && n > 0 && next in c.animations
    ensures StartAnimation(c, Walked(s, inp, n), next) ==
      Dwell(s, inp).(x := s.x + Repeat(Speed(s), n), current := Some(c.animations[next]), step := 0)
  {
  }

  /** The first `n - 1` ticks of a pass of `n` steps are steady ones. */
  lemma TicksToLast(c: Config, s: State, inp: TickInput, n: nat)
    requires ConfigValid(c) && AnimationLoader.TransitionsClosed(c.animations) && WalkId in c.animations
    requires TableState(c, s) && DrawFitsTable(c, inp.draw) && OnOpenGround(s, inp) && QuietScreen(c, s, inp, n)
    requires s.step == 0 && n == TotalSteps(s.current.value.sequence)
    ensures n > 0
    ensures var last := Walked(s, inp, n - 1);
      TableState(c, last) && Ticks(c, s, inp, n) == Tick(c, last, inp).state
  {
    TotalStepsAtLeastFrames(s.current.value.sequence);
    QuietScreenFewer(c, s, inp, n - 1, n);
    SteadyTicks(c, s, inp, n - 1);
    TicksSplit(c, s, inp, n - 1, Walked(s, inp, n - 1));
  }

  /** A pass of `n` steps is `n - 1` steady ticks and the last one. */
  lemma SteadyUntilLast(c: Config, s: State, inp: TickInput, n: nat, next: string)
    requires ConfigValid(c) && AnimationLoader.TransitionsClosed(c.animations) && WalkId in c.animations
    requires TableState(c, s) && DrawFitsTable(c, inp.draw) && OnOpenGround(s, inp) && QuietScreen(c, s, inp, n)
    requires s.step == 0 && n == TotalSteps(s.current.value.sequence)
    requires s.current.value.action.None? && s.current.value.transitions != [] && DrawInRange(s, inp.draw)
    requires next == s.current.value.transitions[SelectedIndex(s.current.value.transitions, inp.draw)].nextAnimationId
    requires next in c.animations
    ensures Ticks(c, s, inp, n) ==
      Dwell(s, inp).(x := s.x + Repeat(Speed(s), n), current := Some(c.animations[next]), step := 0)
  {
    TicksToLast(c, s, inp, n);
    LastTickOfPass(c, s, inp, n, next);
  }

  /**
   * A whole pass of a steady animation from step 0 under a quiet screen:
   * after as many ticks as it has steps, the sheep has moved that many times
   * its speed, the dwell timer runs, and the animation the draw chooses starts.
   */
  lemma SteadyPass(c: Config, s: State, inp: TickInput)
    requires ConfigValid(c) && AnimationLoader.TransitionsClosed(c.animations) && WalkId in c.animations
    requires TableState(c, s) && DrawFitsTable(c, inp.draw) && OnOpenGround(s, inp)
    requires s.step == 0 && s.current.value.action.None? && s.current.value.transitions != []
    requires QuietScreen(c, s, inp, TotalSteps(s.current.value.sequence))
    ensures (DrawFitsState(c, s, inp.draw);
      var a := s.current.value;
      var n := TotalSteps(a.sequence);
      var next := a.transitions[SelectedIndex(a.transitions, inp.draw)].nextAnimationId;
      next in c.animations &&
      Ticks(c, s, inp, n) == Dwell(s, inp).(x := s.x + Repeat(Speed(s), n), current := Some(c.animations[next]), step := 0))
  {
    DrawFitsState(c, s, inp.draw);
    var a := s.current.value;
    var next := a.transitions[SelectedIndex(a.transitions, inp.draw)].nextAnimationId;
    var k :| k in c.animations && c.animations[k] == a;
    assert a.transitions[SelectedIndex(a.transitions, inp.draw)] in c.animations[k].transitions;
    SteadyUntilLast(c, s, inp, TotalSteps(a.sequence), next);
  }

  // ---------------------------------------------------------------------------
  // Gravity, landing and the ground

  /** Standing on a platform: it becomes the current platform and the sheep stops falling. */
  lemma SupportedSheep(c: Config, s: State, a: Animation, ps: seq<Rect>)
    requires PlatformUnderSheep(ps, SheepFrame(c, s)).Some?
    ensures var i := PlatformUnderSheep(ps, SheepFrame(c, s)).value;
      Vertical(c, s, a, ps) == Go(s.(isOnPlatform := true, currentPlatform := Some(ps[i]), velocityY := 0.0))
  {
  }

  /** Gravity: the speed grows by 0.5 per tick up to 10, and the ground clamps height and speed to 0. */
  lemma FallingWithoutLanding(c: Config, s: State, a: Animation, ps: seq<Rect>)
    requires PlatformUnderSheep(ps, SheepFrame(c, s)).None?
    requires var t := NearestBelow(ps, FootPoint(c, s), DefaultMaxDistance, |ps|);
      t.None? || s.y + Max(s.velocityY - Gravity, -MaxFallSpeed) > Top(ps[t.value])
    requires NearestBelow(ps, FootPoint(c, s), DefaultMaxDistance, |ps|).Some? || s.y > 0.0
    ensures var v := Max(s.velocityY - Gravity, -MaxFallSpeed);
      var r := Vertical(c, s, a, ps);
      && r.Go?
      && r.state.y >= 0.0
      && (s.y + v <= 0.0 ==> r.state.y == 0.0 && r.state.velocityY == 0.0 && !r.state.isOnPlatform)
      && (s.y + v > 0.0 ==> r.state.y == s.y + v && r.state.velocityY == v && -MaxFallSpeed <= v)
      && r.state.x == s.x && r.state.current == s.current && r.state.step == s.step
  {
  }

  /**
   * Landing: however far the fall would overshoot, the sheep snaps onto the
   * platform's top with speed 0. Landing while the animation is named "fall"
   * starts "0" and ends the tick; otherwise a platform at or under the ground
   * still gives way to the ground clamp.
   */
  lemma Landing(c: Config, s: State, a: Animation, ps: seq<Rect>)
    requires PlatformUnderSheep(ps, SheepFrame(c, s)).None?
    requires var t := NearestBelow(ps, FootPoint(c, s), DefaultMaxDistance, |ps|);
      t.Some? && s.y + Max(s.velocityY - Gravity, -MaxFallSpeed) <= Top(ps[t.value])
    ensures var t := NearestBelow(ps, FootPoint(c, s), DefaultMaxDistance, |ps|).value;
      var r := Vertical(c, s, a, ps);
      && r.state.x == s.x
      && (r.Stop? <==> a.name == FallName)
      && (r.Stop? || Top(ps[t]) > 0.0 ==>
            r.state.y == Top(ps[t]) && r.state.velocityY == 0.0 && r.state.isOnPlatform &&
            r.state.currentPlatform == Some(ps[t]))
      && (r.Go? && Top(ps[t]) <= 0.0 ==> r.state.y == 0.0 && r.state.velocityY == 0.0 && !r.state.isOnPlatform)
      && (r.Stop? && WalkId in c.animations ==> r.state.current == Some(c.animations[WalkId]) && r.state.step == 0)
      && (r.Go? ==> r.state.current == s.current && r.state.step == s.step)
  {
  }

  /**
   * Gravity never leaves the sheep under the ground, except when a falling
   * sheep lands on a platform whose top is under the ground: the tick ends
   * before the ground check.
   */
  lemma GravityNeverBelowGround(c: Config, s: State, a: Animation, ps: seq<Rect>)
    requires PlatformUnderSheep(ps, SheepFrame(c, s)).None?
    requires NearestBelow(ps, FootPoint(c, s), DefaultMaxDistance, |ps|).Some? || s.y > 0.0
    ensures var r := Vertical(c, s, a, ps);
      r.state.y >= 0.0 || (r.Stop? && exists p :: p in ps && r.state.y == Top(p))
  {
    var r := Vertical(c, s, a, ps);
    var t := NearestBelow(ps, FootPoint(c, s), DefaultMaxDistance, |ps|);
    if r.Stop? {
      assert ps[t.value] in ps;
    }
  }

  /** A falling sheep that lands ends its tick at the platform's top, playing "0" from step 0. */
  lemma LandingEndsFallingTick(c: Config, s: State, inp: TickInput)
    requires StateValid(s) && DrawInRange(s, inp.draw)
    requires s.current.Some? && s.current.value.name == FallName && !s.isDragging
    requires WalkId in c.animations
    requires PlatformUnderSheep(inp.platforms, SheepFrame(c, s)).None?
    requires var t := NearestBelow(inp.platforms, FootPoint(c, s), DefaultMaxDistance, |inp.platforms|);
      t.Some? && s.y + Max(s.velocityY - Gravity, -MaxFallSpeed) <= Top(inp.platforms[t.value])
    ensures var t := NearestBelow(inp.platforms, FootPoint(c, s), DefaultMaxDistance, |inp.platforms|).value;
      var r := Tick(c, s, inp).state;
      && r.y == Top(inp.platforms[t]) && r.x == s.x && r.velocityY == 0.0
      && r.isOnPlatform && r.currentPlatform == Some(inp.platforms[t])
      && r.current == Some(c.animations[WalkId]) && r.step == 0
  {
    Landing(c, s, s.current.value, inp.platforms);
  }

  // ---------------------------------------------------------------------------
  // Scripted movement and step advance

  /**
   * On open ground (no platforms, not falling) gravity leaves the sheep
   * alone: a tick is the movement block, then the step advance unless that
   * block ends the tick.
   */
  lemma TickOnOpenGround(c: Config, s: State, inp: TickInput)
    requires StateValid(s) && DrawInRange(s, inp.draw)
    requires s.current.Some? && !s.isDragging
    requires inp.platforms == []
    requires s.y <= 0.0 && s.velocityY == 0.0 && !s.isOnPlatform
    ensures var a := s.current.value;
      var m := MovementPhase(c, s, a, inp);
      Tick(c, s, inp).state == if m.Stop? then m.state else Advance(c, m.state, a, inp.draw)
  {
    OpenGroundVertical(c, s, s.current.value);
  }

  /** Without a main screen, a tick on open ground is the scripted move, right when flipped and left otherwise, and the advance. */
  lemma TickWithoutScreen(c: Config, s: State, inp: TickInput)
    requires StateValid(s) && DrawInRange(s, inp.draw)
    requires s.current.Some? && !s.isDragging
    requires inp.platforms == [] && inp.screen.None?
    requires s.y <= 0.0 && s.velocityY == 0.0 && !s.isOnPlatform
    ensures var a := s.current.value;
      var dx := if s.isFlipped then MoveX(a, s.step) else -MoveX(a, s.step);
      Tick(c, s, inp).state == Advance(c, s.(x := s.x + dx, y := s.y + MoveY(a, s.step)), a, inp.draw)
  {
    var a := s.current.value;
    TickOnOpenGround(c, s, inp);
    OnGroundScripted(s, a);
    OffPlatformMovement(c, s, a, inp);
  }

  /** On the ground and off every platform, the scripted move shifts the sheep by both offsets. */
  lemma OnGroundScripted(s: State, a: Animation)
    requires AnimationValid(a) && s.y <= 0.0 && !s.isOnPlatform
    ensures var dx := if s.isFlipped then MoveX(a, s.step) else -MoveX(a, s.step);
      Scripted(s, a) == s.(x := s.x + dx, y := s.y + MoveY(a, s.step))
  {
  }

  /** No platforms and on the ground: the gravity block leaves the sheep as it is. */
  lemma OpenGroundVertical(c: Config, s: State, a: Animation)
    requires s.y <= 0.0
    ensures Vertical(c, s, a, []) == Go(s)
  {
    assert PlatformUnderSheep([], SheepFrame(c, s)).None?;
    assert NearestBelow([], FootPoint(c, s), DefaultMaxDistance, 0).None?;
  }

  /** Off every platform and at rest: scripted movement, then the screen block. */
  lemma OffPlatformMovement(c: Config, s: State, a: Animation, inp: TickInput)
    requires AnimationValid(a) && s.velocityY == 0.0 && !s.isOnPlatform
    ensures MovementPhase(c, s, a, inp) == ScreenPhase(c, Scripted(s, a), inp.screen, inp.now, inp.teleportX)
  {
  }

  /** The step advances by one; at the end the action runs and the chosen animation starts. */
  lemma AdvanceRules(c: Config, s: State, a: Animation, draw: int)
    requires a.transitions != [] ==> 0 <= draw < TotalWeight(a.transitions)
    ensures s.step + 1 < TotalSteps(a.sequence) ==> Advance(c, s, a, draw) == s.(step := s.step + 1)
    ensures s.step + 1 >= TotalSteps(a.sequence) ==>
      var id := if a.transitions == [] then WalkId else a.transitions[SelectedIndex(a.transitions, draw)].nextAnimationId;
      var r := Advance(c, s, a, draw);
      && (r.isFlipped <==> (s.isFlipped != (a.action == Some(FlipAction))))
      && (id in c.animations ==> r.current == Some(c.animations[id]) && r.step == 0)
      && (id !in c.animations ==> r.current == s.current && r.step == s.step + 1)
      && r.x == s.x && r.y == s.y
  {
  }

  // ---------------------------------------------------------------------------
  // Platform edges

  /** Reaching the 20-unit edge zone with neither flag set: confused now, and the tick ends. */
  lemma EnterPlatformEdgeConfusion(c: Config, s: State, p: Rect, now: real, jump: bool)
    requires var center := s.x + c.frameWidth / 2.0;
      center < p.MinX() + EdgeThreshold || center > p.MaxX() - EdgeThreshold
    requires !s.isAtEdge && !s.isConfused
    ensures PlatformEdge(c, s, p, now, jump) ==
      Stop(s.(isAtEdge := true, isConfused := true, confusedStartTime := now))
  {
  }

  /** Confused for less than 2 seconds: the tick ends with nothing but the edge flag changed. */
  lemma ConfusionWaits(c: Config, s: State, p: Rect, now: real, jump: bool)
    requires s.isConfused && now - s.confusedStartTime < ConfusedDuration
    ensures var r := PlatformEdge(c, s, p, now, jump);
      r.Stop? && r.state.(isAtEdge := s.isAtEdge) == s
  {
  }

  /**
   * After 2 seconds of confusion the coin decides, with no third outcome:
   * heads jumps off with speed -1 playing "3"; tails turns round, unless the
   * centre is already more than 5 units past an edge, which forces a fall with
   * speed 0.
   */
  lemma ConfusionDecides(c: Config, s: State, p: Rect, now: real, jump: bool)
    requires s.isConfused && now - s.confusedStartTime >= ConfusedDuration
    ensures var r := PlatformEdge(c, s, p, now, jump);
      var calm := s.(isConfused := false, isAtEdge := false);
      && (jump ==> r == Stop(StartFalling(c, calm, -1.0)))
      && (!jump ==> r == Go(Flip(calm)) || r == Stop(StartFalling(c, Flip(calm), 0.0)))
      && !r.state.isConfused && !r.state.isAtEdge
  {
  }

  /** Past an edge by more than 5 units, not confused and already flagged at the edge: a forced fall. */
  lemma WalkingOffForcesFall(c: Config, s: State, p: Rect, now: real, jump: bool)
    requires var center := s.x + c.frameWidth / 2.0;
      center < p.MinX() - WalkOffDistance || center > p.MaxX() + WalkOffDistance
    requires s.isAtEdge && !s.isConfused
    ensures var r := PlatformEdge(c, s, p, now, jump);
      && r == Stop(StartFalling(c, s.(isAtEdge := false), 0.0))
      && !r.state.isOnPlatform && r.state.currentPlatform.None? && r.state.velocityY == 0.0
      && (FallId in c.animations ==> r.state.current == Some(c.animations[FallId]) && r.state.step == 0)
  {
  }

  /**
   * A sheep standing on a platform and confused for less than 2 seconds keeps
   * its step and animation: the tick ends early. Its position, though, still
   * moves by the scripted displacement, because the source moves the sheep
   * before it looks at the confusion.
   */
  lemma ConfusedSheepKeepsStepButMoves(c: Config, s: State, inp: TickInput)
    requires StateValid(s) && DrawInRange(s, inp.draw)
    requires s.current.Some? && !s.isDragging
    requires PlatformUnderSheep(inp.platforms, SheepFrame(c, s)).Some?
    requires s.isConfused && inp.now - s.confusedStartTime < ConfusedDuration
    ensures var a := s.current.value;
      var r := Tick(c, s, inp).state;
      && r.step == s.step && r.current == s.current && r.isConfused && r.isOnPlatform
      && r.velocityY == 0.0
      && r.x == (if s.isFlipped then s.x + MoveX(a, s.step) else s.x - MoveX(a, s.step))
      && r.y == s.y + MoveY(a, s.step)
  {
  }

  // ---------------------------------------------------------------------------
  // Screen edges, height cap and bottom dwell

  /** At a horizontal screen edge with neither flag set: confused now, and the tick ends. */
  lemma EnterScreenEdgeConfusion(c: Config, s: State, width: real, now: real)
    requires s.x <= 0.0 || s.x >= width - c.frameWidth
    requires !s.isConfused && !s.isAtEdge
    ensures ScreenEdge(c, s, width, now) == Stop(s.(isAtEdge := true, isConfused := true, confusedStartTime := now))
  {
  }

  /** Flagged at the edge and not confused: the sheep turns round and is put back inside the screen. */
  lemma ScreenEdgeTurnsAndClamps(c: Config, s: State, width: real, now: real)
    requires s.x <= 0.0 || s.x >= width - c.frameWidth
    requires !s.isConfused && s.isAtEdge
    requires width >= c.frameWidth
    ensures var r := ScreenEdge(c, s, width, now);
      r.Go? && r.state.isFlipped == !s.isFlipped && 0.0 <= r.state.x <= width - c.frameWidth
      && r.state.(isFlipped := s.isFlipped, x := s.x) == s
  {
  }

  /** The screen-edge block reads the clock only to enter a confusion; a confused sheep is left as is. */
  lemma ScreenEdgeIgnoresClock(c: Config, s: State, width: real, now1: real, now2: real)
    requires s.isConfused || s.isAtEdge
    ensures ScreenEdge(c, s, width, now1) == ScreenEdge(c, s, width, now2)
    ensures s.isConfused ==> ScreenEdge(c, s, width, now1) == Go(s)
  {
  }

  /** The height is capped at the top of the screen. */
  lemma HeightIsCapped(c: Config, s: State, height: real)
    ensures CapHeight(c, s, height).y <= height - c.frameHeight
    ensures CapHeight(c, s, height).y == Min(s.y, height - c.frameHeight)
    ensures CapHeight(c, s, height).(y := s.y) == s
  {
  }

  /**
   * Bottom dwell: the first tick low down off any platform starts the timer;
   * after 30 seconds or more the sheep is moved to 80% of the screen height
   * with speed 0 and the timer is reset; above 50 units the timer is cleared.
   */
  lemma BottomDwellRules(s: State, height: real, now: real, teleportX: real)
    ensures var r := BottomDwell(s, height, now, teleportX);
      && (s.y <= BottomThreshold && !s.isOnPlatform && !s.isAtBottom ==>
            r == s.(isAtBottom := true, timeAtBottom := now))
      && (s.y <= BottomThreshold && !s.isOnPlatform && s.isAtBottom && now - s.timeAtBottom >= BottomTeleportDelay ==>
            r.y == TeleportHeightFraction * height && r.x == teleportX && r.velocityY == 0.0 && !r.isAtBottom)
      && (s.y <= BottomThreshold && !s.isOnPlatform && s.isAtBottom && now - s.timeAtBottom < BottomTeleportDelay ==>
            r == s)
      && (s.y > BottomThreshold ==> r == s.(isAtBottom := false))
  {
  }

  /**
   * On the ground and off every platform, a confusion is never resolved,
   * whatever the clock says: only the platform-edge block times confusion out.
   */
  lemma GroundConfusionNeverTimesOut(c: Config, s: State, inp: TickInput)
    requires StateValid(s) && DrawInRange(s, inp.draw)
    requires s.current.Some? && !s.isDragging
    requires inp.platforms == [] && s.y <= 0.0 && !s.isOnPlatform
    requires s.isConfused
    ensures Tick(c, s, inp).state.isConfused
  {
    var a := s.current.value;
    OpenGroundVertical(c, s, a);
    if s.velocityY == 0.0 {
      OffPlatformMovement(c, s, a, inp);
      ScreenPhaseKeepsConfusion(c, Scripted(s, a), inp.screen, inp.now, inp.teleportX);
    }
  }

  /** The screen block never clears a confusion. */
  lemma ScreenPhaseKeepsConfusion(c: Config, s: State, screen: Option<Screen>, now: real, teleportX: real)
    requires s.isConfused
    ensures ScreenPhase(c, s, screen, now, teleportX).state.isConfused
  {
  }

  // ---------------------------------------------------------------------------
  // Dragging

  /** The sheep's centre follows the pointer while dragging. */
  lemma DraggingFollowsPointer(c: Config, s: State, pointer: Point)
    requires s.isDragging
    ensures var r := MouseDragged(c, s, pointer);
      r.x + c.frameWidth / 2.0 == pointer.x && r.y + c.frameHeight / 2.0 == pointer.y
      && r.(x := s.x, y := s.y) == s
    ensures !MouseDragged(c, s.(isDragging := false), pointer).isDragging ==>
      MouseDragged(c, s.(isDragging := false), pointer) == s.(isDragging := false)
  {
  }

  /** A pressed sheep ignores ticks until released. */
  lemma PressedSheepIgnoresTicks(c: Config, s: State, inp: TickInput)
    requires StateValid(s) && DrawInRange(s, inp.draw) && s.current.Some?
    ensures Tick(c, MouseDown(s), inp) == TickResult(MouseDown(s), Some(DragFrame))
  {
  }

  /**
   * Release: speed 0, and "0" on a platform under the sheep (which becomes the
   * current platform), "3" above the ground, "0" on the ground.
   */
  lemma ReleaseChoosesAnimation(c: Config, s: State, ps: seq<Rect>)
    ensures var r := MouseUp(c, s, ps);
      var under := PlatformUnderSheep(ps, SheepFrame(c, s));
      var id := if under.Some? then WalkId else if s.y > 0.0 then FallId else WalkId;
      && !r.isDragging && r.velocityY == 0.0 && r.x == s.x && r.y == s.y
      && (r.isOnPlatform <==> under.Some?)
      && (under.Some? ==> r.currentPlatform == Some(ps[under.value]))
      && (under.None? ==> r.currentPlatform.None?)
      && (id in c.animations ==> r.current == Some(c.animations[id]) && r.step == 0)
      && (id !in c.animations ==> r.current == s.current && r.step == s.step)
  {
    assert SheepFrame(c, s.(isDragging := false, velocityY := 0.0)) == SheepFrame(c, s);
  }
}
