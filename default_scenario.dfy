/**
 * The default animation table at work: a sheep walking on open ground with
 * the built-in "walk" animation.
 */
module DefaultScenario {
  import opened Wrappers
  import opened Animations
  import opened Platforms
  import opened SheepModel
  import opened SheepProperties
  import opened AnimationLoader

  /** The sheep configured with the built-in table. */
  function DefaultConfig(frameWidth: Extent, frameHeight: Extent): Config {
    Config(DefaultAnimations(), frameWidth, frameHeight)
  }

  /** The built-in table satisfies every assumption of the table invariant. */
  lemma DefaultConfigReady(frameWidth: Extent, frameHeight: Extent, draw: int)
    requires 0 <= draw < 100
    ensures var c := DefaultConfig(frameWidth, frameHeight);
      ConfigValid(c) && TransitionsClosed(c.animations) && WalkId in c.animations && DrawFitsTable(c, draw)
  {
    DefaultTableValid();
    DefaultTableWeights();
  }

  /** A sheep on the ground with no platforms around, starting "walk". */
  predicate StartsWalking(s: State, inp: TickInput) {
    OnOpenGround(s, inp) && s.current == Some(Walk()) && s.step == 0 && 0 <= inp.draw < 100
  }

  /** "walk" is runnable, steady at 3 units a step, 16 steps long, and its weights sum to 100. */
  lemma WalkReady()
    ensures AnimationValid(Walk()) && Steady(Walk()) && Walk().movement.startX == 3.0
    ensures TotalSteps(Walk().sequence) == 16 && TotalWeight(Walk().transitions) == 100
  {
    DefaultTableValid();
    DefaultTableWeights();
    DefaultTotalSteps();
    assert DefaultAnimations()["0"] == Walk();
  }

  /** The draw that chooses each transition of "walk". */
  lemma WalkSelection(draw: int)
    requires 0 <= draw < 100
    ensures (WalkReady();
      var next := Walk().transitions[SelectedIndex(Walk().transitions, draw)].nextAnimationId;
      next == (if draw < 50 then "0" else if draw < 80 then "1" else "2"))
  {
    WalkReady();
    var ts := Walk().transitions;
    PrefixWeightStep(ts, 0);
    PrefixWeightStep(ts, 1);
    PrefixWeightStep(ts, 2);
    assert ts[..0] == [];
    assert RunningWeight(ts, 0) == 50 && RunningWeight(ts, 1) == 80 && RunningWeight(ts, 2) == 100;
  }

  /** The distances "walk" covers: 3 units a tick, in the direction the sheep faces. */
  lemma WalkDistances(s: State)
    requires s.current == Some(Walk())
    ensures var dir := if s.isFlipped then 1.0 else -1.0;
      Speed(s) == 3.0 * dir && Repeat(Speed(s), 8) == 24.0 * dir && Repeat(Speed(s), 16) == 48.0 * dir
  {
    RepeatIsProduct(Speed(s), 8);
    RepeatIsProduct(Speed(s), 16);
    if s.isFlipped {
      assert Speed(s) == 3.0;
    } else {
      assert Speed(s) == -3.0;
    }
  }

  /**
   * Without a main screen, always; with one, the sheep fits under its top, a
   * running dwell timer is not yet due, and `k` steps of "walk" keep the
   * sheep strictly between the side edges.
   */
  predicate RoomToWalk(fw: Extent, fh: Extent, s: State, inp: TickInput, k: nat) {
    inp.screen.Some? ==>
      var w := inp.screen.value.width - fw;
      && fh < inp.screen.value.height
      && (s.isAtBottom ==> inp.now - s.timeAtBottom < BottomTeleportDelay)
      && (if s.isFlipped then 0.0 < s.x + 3.0 && s.x + 3.0 * (k as real) < w
          else 0.0 < s.x - 3.0 * (k as real) && s.x - 3.0 < w)
  }

  /** Room for `k` steps of "walk" is a quiet screen for `k` ticks. */
  lemma WalkRoom(fw: Extent, fh: Extent, s: State, inp: TickInput, k: nat)
    requires s.current == Some(Walk()) && RoomToWalk(fw, fh, s, inp, k)
    ensures QuietScreen(DefaultConfig(fw, fh), s, inp, k)
  {
    WalkReady();
    if inp.screen.Some? {
      var w := inp.screen.value.width - fw;
      forall j | 1 <= j <= k
        ensures 0.0 < s.x + Repeat(Speed(s), j) < w
      {
        RepeatIsProduct(Speed(s), j);
        var r := j as real;
        assert 1.0 <= r <= k as real;
        if s.isFlipped {
          assert Repeat(Speed(s), j) == 3.0 * r;
        } else {
          assert Repeat(Speed(s), j) == -3.0 * r;
        }
      }
    }
  }

  /**
   * Halfway through "walk", after 8 ticks, the sheep has walked 24 units and
   * shows step 8; on a main screen the dwell timer runs.
   */
  lemma WalkHalfway(fw: Extent, fh: Extent, s: State, inp: TickInput)
    requires StartsWalking(s, inp) && RoomToWalk(fw, fh, s, inp, 8)
    ensures (DefaultConfigReady(fw, fh, inp.draw); WalkReady();
      var dir := if s.isFlipped then 1.0 else -1.0;
      Ticks(DefaultConfig(fw, fh), s, inp, 8) == Dwell(s, inp).(x := s.x + 24.0 * dir, step := 8))
  {
    DefaultConfigReady(fw, fh, inp.draw);
    WalkReady();
    assert DefaultAnimations()["0"] == Walk();
    assert TableState(DefaultConfig(fw, fh), s);
    WalkDistances(s);
    WalkRoom(fw, fh, s, inp, 8);
    SteadyTicks(DefaultConfig(fw, fh), s, inp, 8);
  }

  /**
   * A whole pass of "walk" from step 0: the repeat count of 1 gives 16 steps,
   * so after 16 ticks the sheep has walked 48 units and starts the animation
   * the draw chooses: "0" for draws below 50, "1" below 80, "2" otherwise.
   * On a main screen the dwell timer runs.
   */
  lemma WalkPass(fw: Extent, fh: Extent, s: State, inp: TickInput)
    requires StartsWalking(s, inp) && RoomToWalk(fw, fh, s, inp, 16)
    ensures (DefaultConfigReady(fw, fh, inp.draw); WalkReady();
      var next := if inp.draw < 50 then "0" else if inp.draw < 80 then "1" else "2";
      var dir := if s.isFlipped then 1.0 else -1.0;
      Ticks(DefaultConfig(fw, fh), s, inp, 16) ==
        Dwell(s, inp).(x := s.x + 48.0 * dir, current := Some(DefaultAnimations()[next]), step := 0))
  {
    var c := DefaultConfig(fw, fh);
    DefaultConfigReady(fw, fh, inp.draw);
    WalkReady();
    assert DefaultAnimations()["0"] == Walk();
    assert TableState(c, s);
    WalkDistances(s);
    WalkRoom(fw, fh, s, inp, 16);
    SteadyPass(c, s, inp);
    WalkSelection(inp.draw);
  }
}
