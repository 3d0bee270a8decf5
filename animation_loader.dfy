/**
 * The built-in fallback animation table of `loadDefaultAnimations`
 * (esheep/ESheepAnimationLoader.swift). XML parsing and sprite decoding are not
 * part of this model.
 */
module AnimationLoader {
  import opened Wrappers
  import opened Animations

  /** The sprite atlas grid `loadDefaultAnimations` resets to before looking for a sprite. */
  const DefaultTilesX: int := 16
  const DefaultTilesY: int := 11

  function Walk(): Animation {
    Animation("0", "walk", AnimationSequence([0, 1, 2, 3, 4, 5, 6, 7], 1, 0),
              Movement(3.0, 0.0, 3.0, 0.0, 0.2, 0.2),
              [Transition("0", 50), Transition("1", 30), Transition("2", 20)],
              None, false, true)
  }

  function Run(): Animation {
    Animation("1", "run", AnimationSequence([8, 9, 10, 11, 12, 13], 2, 0),
              Movement(5.0, 0.0, 5.0, 0.0, 0.1, 0.1),
              [Transition("0", 40), Transition("1", 30), Transition("2", 30)],
              None, false, true)
  }

  function Idle(): Animation {
    Animation("2", "idle", AnimationSequence([24, 25, 24, 25, 26, 27, 28, 29], 1, 4),
              Movement(0.0, 0.0, 0.0, 0.0, 0.5, 0.5),
              [Transition("0", 60), Transition("1", 20), Transition("3", 20)],
              None, false, false)
  }

  function Fall(): Animation {
    Animation("3", "fall", AnimationSequence([34, 35], 5, 0),
              Movement(0.0, 3.0, 0.0, 5.0, 0.1, 0.1),
              [Transition("0", 100)],
              None, true, true)
  }

  /** The table keyed by animation id. */
  function DefaultAnimations(): map<string, Animation> {
    map["0" := Walk(), "1" := Run(), "2" := Idle(), "3" := Fall()]
  }

  /** Every transition of every animation in `m` leads to an animation of `m`. */
  predicate TransitionsClosed(m: map<string, Animation>) {
    forall k, t :: k in m && t in m[k].transitions ==> t.nextAnimationId in m
  }

  /** Every animation is stored under its own id. */
  predicate KeyedById(m: map<string, Animation>) {
    forall k :: k in m ==> m[k].id == k
  }

  /** The default table holds exactly the ids "0" to "3", each under its own id. */
  lemma DefaultTableKeys()
    ensures DefaultAnimations().Keys == {"0", "1", "2", "3"}
    ensures KeyedById(DefaultAnimations())
  {
  }

  /** The weights of three transitions add up left to right. */
  lemma TotalWeightOfThree(a: Transition, b: Transition, c: Transition)
    ensures TotalWeight([a, b, c]) == a.probability + b.probability + c.probability
  {
    assert [a, b, c][..2] == [a, b];
    assert [a, b][..1] == [a];
    assert [a][..0] == [];
    assert TotalWeight([a]) == a.probability;
    assert TotalWeight([a, b]) == a.probability + b.probability;
  }

  /** Every weight is positive and each animation's weights sum to 100. */
  lemma DefaultTableWeights()
    ensures forall k, t :: k in DefaultAnimations() && t in DefaultAnimations()[k].transitions ==> t.probability > 0
    ensures forall k :: k in DefaultAnimations() ==> TotalWeight(DefaultAnimations()[k].transitions) == 100
  {
    TotalWeightOfThree(Transition("0", 50), Transition("1", 30), Transition("2", 20));
    TotalWeightOfThree(Transition("0", 40), Transition("1", 30), Transition("2", 30));
    TotalWeightOfThree(Transition("0", 60), Transition("1", 20), Transition("3", 20));
    assert [Transition("0", 100)][..0] == [];
  }

  /** The transition graph of the default table is closed and every animation can run. */
  lemma DefaultTableValid()
    ensures TransitionsClosed(DefaultAnimations())
    ensures forall k :: k in DefaultAnimations() ==> AnimationValid(DefaultAnimations()[k])
  {
    var m := DefaultAnimations();
    DefaultTableWeights();
    assert AnimationValid(m["0"]) && AnimationValid(m["1"]) && AnimationValid(m["2"]) && AnimationValid(m["3"]);
    forall k, t | k in m && t in m[k].transitions
      ensures t.nextAnimationId in m
    {
      assert k == "0" || k == "1" || k == "2" || k == "3";
    }
  }

  /** The step counts: walk 16, run 18, idle 12, fall 12. */
  lemma DefaultTotalSteps()
    ensures TotalSteps(Walk().sequence) == 16 && TotalSteps(Run().sequence) == 18
    ensures TotalSteps(Idle().sequence) == 12 && TotalSteps(Fall().sequence) == 12
  {
  }

  /** Every frame index names a tile of the default 16 x 11 atlas. */
  lemma DefaultFramesInAtlas()
    ensures forall k, f :: k in DefaultAnimations() && f in DefaultAnimations()[k].sequence.frames ==>
      0 <= f < DefaultTilesX * DefaultTilesY
  {
  }

  /** Only "3" is named "fall" (the name landing tests), and no animation carries an action. */
  lemma DefaultNamesAndActions()
    ensures forall k :: k in DefaultAnimations() ==> (DefaultAnimations()[k].name == "fall" <==> k == "3")
    ensures forall k :: k in DefaultAnimations() ==> DefaultAnimations()[k].action.None?
  {
  }

  /** The walk fixture: step 9 shows frame 1, and the horizontal speed is a constant 3. */
  lemma WalkFixture()
    ensures FrameAtStep(Walk().sequence, 9) == 1
    ensures Walk().movement.startX == Walk().movement.endX == 3.0
  {
  }

  /** Inserting the four animations one by one gives the table on top of what was there. */
  lemma InsertionsMakeDefaultTable(m: map<string, Animation>)
    ensures m["0" := Walk()]["1" := Run()]["2" := Idle()]["3" := Fall()] == m + DefaultAnimations()
  {
    var l := m["0" := Walk()]["1" := Run()]["2" := Idle()]["3" := Fall()];
    var r := m + DefaultAnimations();
    assert l.Keys == r.Keys;
    forall k | k in l
      ensures l[k] == r[k]
    {
    }
  }

  /** The loader's own state that `loadDefaultAnimations` writes. */
  class Loader {
    var animations: map<string, Animation>
    var tilesX: int
    var tilesY: int

    constructor ()
      ensures animations == map[] && tilesX == 1 && tilesY == 1
    {
      animations, tilesX, tilesY := map[], 1, 1;
    }

    /**
     * `loadDefaultAnimations`. `xmlTiles` is the tile grid that the sprite
     * search found in the bundled XML, `None` when it found no sprite there;
     * the sprite image itself is not modelled.
     */
    method LoadDefaultAnimations(xmlTiles: Option<(int, int)>)
      returns (table: map<string, Animation>, tx: int, ty: int)
      modifies this
      ensures animations == old(animations) + DefaultAnimations()
      ensures tilesX == (if xmlTiles.Some? then xmlTiles.value.0 else DefaultTilesX)
      ensures tilesY == (if xmlTiles.Some? then xmlTiles.value.1 else DefaultTilesY)
      ensures table == animations && tx == tilesX && ty == tilesY
    {
      tilesX := DefaultTilesX;
      tilesY := DefaultTilesY;
      if xmlTiles.Some? {
        tilesX, tilesY := xmlTiles.value.0, xmlTiles.value.1;
      }
      InsertionsMakeDefaultTable(animations);
      animations := animations["0" := Walk()];
      animations := animations["1" := Run()];
      animations := animations["2" := Idle()];
      animations := animations["3" := Fall()];
      return animations, tilesX, tilesY;
    }
  }
}
