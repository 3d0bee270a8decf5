/**
 * Animation definitions: the frame sequence with its loop-back point, the
 * movement interpolation and the weighted successor transitions of one
 * animation (esheep/ESheepAnimation.swift).
 */
module Animations {
  import opened Wrappers

  datatype AnimationSequence = AnimationSequence(frames: seq<int>, repeatCount: int, repeatFrom: int)

  /** Movement scalars; `startInterval`/`endInterval` are carried but never read by the engine. */
  datatype Movement = Movement(startX: real, startY: real, endX: real, endY: real,
                               startInterval: real, endInterval: real)

  datatype Transition = Transition(nextAnimationId: string, probability: int)

  datatype Animation = Animation(id: string, name: string, sequence: AnimationSequence,
                                 movement: Movement, transitions: seq<Transition>,
                                 action: Option<string>, hasGravity: bool, hasBorder: bool)

  /** The loop-back point lies inside a non-empty frame list and the repeat count is non-negative. */
  predicate WellFormedSequence(q: AnimationSequence) {
    |q.frames| > 0 && 0 <= q.repeatFrom < |q.frames| && q.repeatCount >= 0
  }

  /**
   * What the engine needs of an animation to run it without trapping: frames it
   * can resolve at every step, a positive step count, and weights whose total
   * admits a draw whenever there are transitions.
   */
  predicate AnimationValid(a: Animation) {
    WellFormedSequence(a.sequence) && (a.transitions != [] ==> TotalWeight(a.transitions) > 0)
  }

  /** `getTotalSteps`: one full pass plus `repeatCount` passes from `repeatFrom` on. */
  function TotalSteps(q: AnimationSequence): int {
    |q.frames| + (|q.frames| - q.repeatFrom) * q.repeatCount
  }

  lemma TotalStepsAtLeastFrames(q: AnimationSequence)
    requires 0 <= q.repeatFrom <= |q.frames| && q.repeatCount >= 0
    ensures TotalSteps(q) >= |q.frames|
    ensures WellFormedSequence(q) ==> TotalSteps(q) > 0
  {
    assert (|q.frames| - q.repeatFrom) * q.repeatCount >= 0;
  }

  /**
   * The position in `frames` that `getFrameAtStep` reads. The operands of `%`
   * are non-negative here, so Dafny's `%` agrees with Swift's truncating one.
   */
  function TileIndex(q: AnimationSequence, step: int): (i: int)
    requires 0 <= step
    requires step >= |q.frames| ==> 0 <= q.repeatFrom < |q.frames|
    ensures 0 <= i < |q.frames|
    ensures 0 <= q.repeatFrom <= step ==> q.repeatFrom <= i
  {
    var n := |q.frames|;
    if step < n then step
    else if q.repeatFrom == 0 then step % n
    else q.repeatFrom + (step - q.repeatFrom) % (n - q.repeatFrom)
  }

  /** `getFrameAtStep`: the sprite tile shown at `step`; never out of bounds. */
  function FrameAtStep(q: AnimationSequence, step: int): (f: int)
    requires 0 <= step
    requires step >= |q.frames| ==> 0 <= q.repeatFrom < |q.frames|
    ensures f in q.frames
    ensures step < |q.frames| ==> f == q.frames[step]
  {
    q.frames[TileIndex(q, step)]
  }

  lemma MulNonNegative(x: int, y: int)
    requires x >= 0 && y >= 0
    ensures x * y >= 0
  {
  }

  /** The only multiple of `n` strictly between `-n` and `n` is zero. */
  lemma SmallMultipleIsZero(c: int, n: int)
    requires n > 0 && -n < c * n < n
    ensures c == 0
  {
    if c >= 1 {
      MulNonNegative(c - 1, n);
    } else if c <= -1 {
      MulNonNegative(-c - 1, n);
    }
  }

  /** `a % n` is determined by any decomposition `a == k * n + m` with `0 <= m < n`. */
  lemma ModOfDecomposition(a: int, n: int, k: int, m: int)
    requires n > 0 && 0 <= m < n && a == k * n + m
    ensures a % n == m
  {
    var d := a / n;
    assert a == d * n + a % n;
    assert (k - d) * n == a % n - m;
    SmallMultipleIsZero(k - d, n);
  }

  lemma ModShift(a: int, n: int)
    requires n > 0 && a >= 0
    ensures (a + n) % n == a % n
  {
    ModOfDecomposition(a + n, n, a / n + 1, a % n);
  }

  /** With `repeatFrom == 0` the frame repeats with period `|frames|`. */
  lemma {:induction false} FramePeriodicFromStart(q: AnimationSequence, step: int)
    requires WellFormedSequence(q) && q.repeatFrom == 0 && step >= 0
    ensures FrameAtStep(q, step + |q.frames|) == FrameAtStep(q, step)
  {
    var n := |q.frames|;
    ModShift(step, n);
    if step < n {
      ModOfDecomposition(step, n, 0, step);
    }
  }

  /**
   * With `repeatFrom > 0`, from `repeatFrom` on the frame repeats with period
   * `|frames| - repeatFrom`, and the frames before `repeatFrom` are never shown again.
   */
  lemma {:induction false} FramePeriodicAfterRepeatFrom(q: AnimationSequence, step: int)
    requires WellFormedSequence(q) && q.repeatFrom > 0 && step >= q.repeatFrom
    ensures TileIndex(q, step) >= q.repeatFrom
    ensures FrameAtStep(q, step + (|q.frames| - q.repeatFrom)) == FrameAtStep(q, step)
  {
    var n, p := |q.frames|, |q.frames| - q.repeatFrom;
    ModShift(step - q.repeatFrom, p);
    if step < n {
      ModOfDecomposition(step - q.repeatFrom, p, 0, step - q.repeatFrom);
    }
  }

  // ---------------------------------------------------------------------------
  // Weighted choice of the successor animation (`getNextAnimation`)

  /** Sum of all weights (the `reduce` in `getNextAnimation`). */
  function TotalWeight(ts: seq<Transition>): int {
    if ts == [] then 0 else TotalWeight(ts[..|ts| - 1]) + ts[|ts| - 1].probability
  }

  /** The running sum `accumulated` after the first `k` transitions. */
  function PrefixWeight(ts: seq<Transition>, k: nat): int
    requires k <= |ts|
  {
    TotalWeight(ts[..k])
  }

  lemma PrefixWeightStep(ts: seq<Transition>, k: nat)
    requires k < |ts|
    ensures PrefixWeight(ts, k + 1) == PrefixWeight(ts, k) + ts[k].probability
  {
    assert ts[..k + 1][..k] == ts[..k];
  }

  lemma PrefixWeightAll(ts: seq<Transition>)
    ensures PrefixWeight(ts, |ts|) == TotalWeight(ts)
  {
    assert ts[..|ts|] == ts;
  }

  /** The running sum once transition `j` has been added. */
  function RunningWeight(ts: seq<Transition>, j: nat): int
    requires j < |ts|
  {
    PrefixWeight(ts, j + 1)
  }

  lemma RunningWeightOfLast(ts: seq<Transition>)
    requires ts != []
    ensures RunningWeight(ts, |ts| - 1) == TotalWeight(ts)
  {
    PrefixWeightAll(ts);
  }

  /** The search of the loop from position `i` on, all earlier running sums being `<= r`. */
  function PickFrom(ts: seq<Transition>, r: int, i: nat): (k: nat)
    requires i < |ts| && r < TotalWeight(ts)
    requires forall j :: 0 <= j < i ==> RunningWeight(ts, j) <= r
    ensures i <= k < |ts|
    ensures r < RunningWeight(ts, k)
    ensures forall j :: 0 <= j < k ==> RunningWeight(ts, j) <= r
    decreases |ts| - i
  {
    if r < RunningWeight(ts, i) then i
    else
      PrefixWeightAll(ts);
      PickFrom(ts, r, i + 1)
  }

  /** The chosen transition: the first one whose running sum exceeds the draw `r`. */
  function SelectedIndex(ts: seq<Transition>, r: int): (k: nat)
    requires ts != [] && r < TotalWeight(ts)
    ensures k < |ts| && r < RunningWeight(ts, k)
    ensures forall j :: 0 <= j < k ==> RunningWeight(ts, j) <= r
  {
    PickFrom(ts, r, 0)
  }

  /** The first-exceeding index is unique: any index with that property is `SelectedIndex`. */
  lemma SelectedIndexUnique(ts: seq<Transition>, r: int, k: nat)
    requires ts != [] && r < TotalWeight(ts) && k < |ts|
    requires r < RunningWeight(ts, k)
    requires forall j :: 0 <= j < k ==> RunningWeight(ts, j) <= r
    ensures SelectedIndex(ts, r) == k
  {
  }

  /** The value `getNextAnimation` returns for the draw `r`, as a function. */
  function ChosenNext(ts: seq<Transition>, r: int): (next: Option<string>)
    requires ts != [] ==> 0 <= r < TotalWeight(ts)
    ensures next.None? <==> ts == []
    ensures next.Some? ==> exists t :: t in ts && t.nextAnimationId == next.value
  {
    if ts == [] then None else Some(ts[SelectedIndex(ts, r)].nextAnimationId)
  }

  /**
   * `getNextAnimation` with the draw `Int.random(in: 0..<total)` passed in as `r`.
   * The source traps on an empty range, so a non-empty list needs `0 <= r < total`.
   */
  method NextAnimation(ts: seq<Transition>, r: int) returns (next: Option<string>)
    requires ts != [] ==> 0 <= r < TotalWeight(ts)
    ensures next == ChosenNext(ts, r)
  {
    if ts == [] {
      return None;
    }
    var accumulated := 0;
    var i := 0;
    while i < |ts|
      invariant 0 <= i <= |ts|
      invariant accumulated == PrefixWeight(ts, i)
      invariant forall j :: 0 <= j < i ==> RunningWeight(ts, j) <= r
    {
      PrefixWeightStep(ts, i);
      accumulated := accumulated + ts[i].probability;
      if r < accumulated {
        SelectedIndexUnique(ts, r, i);
        return Some(ts[i].nextAnimationId);
      }
      i := i + 1;
    }
    // The running sum has reached the total, which exceeds `r`: the source's
    // fallback `transitions.last` is unreachable.
    RunningWeightOfLast(ts);
    assert false;
  }

  /** With positive weights the running sums grow with the index. */
  lemma {:induction false} PrefixWeightMonotone(ts: seq<Transition>, j: nat, k: nat)
    requires forall t :: t in ts ==> t.probability > 0
    requires j <= k <= |ts|
    ensures PrefixWeight(ts, j) <= PrefixWeight(ts, k)
    decreases k - j
  {
    if j < k {
      PrefixWeightStep(ts, k - 1);
      assert ts[k - 1] in ts;
      PrefixWeightMonotone(ts, j, k - 1);
    }
  }

  /** With positive weights, transition `i` is chosen exactly for the draws in `[P(i), P(i+1))`. */
  lemma SelectedIndexInterval(ts: seq<Transition>, r: int, i: nat)
    requires forall t :: t in ts ==> t.probability > 0
    requires i < |ts| && 0 <= r < TotalWeight(ts)
    ensures SelectedIndex(ts, r) == i <==> PrefixWeight(ts, i) <= r < PrefixWeight(ts, i + 1)
  {
    var k := SelectedIndex(ts, r);
    assert ts[..0] == [];
    assert i > 0 ==> RunningWeight(ts, i - 1) == PrefixWeight(ts, i);
    assert k < i ==> RunningWeight(ts, k) <= PrefixWeight(ts, i) by {
      if k < i { PrefixWeightMonotone(ts, k + 1, i); }
    }
    assert i < k ==> RunningWeight(ts, i) <= r;
  }

  /** The integers `a <= r < b`. */
  function Interval(a: int, b: int): (s: set<int>)
    ensures forall r :: r in s <==> a <= r < b
    ensures a <= b ==> |s| == b - a
    decreases b - a
  {
    if a >= b then {} else Interval(a, b - 1) + {b - 1}
  }

  /** The draws that choose transition `i`. */
  function Choosing(ts: seq<Transition>, i: nat): set<int>
    requires ts != []
  {
    set r | r in Interval(0, TotalWeight(ts)) && SelectedIndex(ts, r) == i
  }

  /** The weights before and after transition `i` lie inside `[0, TotalWeight]`. */
  lemma WeightsAround(ts: seq<Transition>, i: nat)
    requires forall t :: t in ts ==> t.probability > 0
    requires i < |ts|
    ensures 0 <= PrefixWeight(ts, i) <= PrefixWeight(ts, i + 1) <= TotalWeight(ts)
  {
    PrefixWeightStep(ts, i);
    PrefixWeightMonotone(ts, 0, i);
    PrefixWeightMonotone(ts, i + 1, |ts|);
    PrefixWeightAll(ts);
    assert ts[..0] == [];
  }

  lemma ChoosingWithin(ts: seq<Transition>, i: nat, r: int)
    requires forall t :: t in ts ==> t.probability > 0
    requires i < |ts| && r in Choosing(ts, i)
    ensures r in Interval(PrefixWeight(ts, i), PrefixWeight(ts, i + 1))
  {
    SelectedIndexInterval(ts, r, i);
  }

  lemma WithinChoosing(ts: seq<Transition>, i: nat, r: int)
    requires forall t :: t in ts ==> t.probability > 0
    requires i < |ts| && r in Interval(PrefixWeight(ts, i), PrefixWeight(ts, i + 1))
    ensures r in Choosing(ts, i)
  {
    WeightsAround(ts, i);
    SelectedIndexInterval(ts, r, i);
  }

  /** The draws that choose transition `i` are those between the weights before and after it. */
  lemma ChosenDraws(ts: seq<Transition>, i: nat)
    requires forall t :: t in ts ==> t.probability > 0
    requires i < |ts|
    ensures Choosing(ts, i) == Interval(PrefixWeight(ts, i), PrefixWeight(ts, i + 1))
  {
    forall r | r in Choosing(ts, i)
      ensures r in Interval(PrefixWeight(ts, i), PrefixWeight(ts, i + 1))
    {
      ChoosingWithin(ts, i, r);
    }
    forall r | r in Interval(PrefixWeight(ts, i), PrefixWeight(ts, i + 1))
      ensures r in Choosing(ts, i)
    {
      WithinChoosing(ts, i, r);
    }
  }

  /**
   * The weighted transition law: with positive weights, transition `i` is chosen
   * for exactly `probability` of the `TotalWeight` possible draws.
   */
  lemma DrawsChoosingTransition(ts: seq<Transition>, i: nat)
    requires forall t :: t in ts ==> t.probability > 0
    requires i < |ts|
    ensures |Choosing(ts, i)| == ts[i].probability
  {
    ChosenDraws(ts, i);
    WeightsAround(ts, i);
    PrefixWeightStep(ts, i);
  }
}
