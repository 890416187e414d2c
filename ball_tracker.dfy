/**
 * The per-frame bounce detector of the rally scorer.
 *
 * A `BallTracker` watches the vertical centre of the ball's bounding box in
 * screen space (y grows downwards) and reports a bounce on the frame where
 * the ball, having been moving down, starts moving up, provided the
 * cooldown since the previous bounce has run out. It also records which
 * half of the court (in bird's-eye space) the ball was last seen on and
 * counts bounces per half, so that a double bounce can be detected.
 *
 * The class keeps one field per attribute of the tracker; `State()` bundles
 * them into a `TrackerState` value, and every method is specified by a
 * pure step function on that value. The lemmas below state what the
 * tracker promises in terms of those step functions.
 */
module BallTracking {
  import opened Wrappers

  /** The two halves of the court, split at the kitchen midline. */
  datatype Side = Top | Bottom

  /** A count per side; like the tracker's dictionary it always has both keys. */
  type SideCounts = m: map<Side, int> | Top in m && Bottom in m
    witness map[Top := 0, Bottom := 0]

  const ZeroCounts: SideCounts := map[Top := 0, Bottom := 0]

  /** The entry of `counts` for `side`. */
  function CountOf(counts: SideCounts, side: Side): int {
    match side
    case Top => counts[Top]
    case Bottom => counts[Bottom]
  }

  /** `counts` with the entry for `side` replaced by `n`. */
  function WithCount(counts: SideCounts, side: Side, n: int): (r: SideCounts)
    ensures CountOf(r, side) == n
    ensures forall s :: s != side ==> CountOf(r, s) == CountOf(counts, s)
  {
    counts[side := n]
  }

  /** The order in which the per-side dictionary lists its keys. */
  const SideOrder: seq<Side> := [Top, Bottom]

  /** A detection box on the video frame: corners (x1, y1) and (x2, y2). */
  datatype BBox = BBox(x1: real, y1: real, x2: real, y2: real)

  /** A point in bird's-eye court coordinates. */
  datatype Point = Point(x: real, y: real)

  /** How many recent y-centres are kept. */
  const HistoryLen := 5
  /** Frames that must pass after a bounce before another can be reported. */
  const CooldownMax := 15
  /** Frames for which the "BOUNCE!" label stays on screen. */
  const DisplayMax := 3

  datatype TrackerState = TrackerState(
    yHistory: seq<real>,
    wasGoingDown: bool,
    cooldown: int,
    bounceFlag: bool,
    displayFrames: int,
    bounceCount: int,
    lastSide: Option<Side>,
    sideCounts: SideCounts)

  /** The state of a freshly constructed tracker. */
  const InitialTracker := TrackerState([], false, 0, false, 0, 0, None, ZeroCounts)

  /** What every reachable tracker state satisfies. */
  predicate WellFormed(t: TrackerState) {
    && |t.yHistory| <= HistoryLen
    && 0 <= t.cooldown <= CooldownMax
    && 0 <= t.displayFrames <= DisplayMax
    && 0 <= t.bounceCount
    && 0 <= t.sideCounts[Top]
    && 0 <= t.sideCounts[Bottom]
  }

  /** One tick of a countdown: down by one while positive. */
  function Tick(n: int): int {
    if n > 0 then n - 1 else n
  }

  /** The vertical centre of a detection box. */
  function CentreY(b: BBox): real {
    (b.y1 + b.y2) / 2.0
  }

  /** Appends a centre to the history, dropping the oldest one beyond `HistoryLen`. */
  function Push(h: seq<real>, y: real): seq<real> {
    if |h + [y]| > HistoryLen then (h + [y])[1..] else h + [y]
  }

  /** The step before the last one went down the screen (y increased). */
  predicate GoingDown(h: seq<real>)
    requires |h| >= 3
  {
    h[|h| - 2] > h[|h| - 3]
  }

  /** The last step went up the screen (y decreased). */
  predicate GoingUp(h: seq<real>)
    requires |h| >= 3
  {
    h[|h| - 1] < h[|h| - 2]
  }

  /** The first part of every `detect_bounce` call: clear the flag, tick both counters. */
  function TickCounters(t: TrackerState): TrackerState {
    t.(bounceFlag := false, cooldown := Tick(t.cooldown), displayFrames := Tick(t.displayFrames))
  }

  /** The rest of a `detect_bounce` call that sees the ball, with y-centre `y`. */
  function Observe(t: TrackerState, y: real): TrackerState {
    var h := Push(t.yHistory, y);
    if |h| < 3 then t.(yHistory := h) else Turn(t.(yHistory := h))
  }

  /** Bounce check and direction update once the history holds at least three centres. */
  function Turn(t: TrackerState): TrackerState
    requires |t.yHistory| >= 3
  {
    Steer(CheckBounce(t))
  }

  /** A bounce: the ball was going down, the last step goes up and the cooldown has run out. */
  function CheckBounce(t: TrackerState): (r: TrackerState)
    requires |t.yHistory| >= 3
    ensures r.yHistory == t.yHistory && r.wasGoingDown == t.wasGoingDown
  {
    if t.wasGoingDown && GoingUp(t.yHistory) && t.cooldown == 0 then
      t.(bounceFlag := true, cooldown := CooldownMax,
         displayFrames := DisplayMax, bounceCount := t.bounceCount + 1)
    else t
  }

  /** The direction flag after a step down (checked first) or a step up. */
  function Steer(t: TrackerState): TrackerState
    requires |t.yHistory| >= 3
  {
    t.(wasGoingDown := if GoingDown(t.yHistory) then true
                       else if GoingUp(t.yHistory) then false
                       else t.wasGoingDown)
  }

  /** The state after `detect_bounce` is called with the frame's detection (`None`: no ball). */
  function AfterDetectBounce(t: TrackerState, ball: Option<BBox>): TrackerState {
    match ball
    case None => TickCounters(t)
    case Some(b) => Observe(TickCounters(t), CentreY(b))
  }

  /** The state after `get_ball_side` with the projected ball and the kitchen midline. */
  function AfterGetBallSide(t: TrackerState, proj: Option<Point>, mid: Option<real>): TrackerState {
    if proj.None? || mid.None? then t
    else
      var side := if proj.value.y < mid.value then Top else Bottom;
      var counts := if t.lastSide.Some? && side != t.lastSide.value
                    then WithCount(t.sideCounts, side, 0) else t.sideCounts;
      t.(lastSide := Some(side), sideCounts := counts)
  }

  /** The state after `update_side_bounce`. */
  function AfterUpdateSideBounce(t: TrackerState): TrackerState {
    if t.bounceFlag && t.lastSide.Some? then
      var side := t.lastSide.value;
      t.(sideCounts := WithCount(t.sideCounts, side, CountOf(t.sideCounts, side) + 1))
    else t
  }

  /** The state after `reset_rally_state`. */
  function AfterResetRally(t: TrackerState): TrackerState {
    t.(sideCounts := ZeroCounts)
  }

  /** The side `has_double_bounce` reports: the first side, top before bottom, with two or more bounces. */
  function DoubleBounceSide(counts: SideCounts): (r: Option<Side>)
    ensures r.Some? ==> CountOf(counts, r.value) >= 2
    ensures r == Some(Bottom) ==> counts[Top] < 2
    ensures r.None? <==> counts[Top] < 2 && counts[Bottom] < 2
  {
    if counts[Top] >= 2 then Some(Top)
    else if counts[Bottom] >= 2 then Some(Bottom)
    else None
  }

  /**
   * `process_and_project`: no box without a ball; a box without a point
   * without a homography; otherwise the box and its projection.
   */
  function ProcessAndProject<H>(ball: Option<BBox>, hom: Option<H>, project: (BBox, H) -> Point)
    : (r: (Option<BBox>, Option<Point>))
    ensures r.0 == ball
    ensures r.1.Some? <==> ball.Some? && hom.Some?
    ensures r.1.Some? ==> r.1.value == project(ball.value, hom.value)
  {
    match ball
    case None => (None, None)
    case Some(b) =>
      if hom.Some? then (Some(b), Some(project(b, hom.value))) else (Some(b), None)
  }

  // ---------------------------------------------------------------------
  // Properties of detect_bounce
  // ---------------------------------------------------------------------

  /** The flag left by the previous call plays no part: each call starts by clearing it. */
  lemma DetectBounceClearsFlag(t: TrackerState, ball: Option<BBox>, previous: bool)
    ensures AfterDetectBounce(t.(bounceFlag := previous), ball) == AfterDetectBounce(t, ball)
  {
  }

  /**
   * A bounce is reported exactly when a ball is seen, the history then holds
   * at least three centres, the ball was going down, the last step goes up,
   * and the cooldown (after this frame's tick) is zero. A bounce sets the
   * cooldown and display counters to their maxima and adds one to the
   * count; otherwise both counters tick and the count stays.
   */
  lemma BounceConditions(t: TrackerState, ball: Option<BBox>)
    ensures var r := AfterDetectBounce(t, ball);
      r.bounceFlag <==>
        && ball.Some?
        && |Push(t.yHistory, CentreY(ball.value))| >= 3
        && t.wasGoingDown
        && GoingUp(Push(t.yHistory, CentreY(ball.value)))
        && Tick(t.cooldown) == 0
    ensures var r := AfterDetectBounce(t, ball);
      if r.bounceFlag then
        r.cooldown == CooldownMax && r.displayFrames == DisplayMax && r.bounceCount == t.bounceCount + 1
      else
        r.cooldown == Tick(t.cooldown) && r.displayFrames == Tick(t.displayFrames)
        && r.bounceCount == t.bounceCount
  {
  }

  /** Both counters drop by exactly one per call while positive, even without a ball, and never go negative. */
  lemma CountersTick(t: TrackerState, ball: Option<BBox>)
    requires WellFormed(t)
    ensures var r := AfterDetectBounce(t, ball);
      && 0 <= r.cooldown && 0 <= r.displayFrames
      && (!r.bounceFlag ==> r.cooldown == (if t.cooldown > 0 then t.cooldown - 1 else 0))
      && (!r.bounceFlag ==> r.displayFrames == (if t.displayFrames > 0 then t.displayFrames - 1 else 0))
  {
  }

  /** A frame without a ball reports no bounce and leaves history, direction and count unchanged. */
  lemma NoBallFrame(t: TrackerState)
    ensures var r := AfterDetectBounce(t, None);
      && !r.bounceFlag
      && r.yHistory == t.yHistory
      && r.wasGoingDown == t.wasGoingDown
      && r.bounceCount == t.bounceCount
      && r.lastSide == t.lastSide && r.sideCounts == t.sideCounts
  {
  }

  /**
   * With a ball, the history gains the new centre at its end and keeps at
   * most `HistoryLen` entries by dropping the oldest; while it holds fewer
   * than three, no bounce is reported.
   */
  lemma HistoryWindow(t: TrackerState, b: BBox)
    requires |t.yHistory| <= HistoryLen
    ensures var r := AfterDetectBounce(t, Some(b));
      && |r.yHistory| == (if |t.yHistory| < HistoryLen then |t.yHistory| + 1 else HistoryLen)
      && r.yHistory == (t.yHistory + [CentreY(b)])[|t.yHistory| + 1 - |r.yHistory|..]
      && (|r.yHistory| < 3 ==> !r.bounceFlag)
  {
  }

  /** The direction flag is set by a downward step, cleared by an upward one (down checked first), else kept. */
  lemma DirectionUpdate(t: TrackerState, b: BBox)
    ensures var r := AfterDetectBounce(t, Some(b));
      && (|r.yHistory| < 3 ==> r.wasGoingDown == t.wasGoingDown)
      && (|r.yHistory| >= 3 ==>
            r.wasGoingDown == (GoingDown(r.yHistory) || (!GoingUp(r.yHistory) && t.wasGoingDown)))
  {
  }

  /** `detect_bounce` keeps the tracker well formed. */
  lemma DetectBouncePreserves(t: TrackerState, ball: Option<BBox>)
    requires WellFormed(t)
    ensures WellFormed(AfterDetectBounce(t, ball))
  {
  }

  /** The flags returned by successive `detect_bounce` calls, one per frame. */
  function Flags(t: TrackerState, frames: seq<Option<BBox>>): (r: seq<bool>)
    ensures |r| == |frames|
    decreases |frames|
  {
    if frames == [] then []
    else
      var next := AfterDetectBounce(t, frames[0]);
      [next.bounceFlag] + Flags(next, frames[1..])
  }

  /** While the cooldown exceeds `k`, none of the next `k` calls reports a bounce. */
  lemma {:induction false} QuietWhileCooling(t: TrackerState, frames: seq<Option<BBox>>, k: nat)
    requires k < t.cooldown
    ensures forall m :: 0 <= m < |frames| && m < k ==> !Flags(t, frames)[m]
    decreases k
  {
    if frames != [] && k > 0 {
      var next := AfterDetectBounce(t, frames[0]);
      assert !next.bounceFlag && next.cooldown == t.cooldown - 1;
      QuietWhileCooling(next, frames[1..], k - 1);
      forall m | 0 <= m < |frames| && m < k
        ensures !Flags(t, frames)[m]
      {
        if m > 0 {
          assert Flags(t, frames)[m] == Flags(next, frames[1..])[m - 1];
        }
      }
    }
  }

  /** Two reported bounces are at least `CooldownMax` calls apart. */
  lemma {:induction false} BounceSpacing(t: TrackerState, frames: seq<Option<BBox>>, i: nat, j: nat)
    requires i < j < |frames|
    requires Flags(t, frames)[i] && Flags(t, frames)[j]
    ensures j - i >= CooldownMax
    decreases i
  {
    var next := AfterDetectBounce(t, frames[0]);
    assert Flags(t, frames)[j] == Flags(next, frames[1..])[j - 1];
    if i == 0 {
      assert next.bounceFlag;
      QuietWhileCooling(next, frames[1..], CooldownMax - 1);
    } else {
      assert Flags(t, frames)[i] == Flags(next, frames[1..])[i - 1];
      BounceSpacing(next, frames[1..], i - 1, j - 1);
    }
  }

  // ---------------------------------------------------------------------
  // Properties of the side tracking
  // ---------------------------------------------------------------------

  /** Without a projection or a midline, the side stays as it was and nothing changes. */
  lemma GetBallSideWithoutData(t: TrackerState, proj: Option<Point>, mid: Option<real>)
    requires proj.None? || mid.None?
    ensures AfterGetBallSide(t, proj, mid) == t
  {
  }

  /**
   * With both, the recorded side is top exactly when the ball is above the
   * midline; on a change of side only the new side's count is zeroed.
   */
  lemma GetBallSideRecords(t: TrackerState, p: Point, mid: real)
    ensures var r := AfterGetBallSide(t, Some(p), Some(mid));
      && r.lastSide.Some?
      && (r.lastSide.value == Top <==> p.y < mid)
      && var side := r.lastSide.value;
      && var crossed := t.lastSide.Some? && t.lastSide.value != side;
      && CountOf(r.sideCounts, side) == (if crossed then 0 else CountOf(t.sideCounts, side))
      && (forall other :: other != side ==> CountOf(r.sideCounts, other) == CountOf(t.sideCounts, other))
      && r.(lastSide := t.lastSide, sideCounts := t.sideCounts) == t
  {
  }

  /** A side's count rises by one exactly when a bounce was just flagged there; nothing else changes. */
  lemma UpdateSideBounceCounts(t: TrackerState, s: Side)
    ensures var r := AfterUpdateSideBounce(t);
      && CountOf(r.sideCounts, s) == CountOf(t.sideCounts, s) + (if t.bounceFlag && t.lastSide == Some(s) then 1 else 0)
      && r.(sideCounts := t.sideCounts) == t
  {
  }

  /** A second bounce on the side the ball stayed on makes that rally a double bounce. */
  lemma SecondBounceIsDouble(t: TrackerState, s: Side)
    requires t.bounceFlag && t.lastSide == Some(s) && CountOf(t.sideCounts, s) == 1
    ensures DoubleBounceSide(AfterUpdateSideBounce(t).sideCounts).Some?
  {
    UpdateSideBounceCounts(t, s);
  }

  /** Resetting the rally zeroes both counts, so no double bounce remains, and keeps everything else. */
  lemma ResetClearsDouble(t: TrackerState)
    ensures var r := AfterResetRally(t);
      && r.sideCounts[Top] == 0 && r.sideCounts[Bottom] == 0
      && DoubleBounceSide(r.sideCounts) == None
      && r.lastSide == t.lastSide
      && r.(sideCounts := t.sideCounts) == t
  {
  }

  /** The side operations keep the tracker well formed. */
  lemma SideOperationsPreserve(t: TrackerState, proj: Option<Point>, mid: Option<real>)
    requires WellFormed(t)
    ensures WellFormed(AfterGetBallSide(t, proj, mid))
    ensures WellFormed(AfterUpdateSideBounce(t))
    ensures WellFormed(AfterResetRally(t))
  {
  }

  // ---------------------------------------------------------------------
  // The tracker object
  // ---------------------------------------------------------------------

  class BallTracker {
    var yHistory: seq<real>
    var wasGoingDown: bool
    var bounceCooldown: int
    var bounceFlag: bool
    var bounceDisplayFrames: int
    var bounceCount: int
    var lastBallSide: Option<Side>
    var sideBounceCounts: SideCounts

    /** The tracker's fields as one value. */
    function State(): TrackerState
      reads this
    {
      TrackerState(yHistory, wasGoingDown, bounceCooldown, bounceFlag,
                   bounceDisplayFrames, bounceCount, lastBallSide, sideBounceCounts)
    }

    constructor ()
      ensures State() == InitialTracker && WellFormed(State())
    {
      yHistory := [];
      wasGoingDown := false;
      bounceCooldown := 0;
      bounceFlag := false;
      bounceDisplayFrames := 0;
      bounceCount := 0;
      lastBallSide := None;
      sideBounceCounts := ZeroCounts;
    }

    /** `detect_bounce`: returns whether a bounce is detected on this frame; the flag stored equals it. */
    method DetectBounce(ball: Option<BBox>) returns (bounced: bool)
      requires WellFormed(State())
      modifies this
      ensures State() == AfterDetectBounce(old(State()), ball)
      ensures bounced == bounceFlag
      ensures WellFormed(State())
    {
      ghost var before := State();
      bounceFlag := false;
      if bounceCooldown > 0 {
        bounceCooldown := bounceCooldown - 1;
      }
      if bounceDisplayFrames > 0 {
        bounceDisplayFrames := bounceDisplayFrames - 1;
      }
      if ball.Some? {
        ObserveCentre(CentreY(ball.value));
      }
      DetectBouncePreserves(before, ball);
      return bounceFlag;
    }

    /** The part of `detect_bounce` that runs once a ball is seen, with its y-centre. */
    method ObserveCentre(yCentre: real)
      modifies this
      ensures State() == Observe(old(State()), yCentre)
    {
      yHistory := Push(yHistory, yCentre);
      if |yHistory| < 3 {
        return;
      }
      ghost var pushed := State();
      var goingDown := GoingDown(yHistory);
      var goingUp := GoingUp(yHistory);
      if wasGoingDown && goingUp && bounceCooldown == 0 {
        bounceFlag := true;
        bounceCooldown := CooldownMax;
        bounceDisplayFrames := DisplayMax;
        bounceCount := bounceCount + 1;
      }
      assert State() == CheckBounce(pushed);
      if goingDown {
        wasGoingDown := true;
      } else if goingUp {
        wasGoingDown := false;
      }
    }

    /** `get_ball_side`: the side now recorded (the previous one when there is no data). */
    method GetBallSide(ballProj: Option<Point>, kitchenYMid: Option<real>) returns (side: Option<Side>)
      requires WellFormed(State())
      modifies this
      ensures State() == AfterGetBallSide(old(State()), ballProj, kitchenYMid)
      ensures side == lastBallSide
      ensures WellFormed(State())
    {
      SideOperationsPreserve(State(), ballProj, kitchenYMid);
      if ballProj.None? || kitchenYMid.None? {
        return lastBallSide;
      }
      var s := if ballProj.value.y < kitchenYMid.value then Top else Bottom;
      var prevSide := lastBallSide;
      lastBallSide := Some(s);
      if prevSide.Some? && s != prevSide.value {
        sideBounceCounts := WithCount(sideBounceCounts, s, 0);
      }
      return Some(s);
    }

    /** `update_side_bounce`. */
    method UpdateSideBounce()
      requires WellFormed(State())
      modifies this
      ensures State() == AfterUpdateSideBounce(old(State()))
      ensures WellFormed(State())
    {
      SideOperationsPreserve(State(), None, None);
      if bounceFlag && lastBallSide.Some? {
        var s := lastBallSide.value;
        sideBounceCounts := WithCount(sideBounceCounts, s, CountOf(sideBounceCounts, s) + 1);
      }
    }

    /** `has_double_bounce`: scans the sides in dictionary order for a count of two or more. */
    method HasDoubleBounce() returns (side: Option<Side>)
      ensures side == DoubleBounceSide(sideBounceCounts)
    {
      var i := 0;
      while i < |SideOrder|
        invariant 0 <= i <= |SideOrder|
        invariant forall k :: 0 <= k < i ==> CountOf(sideBounceCounts, SideOrder[k]) < 2
      {
        if CountOf(sideBounceCounts, SideOrder[i]) >= 2 {
          return Some(SideOrder[i]);
        }
        i := i + 1;
      }
      assert SideOrder[0] == Top && SideOrder[1] == Bottom;
      return None;
    }

    /** `reset_rally_state`. */
    method ResetRallyState()
      requires WellFormed(State())
      modifies this
      ensures State() == AfterResetRally(old(State()))
      ensures WellFormed(State())
    {
      SideOperationsPreserve(State(), None, None);
      sideBounceCounts := ZeroCounts;
    }
  }
}
