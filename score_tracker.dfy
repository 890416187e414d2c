/**
 * The rally scorer: decides who won a point when a rally ends and keeps the
 * running score and a log of awarded points.
 *
 * Every frame, `update` records the side the ball was last seen on and
 * whether it went from in bounds to out of bounds. At the end of a rally,
 * `on_rally_end` applies three heuristics in priority order: a double
 * bounce on one side gives the point to the other side; otherwise the side
 * opposite the ball's last side wins, the reason naming whether the ball
 * went out. As with the bounce detector, the class keeps one field per
 * attribute and each method is specified by a step function on the
 * `ScoreState` value that `State()` bundles.
 */
module ScoreTracking {
  import opened Wrappers
  import opened BallTracking

  /** Frames for which the "POINT" flash stays on screen. */
  const PointDisplayMax := 18

  /** The other side of the net. */
  function Opposite(side: Side): (r: Side)
    ensures r != side
  {
    if side == Top then Bottom else Top
  }

  /** Why a point was awarded; each carries the side the reason text names. */
  datatype Reason =
    | DoubleBounce(side: Side)
    | OutOfBounds(lastSide: Side)
    | LastPosition(lastSide: Side)

  /** The name a side has in the logged reason texts. */
  function SideName(side: Side): string {
    if side == Top then "top" else "bottom"
  }

  /** The reason as the text the log and the console show. */
  function ReasonText(reason: Reason): string {
    match reason
    case DoubleBounce(s) => "double bounce on " + SideName(s) + " side"
    case OutOfBounds(s) => "ball out of bounds (last on " + SideName(s) + " side)"
    case LastPosition(s) => "ball last on " + SideName(s) + " side"
  }

  /** The outcome of a rally that produced a point. */
  datatype Award = Award(winner: Side, reason: Reason)

  /** One entry of the point log. */
  datatype PointEntry = PointEntry(frame: int, winner: Side, reason: Reason)

  datatype ScoreState = ScoreState(
    score: SideCounts,
    pointLog: seq<PointEntry>,
    lastSide: Option<Side>,
    wasInBounds: bool,
    wentOob: bool,
    displayFrames: int,
    lastWinner: Option<Side>,
    lastReason: Option<Reason>)

  /** The state of a freshly constructed scorer. */
  const InitialScore := ScoreState(ZeroCounts, [], None, false, false, 0, None, None)

  /** How many entries of the log went to `side`. */
  function Wins(log: seq<PointEntry>, side: Side): (n: nat)
    ensures n <= |log|
  {
    if log == [] then 0
    else (if log[0].winner == side then 1 else 0) + Wins(log[1..], side)
  }

  /** The scorer's invariant: each side's score counts its entries in the log. */
  predicate Consistent(s: ScoreState) {
    && s.score[Top] == Wins(s.pointLog, Top)
    && s.score[Bottom] == Wins(s.pointLog, Bottom)
    && 0 <= s.displayFrames <= PointDisplayMax
  }

  /** The state after `update` with the frame's projection, in-bounds verdict and side. */
  function AfterUpdate(s: ScoreState, proj: Option<Point>, inBounds: bool, side: Option<Side>): ScoreState {
    s.(lastSide := if side.Some? then side else s.lastSide,
       wentOob := if s.wasInBounds && !inBounds && proj.Some? then true else s.wentOob,
       wasInBounds := inBounds,
       displayFrames := Tick(s.displayFrames))
  }

  /** The three heuristics of `on_rally_end`, in priority order. */
  function Decide(doubleSide: Option<Side>, wentOob: bool, lastSide: Option<Side>): Option<Award> {
    if doubleSide.Some? then Some(Award(Opposite(doubleSide.value), DoubleBounce(doubleSide.value)))
    else if wentOob && lastSide.Some? then Some(Award(Opposite(lastSide.value), OutOfBounds(lastSide.value)))
    else if lastSide.Some? then Some(Award(Opposite(lastSide.value), LastPosition(lastSide.value)))
    else None
  }

  /** The state after a point is awarded at `frame`. */
  function Credit(s: ScoreState, frame: int, a: Award): ScoreState {
    s.(score := WithCount(s.score, a.winner, CountOf(s.score, a.winner) + 1),
       pointLog := s.pointLog + [PointEntry(frame, a.winner, a.reason)],
       displayFrames := PointDisplayMax,
       lastWinner := Some(a.winner),
       lastReason := Some(a.reason))
  }

  /** The scorer's state after `on_rally_end` at `frame`, given the ball tracker's double-bounce side. */
  function AfterRallyEnd(s: ScoreState, frame: int, doubleSide: Option<Side>): ScoreState {
    var credited := match Decide(doubleSide, s.wentOob, s.lastSide)
                    case None => s
                    case Some(a) => Credit(s, frame, a);
    credited.(wentOob := false)
  }

  /** What `export_stats` returns. */
  datatype ExportedStats = ExportedStats(playerATop: int, playerBBottom: int, points: seq<PointEntry>)

  /** `export_stats`: top's score is player A's, bottom's is player B's, and the log as it is. */
  function ExportOf(s: ScoreState): (e: ExportedStats)
    ensures e.points == s.pointLog
    ensures e.playerATop == s.score[Top] && e.playerBBottom == s.score[Bottom]
    ensures Consistent(s) ==> e.playerATop == Wins(e.points, Top) && e.playerBBottom == Wins(e.points, Bottom)
    ensures Consistent(s) ==> e.playerATop + e.playerBBottom == |e.points|
  {
    LogLengthIsTotal(s.pointLog);
    ExportedStats(s.score[Top], s.score[Bottom], s.pointLog)
  }

  // ---------------------------------------------------------------------
  // Properties
  // ---------------------------------------------------------------------

  /** Distinct reasons have distinct texts, so a logged text names its heuristic and its side. */
  lemma ReasonTextInjective(r1: Reason, r2: Reason)
    requires ReasonText(r1) == ReasonText(r2)
    ensures r1 == r2
  {
    var t1, t2 := ReasonText(r1), ReasonText(r2);
    assert t1[0] == t2[0] && t1[5] == t2[5];
  }

  /** `_opposite` is its own inverse. */
  lemma OppositeInvolution(side: Side)
    ensures Opposite(Opposite(side)) == side
  {
  }

  /** Every log entry goes to one of the two sides. */
  lemma {:induction false} LogLengthIsTotal(log: seq<PointEntry>)
    ensures |log| == Wins(log, Top) + Wins(log, Bottom)
  {
    if log != [] {
      LogLengthIsTotal(log[1..]);
    }
  }

  /** Appending an entry adds one win to its winner only. */
  lemma {:induction false} WinsAppend(log: seq<PointEntry>, e: PointEntry, side: Side)
    ensures Wins(log + [e], side) == Wins(log, side) + (if e.winner == side then 1 else 0)
  {
    if log == [] {
      assert log + [e] == [e];
    } else {
      assert (log + [e])[1..] == log[1..] + [e];
      WinsAppend(log[1..], e, side);
    }
  }

  /**
   * `update` records a known side and keeps the last one otherwise; the
   * out-of-bounds flag is raised only by an in-bounds to out-of-bounds step
   * with a projection and is never lowered; the display counter ticks.
   */
  lemma UpdateTracksBall(s: ScoreState, proj: Option<Point>, inBounds: bool, side: Option<Side>)
    requires Consistent(s)
    ensures var r := AfterUpdate(s, proj, inBounds, side);
      && r.lastSide == (if side.Some? then side else s.lastSide)
      && (r.wentOob <==> s.wentOob || (s.wasInBounds && !inBounds && proj.Some?))
      && r.wasInBounds == inBounds
      && r.displayFrames == (if s.displayFrames > 0 then s.displayFrames - 1 else 0)
      && r.score == s.score && r.pointLog == s.pointLog
      && Consistent(r)
  {
  }

  /** The state after `update` is called once per frame with the given observations. */
  function UpdateAll(s: ScoreState, frames: seq<(Option<Point>, bool, Option<Side>)>): ScoreState
    decreases |frames|
  {
    if frames == [] then s
    else UpdateAll(AfterUpdate(s, frames[0].0, frames[0].1, frames[0].2), frames[1..])
  }

  /** Once the ball has gone out of bounds, it stays flagged for the rest of the rally, and the score does not move. */
  lemma {:induction false} OutOfBoundsLatches(s: ScoreState, frames: seq<(Option<Point>, bool, Option<Side>)>)
    ensures s.wentOob ==> UpdateAll(s, frames).wentOob
    ensures UpdateAll(s, frames).score == s.score && UpdateAll(s, frames).pointLog == s.pointLog
    decreases |frames|
  {
    if frames != [] {
      OutOfBoundsLatches(AfterUpdate(s, frames[0].0, frames[0].1, frames[0].2), frames[1..]);
    }
  }

  /**
   * The heuristics: a double bounce wins for the other side whatever else
   * happened; without one, the side opposite the last side wins whether or
   * not the ball went out (only the reason differs); with neither, no one.
   */
  lemma DecidePriority(doubleSide: Option<Side>, wentOob: bool, lastSide: Option<Side>)
    ensures var a := Decide(doubleSide, wentOob, lastSide);
      && (doubleSide.Some? ==>
            a == Some(Award(Opposite(doubleSide.value), DoubleBounce(doubleSide.value))))
      && (doubleSide.None? && lastSide.Some? ==>
            && a.Some? && a.value.winner == Opposite(lastSide.value)
            && a.value.reason == (if wentOob then OutOfBounds(lastSide.value) else LastPosition(lastSide.value)))
      && (a.None? <==> doubleSide.None? && lastSide.None?)
  {
  }

  /**
   * At rally end, a winner gains exactly one point, the other side none, one
   * entry is logged and the flash is shown; without a winner the score and
   * log stay. Either way the out-of-bounds flag is cleared and the last side
   * is kept.
   */
  lemma RallyEndScores(s: ScoreState, frame: int, doubleSide: Option<Side>)
    ensures var r := AfterRallyEnd(s, frame, doubleSide);
      var a := Decide(doubleSide, s.wentOob, s.lastSide);
      && !r.wentOob && r.lastSide == s.lastSide && r.wasInBounds == s.wasInBounds
      && (a.Some? ==>
            && CountOf(r.score, a.value.winner) == CountOf(s.score, a.value.winner) + 1
            && CountOf(r.score, Opposite(a.value.winner)) == CountOf(s.score, Opposite(a.value.winner))
            && r.pointLog == s.pointLog + [PointEntry(frame, a.value.winner, a.value.reason)]
            && r.displayFrames == PointDisplayMax
            && r.lastWinner == Some(a.value.winner) && r.lastReason == Some(a.value.reason))
      && (a.None? ==> r == s.(wentOob := false))
  {
  }

  /** Rally end keeps the score consistent with the log, so the log is as long as the two scores together. */
  lemma RallyEndPreserves(s: ScoreState, frame: int, doubleSide: Option<Side>)
    requires Consistent(s)
    ensures Consistent(AfterRallyEnd(s, frame, doubleSide))
    ensures var r := AfterRallyEnd(s, frame, doubleSide);
      |r.pointLog| == r.score[Top] + r.score[Bottom]
  {
    var r := AfterRallyEnd(s, frame, doubleSide);
    var a := Decide(doubleSide, s.wentOob, s.lastSide);
    if a.Some? {
      var e := PointEntry(frame, a.value.winner, a.value.reason);
      WinsAppend(s.pointLog, e, Top);
      WinsAppend(s.pointLog, e, Bottom);
    }
    LogLengthIsTotal(r.pointLog);
  }

  // ---------------------------------------------------------------------
  // The scorer object
  // ---------------------------------------------------------------------

  class ScoreTracker {
    var score: SideCounts
    var pointLog: seq<PointEntry>
    var lastBallSide: Option<Side>
    var ballWasInBounds: bool
    var ballWentOob: bool
    var pointDisplayFrames: int
    var lastPointWinner: Option<Side>
    var lastPointReason: Option<Reason>

    /** The scorer's fields as one value. */
    function State(): ScoreState
      reads this
    {
      ScoreState(score, pointLog, lastBallSide, ballWasInBounds, ballWentOob,
                 pointDisplayFrames, lastPointWinner, lastPointReason)
    }

    constructor ()
      ensures State() == InitialScore && Consistent(State())
    {
      score := ZeroCounts;
      pointLog := [];
      lastBallSide := None;
      ballWasInBounds := false;
      ballWentOob := false;
      pointDisplayFrames := 0;
      lastPointWinner := None;
      lastPointReason := None;
    }

    /** `update`: called every frame. */
    method Update(ballProj: Option<Point>, ballInBounds: bool, ballSide: Option<Side>)
      requires Consistent(State())
      modifies this
      ensures State() == AfterUpdate(old(State()), ballProj, ballInBounds, ballSide)
      ensures Consistent(State())
    {
      UpdateTracksBall(State(), ballProj, ballInBounds, ballSide);
      if ballSide.Some? {
        lastBallSide := ballSide;
      }
      if ballWasInBounds && !ballInBounds && ballProj.Some? {
        ballWentOob := true;
      }
      ballWasInBounds := ballInBounds;
      if pointDisplayFrames > 0 {
        pointDisplayFrames := pointDisplayFrames - 1;
      }
    }

    /**
     * `on_rally_end`: asks the ball tracker for a double bounce, awards the
     * point, and resets the rally state here and in the tracker.
     */
    method OnRallyEnd(frameIdx: int, ballTracker: BallTracker) returns (award: Option<Award>)
      requires Consistent(State()) && WellFormed(ballTracker.State())
      modifies this, ballTracker
      ensures award == Decide(DoubleBounceSide(old(ballTracker.sideBounceCounts)),
                              old(ballWentOob), old(lastBallSide))
      ensures State() == AfterRallyEnd(old(State()), frameIdx,
                                       DoubleBounceSide(old(ballTracker.sideBounceCounts)))
      ensures ballTracker.State() == AfterResetRally(old(ballTracker.State()))
      ensures Consistent(State()) && WellFormed(ballTracker.State())
    {
      var doubleSide := ballTracker.HasDoubleBounce();
      award := Settle(frameIdx, doubleSide);
      ballTracker.ResetRallyState();
    }

    /** The part of `on_rally_end` that runs the heuristics on the tracker's double-bounce side and awards the point. */
    method Settle(frameIdx: int, doubleSide: Option<Side>) returns (award: Option<Award>)
      requires Consistent(State())
      modifies this
      ensures award == Decide(doubleSide, old(ballWentOob), old(lastBallSide))
      ensures State() == AfterRallyEnd(old(State()), frameIdx, doubleSide)
      ensures Consistent(State())
    {
      RallyEndPreserves(State(), frameIdx, doubleSide);
      award := None;
      if doubleSide.Some? {
        award := Some(Award(Opposite(doubleSide.value), DoubleBounce(doubleSide.value)));
      }
      if award.None? && ballWentOob && lastBallSide.Some? {
        award := Some(Award(Opposite(lastBallSide.value), OutOfBounds(lastBallSide.value)));
      }
      if award.None? && lastBallSide.Some? {
        award := Some(Award(Opposite(lastBallSide.value), LastPosition(lastBallSide.value)));
      }
      if award.Some? {
        var winner := award.value.winner;
        score := WithCount(score, winner, CountOf(score, winner) + 1);
        pointLog := pointLog + [PointEntry(frameIdx, winner, award.value.reason)];
        pointDisplayFrames := PointDisplayMax;
        lastPointWinner := Some(winner);
        lastPointReason := Some(award.value.reason);
      }
      ballWentOob := false;
    }

    /** `export_stats`. */
    method ExportStats() returns (e: ExportedStats)
      ensures e == ExportOf(State())
    {
      e := ExportedStats(score[Top], score[Bottom], pointLog);
    }
  }
}
