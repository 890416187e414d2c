/**
 * The live court map: a marker for each player and one for the ball, drawn
 * in the court diagram's own coordinates. The backend already emits
 * bird's-eye coordinates in that space, so the mapping is the identity, with
 * no scaling or clamping. A marker is drawn only when its coordinate array
 * has exactly two entries; a player standing in the kitchen is filled red.
 */
module BirdEyeMap {
  import opened Wrappers
  import opened LiveStats

  /** Marker fills: red for a player in the kitchen, otherwise the player's own colour. */
  datatype Fill = KitchenRed | PlayerAGreen | PlayerBCyan

  /** A player's circles, which share a centre, and the letter drawn on them. */
  datatype PlayerMarker = PlayerMarker(
    cx: real, cy: real, fill: Fill, letter: string, labelX: real, labelY: real)

  datatype BallMarker = BallMarker(cx: real, cy: real)

  /** What the map draws on top of the court lines. */
  datatype CourtMarkers = CourtMarkers(
    playerA: Option<PlayerMarker>,
    playerB: Option<PlayerMarker>,
    ball: Option<BallMarker>)

  /** Horizontal court coordinate to viewport coordinate. */
  function MapX(x: real): real { x }

  /** Vertical court coordinate to viewport coordinate. */
  function MapY(y: real): real { y }

  /** `stats?.kitchen?.players_in_kitchen || []`. */
  function PlayersInKitchen(stats: Option<Stats>): seq<int> {
    if KitchenOf(stats).Some? then KitchenOf(stats).value.playersInKitchen.GetOr([]) else []
  }

  /** `stats?.spatial || {}`. */
  function SpatialOf(stats: Option<Stats>): Spatial {
    if stats.Some? && stats.value.spatial.Some? then stats.value.spatial.value else Spatial(None, None)
  }

  /** `sp.player_birdseye?.[key]`. */
  function PlayerCoords(sp: Spatial, key: string): Option<seq<real>> {
    if sp.playerBirdseye.Some? && key in sp.playerBirdseye.value
    then Some(sp.playerBirdseye.value[key]) else None
  }

  /** The guard `p && p.length === 2`. */
  predicate Drawable(p: Option<seq<real>>) {
    p.Some? && |p.value| == 2
  }

  /** The markers for one player drawn at pair `p`. */
  function PlayerAt(p: seq<real>, index: int, colour: Fill, letter: string, inKitchen: seq<int>): PlayerMarker
    requires |p| == 2
  {
    PlayerMarker(MapX(p[0]), MapY(p[1]), if index in inKitchen then KitchenRed else colour,
                 letter, MapX(p[0]), MapY(p[1]) + 5.0)
  }

  /**
   * What it means for a player marker to be drawn from an optional pair:
   * drawn exactly when the pair has two entries, centred on the pair itself,
   * red exactly when the player is in the kitchen, labelled 5 units below
   * its centre.
   */
  predicate DrawnAsPlayer(marker: Option<PlayerMarker>, pair: Option<seq<real>>,
                          inKitchen: bool, letter: string, colour: Fill)
  {
    && (marker.Some? <==> pair.Some? && |pair.value| == 2)
    && (marker.Some? ==>
          && marker.value.cx == pair.value[0] && marker.value.cy == pair.value[1]
          && marker.value.fill == (if inKitchen then KitchenRed else colour)
          && marker.value.letter == letter
          && marker.value.labelX == marker.value.cx
          && marker.value.labelY == marker.value.cy + 5.0)
  }

  /** The markers `BirdEyeMap` draws for the given stats. */
  function Markers(stats: Option<Stats>): (m: CourtMarkers)
    ensures DrawnAsPlayer(m.playerA, PlayerPair(stats, "0"), ListedInKitchen(stats, 0), "A", PlayerAGreen)
    ensures DrawnAsPlayer(m.playerB, PlayerPair(stats, "1"), ListedInKitchen(stats, 1), "B", PlayerBCyan)
    ensures m.ball.Some? <==> BallPair(stats).Some? && |BallPair(stats).value| == 2
    ensures m.ball.Some? ==>
      m.ball.value.cx == BallPair(stats).value[0] && m.ball.value.cy == BallPair(stats).value[1]
  {
    var inKitchen := PlayersInKitchen(stats);
    var sp := SpatialOf(stats);
    var p0 := PlayerCoords(sp, "0");
    var p1 := PlayerCoords(sp, "1");
    var ball := sp.ballBirdseye;
    CourtMarkers(
      if Drawable(p0) then Some(PlayerAt(p0.value, 0, PlayerAGreen, "A", inKitchen)) else None,
      if Drawable(p1) then Some(PlayerAt(p1.value, 1, PlayerBCyan, "B", inKitchen)) else None,
      if Drawable(ball) then Some(BallMarker(MapX(ball.value[0]), MapY(ball.value[1]))) else None)
  }

  /** Missing stats or spatial data draws nothing, and without player positions no player is drawn. */
  lemma MissingDataDrawsNothing(stats: Option<Stats>)
    ensures stats.None? || stats.value.spatial.None? ==> Markers(stats) == CourtMarkers(None, None, None)
    ensures stats.Some? && stats.value.spatial.Some? && stats.value.spatial.value.playerBirdseye.None? ==>
      Markers(stats).playerA.None? && Markers(stats).playerB.None?
  {
  }

  /** Kitchen membership only recolours a player: which markers are drawn, and where, does not depend on it. */
  lemma KitchenOnlyRecolours(stats: Stats, kitchen: Option<Kitchen>)
    ensures var m1 := Markers(Some(stats));
      var m2 := Markers(Some(stats.(kitchen := kitchen)));
      && m1.ball == m2.ball
      && m1.playerA.Some? == m2.playerA.Some?
      && m1.playerB.Some? == m2.playerB.Some?
      && (m1.playerA.Some? ==> m1.playerA.value.(fill := PlayerAGreen) == m2.playerA.value.(fill := PlayerAGreen))
      && (m1.playerB.Some? ==> m1.playerB.value.(fill := PlayerBCyan) == m2.playerB.value.(fill := PlayerBCyan))
  {
  }
}
