/**
 * The shape of the live statistics the dashboard receives from the
 * analytics backend. The payload is untyped in the dashboard; every field
 * that the panels read may be missing, so each is an `Option`, and a
 * coordinate pair is a sequence so that a wrong length can be expressed.
 * Fields that no modelled panel reads are not represented.
 */
module LiveStats {
  import opened Wrappers

  datatype Rally = Rally(currentRallyS: Option<real>, tempoRalliesPerMin: Option<real>)

  datatype ZoneCounts = ZoneCounts(
    backcourtTop: Option<int>,
    kitchen: Option<int>,
    backcourtBottom: Option<int>)

  datatype Kitchen = Kitchen(playersInKitchen: Option<seq<int>>, zoneCounts: Option<ZoneCounts>)

  /** Bird's-eye positions: players keyed "0" and "1", and the ball. */
  datatype Spatial = Spatial(
    playerBirdseye: Option<map<string, seq<real>>>,
    ballBirdseye: Option<seq<real>>)

  /** The `stats` object of a live-stats response. */
  datatype Stats = Stats(rally: Option<Rally>, kitchen: Option<Kitchen>, spatial: Option<Spatial>)

  /** A whole live-stats response. */
  datatype LiveData = LiveData(progress: Option<real>, status: Option<string>, stats: Option<Stats>)

  /** JavaScript truthiness of an optional number: missing and zero are falsy. */
  predicate TruthyNumber(x: Option<real>) {
    x.Some? && x.value != 0.0
  }

  /** JavaScript truthiness of an optional string: missing and empty are falsy. */
  predicate TruthyString(x: Option<string>) {
    x.Some? && x.value != ""
  }

  /** `stats?.rally`. */
  function RallyOf(stats: Option<Stats>): Option<Rally> {
    if stats.Some? then stats.value.rally else None
  }

  /** `stats?.kitchen`. */
  function KitchenOf(stats: Option<Stats>): Option<Kitchen> {
    if stats.Some? then stats.value.kitchen else None
  }

  /** `stats?.spatial?.player_birdseye?.[key]`. */
  function PlayerPair(stats: Option<Stats>, key: string): Option<seq<real>> {
    if stats.Some? && stats.value.spatial.Some? && stats.value.spatial.value.playerBirdseye.Some?
       && key in stats.value.spatial.value.playerBirdseye.value
    then Some(stats.value.spatial.value.playerBirdseye.value[key])
    else None
  }

  /** `stats?.spatial?.ball_birdseye`. */
  function BallPair(stats: Option<Stats>): Option<seq<real>> {
    if stats.Some? && stats.value.spatial.Some? then stats.value.spatial.value.ballBirdseye else None
  }

  /** `stats?.kitchen?.players_in_kitchen?.includes(index)`, false when any link is missing. */
  predicate ListedInKitchen(stats: Option<Stats>, index: int) {
    && KitchenOf(stats).Some?
    && KitchenOf(stats).value.playersInKitchen.Some?
    && index in KitchenOf(stats).value.playersInKitchen.value
  }
}
