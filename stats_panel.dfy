/**
 * The stats panel: the rally tempo tile, the current rally length in
 * frames, and the in/out accuracy tile.
 */
module StatsPanel {
  import opened Wrappers
  import opened LiveStats

  /** The frame rate the panel assumes when turning rally seconds into frames; the reported fps is not used. */
  const AssumedFrameRate := 30.0

  /** The accuracy tile's text, which does not depend on the stats. */
  const AccuracyText := "98.2%"

  /** The unit shown after the tempo. */
  const TempoUnit := "R/MIN"

  /** `toFixed` to a whole number: the nearest integer, halves rounded away from zero. */
  function RoundHalfAway(x: real): (n: int)
    ensures x - 0.5 <= n as real <= x + 0.5
    ensures x >= 0.0 ==> x - 0.5 < n as real
    ensures x < 0.0 ==> n as real < x + 0.5
  {
    if x >= 0.0 then (x + 0.5).Floor else -((-x + 0.5).Floor)
  }

  /** `stats?.rally?.current_rally_s`. */
  function CurrentRallyS(stats: Option<Stats>): Option<real> {
    if RallyOf(stats).Some? then RallyOf(stats).value.currentRallyS else None
  }

  /** `stats?.rally?.tempo_rallies_per_min`. */
  function RawTempo(stats: Option<Stats>): Option<real> {
    if RallyOf(stats).Some? then RallyOf(stats).value.tempoRalliesPerMin else None
  }

  /** `rallyFrames`: the rally's seconds times 30, rounded, or 0 when the seconds are missing or zero. */
  function RallyFrames(stats: Option<Stats>): (n: int)
    ensures CurrentRallyS(stats).None? ==> n == 0
    ensures CurrentRallyS(stats).Some? ==>
      var secs := CurrentRallyS(stats).value;
      secs * AssumedFrameRate - 0.5 <= n as real <= secs * AssumedFrameRate + 0.5
    ensures CurrentRallyS(stats).Some? ==>
      var x := CurrentRallyS(stats).value * AssumedFrameRate;
      (x >= 0.0 ==> x - 0.5 < n as real) && (x < 0.0 ==> n as real < x + 0.5)
  {
    if TruthyNumber(CurrentRallyS(stats)) then RoundHalfAway(CurrentRallyS(stats).value * AssumedFrameRate)
    else 0
  }

  /** `tempo`: `tempo_rallies_per_min || 0`, which is the reported tempo, or 0 when it is missing. */
  function Tempo(stats: Option<Stats>): (t: real)
    ensures t == RawTempo(stats).GetOr(0.0)
  {
    if TruthyNumber(RawTempo(stats)) then RawTempo(stats).value else 0.0
  }

  /** What the panel shows: the tempo in tenths (one decimal) with its unit, the rally frames and the accuracy. */
  datatype Tiles = Tiles(tempoTenths: int, tempoUnit: string, rallyFrames: int, accuracy: string)

  function PanelTiles(stats: Option<Stats>): (t: Tiles)
    ensures t.tempoUnit == "R/MIN" && t.accuracy == "98.2%"
    ensures Tempo(stats) * 10.0 - 0.5 <= t.tempoTenths as real <= Tempo(stats) * 10.0 + 0.5
    ensures var x := Tempo(stats) * 10.0;
      (x >= 0.0 ==> x - 0.5 < t.tempoTenths as real) && (x < 0.0 ==> t.tempoTenths as real < x + 0.5)
    ensures t.rallyFrames == RallyFrames(stats)
  {
    Tiles(RoundHalfAway(Tempo(stats) * 10.0), TempoUnit, RallyFrames(stats), AccuracyText)
  }

  /** With no rally data every number is zero, and the accuracy tile is the same for any stats. */
  lemma NoRallyShowsZeros(stats: Option<Stats>, other: Option<Stats>)
    requires RallyOf(stats).None?
    ensures PanelTiles(stats) == Tiles(0, "R/MIN", 0, "98.2%")
    ensures PanelTiles(stats).accuracy == PanelTiles(other).accuracy
  {
  }
}
