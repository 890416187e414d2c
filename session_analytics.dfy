/**
 * The zone-intrusion table: one row per court zone with its hit count. The
 * zone counts default as a whole object: when the backend sends a
 * `zone_counts` object it is used as it is, so a field missing from it
 * stays missing in its row.
 */
module SessionAnalytics {
  import opened Wrappers
  import opened LiveStats

  /** One table row: the metric, its total (missing when the zone object lacks it) and the Avg column. */
  datatype Row = Row(metric: string, total: Option<int>, avg: string)

  /** The object used when no zone counts were sent. */
  const DefaultZones := ZoneCounts(Some(0), Some(0), Some(0))

  /** `stats?.kitchen?.zone_counts`. */
  function RawZones(stats: Option<Stats>): Option<ZoneCounts> {
    if KitchenOf(stats).Some? then KitchenOf(stats).value.zoneCounts else None
  }

  /** `stats?.kitchen?.zone_counts || { backcourt_top: 0, kitchen: 0, backcourt_bottom: 0 }`. */
  function Zones(stats: Option<Stats>): ZoneCounts {
    RawZones(stats).GetOr(DefaultZones)
  }

  /** The three rows, in fixed order, each total taken from the matching zone count. */
  function Rows(stats: Option<Stats>): (rows: seq<Row>)
    ensures |rows| == 3
    ensures rows[0].metric == "Top Backcrt" && rows[1].metric == "Kitchen" && rows[2].metric == "Bot Backcrt"
    ensures forall i :: 0 <= i < |rows| ==> rows[i].avg == "Hits"
    ensures RawZones(stats).None? ==> forall i :: 0 <= i < |rows| ==> rows[i].total == Some(0)
    ensures RawZones(stats).Some? ==>
      && rows[0].total == RawZones(stats).value.backcourtTop
      && rows[1].total == RawZones(stats).value.kitchen
      && rows[2].total == RawZones(stats).value.backcourtBottom
  {
    var z := Zones(stats);
    [ Row("Top Backcrt", z.backcourtTop, "Hits"),
      Row("Kitchen", z.kitchen, "Hits"),
      Row("Bot Backcrt", z.backcourtBottom, "Hits") ]
  }

  /** A zone object that lacks a field is not completed with a zero: that row's total stays missing. */
  lemma NoPerFieldDefault(stats: Stats, zones: ZoneCounts, k: Kitchen)
    requires stats.kitchen == Some(k) && k.zoneCounts == Some(zones) && zones.kitchen.None?
    ensures Rows(Some(stats))[1].total.None?
  {
  }
}
