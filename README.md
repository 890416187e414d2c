# Pickleball analytics: rally scoring and dashboard projections in Dafny

This project models two parts of a pickleball video-analytics system and proves properties of them.

**Rally scoring (Python backend).** `BallTracker` is a per-frame bounce detector. It keeps a window of the ball's last five vertical centres, a "was going down" flag, a 15-frame cooldown between bounces, a 3-frame display counter and a bounce count. It also records which half of the court the ball was last on and counts bounces per half. `ScoreTracker` watches for the ball going out of bounds. When a rally ends, it awards the point by a fixed priority: double bounce first, then out of bounds, then the ball's last position. It keeps a running score and a log of points.

Both trackers are classes with one field per mutable attribute; the fixed limits (`_history_len`, `_bounce_cooldown_max`, `_bounce_display_max`, `_point_display_max`) are module constants. A function `State()` bundles the fields into a datatype value. Each method is proved against a pure step function on that value (`AfterDetectBounce`, `AfterGetBallSide`, `AfterUpdate`, `AfterRallyEnd`, ...). The lemmas state what the source promises in terms of those functions:
- bounce conditions and counter behaviour
- two bounces are at least 15 calls apart
- the history window
- side tracking
- the winner heuristics
- the invariant that each side's score equals its number of log entries, so the log is as long as the two scores together

**Dashboard projections (TypeScript frontend).** The panels take the backend's untyped live-stats object. Here it is a datatype whose every field is an `Option`, and a coordinate array is an `Option<seq<real>>`. The modelled panels are:
- the court map: when markers are drawn, the identity mapping and kitchen colouring
- the video panel: progress, status, badge, video area, play/pause toggle, and the `m:ss` formatter `fmt`, which the component defines but does not call, so its text never appears on screen
- the stats tiles: tempo, rally frames and the constant accuracy tile
- the zone table: whole-object defaulting and three fixed rows

The files follow the sources: `ball_tracker.dfy`, `score_tracker.dfy`, `bird_eye_map.dfy`, `video_player.dfy`, `stats_panel.dfy` and `session_analytics.dfy`. Two files are shared: `live_stats.dfy` holds the input shape and `wrappers.dfy` holds `Option`.

Some behaviours of the dashboard code are worth stating outright:
- Zone counts default as a whole object: a `zone_counts` object that is present but lacks a field leaves that row's total missing (`SessionAnalytics.NoPerFieldDefault`).
- A court marker is drawn only when its coordinate array exists and has length 2. No sentinel value marks a position as undrawn.
- The status is whatever non-empty status string arrives, upper-cased, and "PROCESSING" otherwise.
- The progress is the reported `progress` multiplied by 100.
- The poll loop has no sequence-number guard against out-of-order responses, so none is modelled.

## Model

| member | source | states |
|---|---|---|
| BallTracking.BallTracker.constructor | Pickleball-Analytics/ball_tracker.py:38-54 | A new tracker has an empty history, counters at zero, no side and both side counts at zero, and is well formed |
| BallTracking.BallTracker.DetectBounce | Pickleball-Analytics/ball_tracker.py:65-113 | The new state is `AfterDetectBounce` of the old state, the returned value equals the stored bounce flag, and the tracker invariant is kept |
| BallTracking.BallTracker.ObserveCentre | Pickleball-Analytics/ball_tracker.py:84-111 | The part of a call that sees a ball: history push, bounce check and direction update, as `Observe` |
| BallTracking.DetectBounceClearsFlag | Pickleball-Analytics/ball_tracker.py:71 | The previous call's flag has no influence on the outcome: every call starts by clearing it |
| BallTracking.BounceConditions | Pickleball-Analytics/ball_tracker.py:91-104 | A bounce is reported iff a ball is seen, the history holds at least 3 centres, the ball was going down, the last step goes up and the ticked cooldown is 0. On a bounce, cooldown becomes 15, display becomes 3 and the count rises by exactly 1. Otherwise the counters tick and the count stays |
| BallTracking.CountersTick | Pickleball-Analytics/ball_tracker.py:73-82 | On every call that reports no bounce, with or without a ball, both counters drop by exactly 1 while positive, stay at 0 otherwise, and never go negative |
| BallTracking.NoBallFrame | Pickleball-Analytics/ball_tracker.py:81-82 | A frame without a ball reports no bounce. History, direction flag, bounce count and side state are unchanged |
| BallTracking.HistoryWindow | Pickleball-Analytics/ball_tracker.py:87-92 | The new centre is appended and the oldest is dropped beyond 5, so the window is the last min(n+1, 5) centres. With fewer than 3 there is no bounce |
| BallTracking.DirectionUpdate | Pickleball-Analytics/ball_tracker.py:107-111 | The direction flag becomes true after a downward step and false after an upward one, with down checked first. Otherwise it is unchanged, including while the history is short |
| BallTracking.DetectBouncePreserves | Pickleball-Analytics/ball_tracker.py:71-113 | The tracker invariant (history at most 5, cooldown in 0..15, display in 0..3, counts non-negative) is preserved |
| BallTracking.QuietWhileCooling | Pickleball-Analytics/ball_tracker.py:74-75 | While the cooldown exceeds k, none of the next k calls reports a bounce, whatever frames arrive |
| BallTracking.BounceSpacing | Pickleball-Analytics/ball_tracker.py:100-104 | In any sequence of frames, two reported bounces are at least 15 calls apart |
| BallTracking.BallTracker.GetBallSide | Pickleball-Analytics/ball_tracker.py:143-159 | The new state is `AfterGetBallSide` of the old one, the returned side is the side now recorded, and the tracker invariant is kept |
| BallTracking.GetBallSideWithoutData | Pickleball-Analytics/ball_tracker.py:148-149 | Without a projection or a midline, nothing changes and the previous side is returned |
| BallTracking.GetBallSideRecords | Pickleball-Analytics/ball_tracker.py:150-159 | With both, the recorded side is top iff y < midline. On a change of side only the new side's count is zeroed. Nothing else changes |
| BallTracking.BallTracker.UpdateSideBounce | Pickleball-Analytics/ball_tracker.py:161-164 | The new state is `AfterUpdateSideBounce` of the old one, and the tracker invariant is kept |
| BallTracking.UpdateSideBounceCounts | Pickleball-Analytics/ball_tracker.py:161-164 | A side's count rises by 1 exactly when a bounce was just flagged and that side is the known last side. Nothing else changes |
| BallTracking.DoubleBounceSide | Pickleball-Analytics/ball_tracker.py:166-171 | The reported side has a count of at least 2, bottom is reported only if top has fewer than 2, and the result is None iff both counts are below 2 |
| BallTracking.BallTracker.HasDoubleBounce | Pickleball-Analytics/ball_tracker.py:166-171 | Scanning the sides in dictionary order (top, bottom) returns `DoubleBounceSide` of the counts |
| BallTracking.SecondBounceIsDouble | Pickleball-Analytics/ball_tracker.py:161-171 | A second flagged bounce on the side the ball stayed on yields a double bounce |
| BallTracking.BallTracker.ResetRallyState | Pickleball-Analytics/ball_tracker.py:173-175 | The new state is `AfterResetRally` of the old one, and the tracker invariant is kept |
| BallTracking.ResetClearsDouble | Pickleball-Analytics/ball_tracker.py:173-175 | Both counts become 0, so no double bounce remains. The last side and everything else are kept |
| BallTracking.SideOperationsPreserve | Pickleball-Analytics/ball_tracker.py:148-175 | The side operations preserve the tracker invariant |
| BallTracking.ProcessAndProject | Pickleball-Analytics/ball_tracker.py:211-222 | With no ball the result is (None, None). With a ball but no homography it is (bbox, None). With both it is (bbox, projection of bbox) |
| ScoreTracking.Opposite | Pickleball-Analytics/score_tracker.py:33-35 | The opposite of a side is the other side |
| ScoreTracking.OppositeInvolution | Pickleball-Analytics/score_tracker.py:33-35 | `_opposite` is its own inverse |
| ScoreTracking.ReasonTextInjective | Pickleball-Analytics/score_tracker.py:60-74 | Different reasons have different texts, so a logged reason text names its heuristic and its side |
| ScoreTracking.ScoreTracker.constructor | Pickleball-Analytics/score_tracker.py:19-31 | A new scorer has 0-0, an empty log and no side, and is consistent |
| ScoreTracking.ScoreTracker.Update | Pickleball-Analytics/score_tracker.py:37-50 | The new state is `AfterUpdate` of the old one, and the score stays consistent with the log |
| ScoreTracking.UpdateTracksBall | Pickleball-Analytics/score_tracker.py:37-50 | A side is recorded only when known. The out-of-bounds flag becomes true only on an in-bounds to out-of-bounds step with a projection, and is never lowered. The display counter ticks down to 0. Score and log are unchanged |
| ScoreTracking.OutOfBoundsLatches | Pickleball-Analytics/score_tracker.py:42-46 | Over any number of updates, a raised out-of-bounds flag stays raised and the score and log do not move |
| ScoreTracking.DecidePriority | Pickleball-Analytics/score_tracker.py:60-74 | A double bounce wins for the opposite side whatever else happened. Otherwise, with a known last side, the opposite of that side wins whether or not the ball went out, and only the reason differs. There is no winner iff there is neither a double bounce nor a last side |
| ScoreTracking.RallyEndScores | Pickleball-Analytics/score_tracker.py:76-93 | With a winner, exactly that side's score rises by 1, one entry is appended and the display is set to 18. With none, the state is unchanged. In both cases the out-of-bounds flag is cleared and the last side is kept |
| ScoreTracking.ScoreTracker.OnRallyEnd | Pickleball-Analytics/score_tracker.py:52-95 | Returns the `Decide` verdict for the tracker's double-bounce side. The scorer's new state is `AfterRallyEnd`, and the ball tracker's side counts are reset. The scorer stays consistent and the tracker well formed |
| ScoreTracking.ScoreTracker.Settle | Pickleball-Analytics/score_tracker.py:57-92 | The part of a rally end that applies the heuristics to a given double-bounce side and awards the point: returns the `Decide` verdict, the new state is `AfterRallyEnd`, and the score stays consistent with the log |
| ScoreTracking.LogLengthIsTotal | Pickleball-Analytics/score_tracker.py:20-21 | Every log entry belongs to exactly one side |
| ScoreTracking.WinsAppend | Pickleball-Analytics/score_tracker.py:77-82 | Appending an entry adds one win to its winner and none to the other side |
| ScoreTracking.RallyEndPreserves | Pickleball-Analytics/score_tracker.py:76-82 | Rally end keeps each score equal to that side's log entries, so the log length equals top + bottom |
| ScoreTracking.ExportOf | Pickleball-Analytics/score_tracker.py:135-143 | Player A's score is top's and player B's is bottom's, and the log is exported with the same entries. For a consistent scorer, each exported score is that side's number of log entries, so the two add up to the log's length |
| ScoreTracking.ScoreTracker.ExportStats | Pickleball-Analytics/score_tracker.py:135-143 | Returns `ExportOf` of the current state: top as player A, bottom as player B, and the point log |
| BirdEyeMap.Markers | pickleball_frontend/src/components/BirdEyeMap.tsx:7-68 | A player's marker is drawn iff its pair under "0"/"1" exists with exactly 2 entries. Its centre is that pair unchanged, it is red iff its index is in `players_in_kitchen` (a missing list counts as empty), and its letter sits at (x, y+5). The ball is drawn iff its pair has exactly 2 entries, at that pair |
| BirdEyeMap.MissingDataDrawsNothing | pickleball_frontend/src/components/BirdEyeMap.tsx:10-13 | Missing stats or spatial data draws no marker, and missing player positions draw no player |
| BirdEyeMap.KitchenOnlyRecolours | pickleball_frontend/src/components/BirdEyeMap.tsx:52-62 | Changing the kitchen data changes no marker's presence or position, only a player's fill |
| VideoPlayer.Progress | pickleball_frontend/src/components/VideoPlayer.tsx:29 | Progress is non-zero iff the reported progress is present and non-zero, and then it is 100 times it. A progress in [0,1] gives a percentage in [0,100] |
| VideoPlayer.Status | pickleball_frontend/src/components/VideoPlayer.tsx:30 | A present, non-empty status is returned upper-cased, character by character and at the same length. Otherwise the status is "PROCESSING". It is never empty and has no lower-case letter |
| VideoPlayer.BadgeFor | pickleball_frontend/src/components/VideoPlayer.tsx:100-102 | The pulse dot shows iff the status is PROCESSING. The text is "LIVE – PROCESSING" then, otherwise the status |
| VideoPlayer.BadgeLiveWhileProcessing | pickleball_frontend/src/components/VideoPlayer.tsx:30 | The badge is live iff the status is missing or empty, or upper-cases to PROCESSING |
| VideoPlayer.SelectVideoArea | pickleball_frontend/src/components/VideoPlayer.tsx:48-68 | Without a (non-empty) job id the demo thumbnail shows. With one, playing shows that job's stream and paused shows the placeholder |
| VideoPlayer.PlayStateMattersOnlyWithVideo | pickleball_frontend/src/components/VideoPlayer.tsx:32-68 | The play state changes what is shown iff there is a job id |
| VideoPlayer.Player.constructor | pickleball_frontend/src/components/VideoPlayer.tsx:27 | The panel starts playing |
| VideoPlayer.Player.TogglePlay | pickleball_frontend/src/components/VideoPlayer.tsx:34-36 | Toggling flips the play state, so two toggles restore it |
| VideoPlayer.NatToStringRoundTrip | pickleball_frontend/src/components/VideoPlayer.tsx:41 | The decimal digits of a number read back as that number |
| VideoPlayer.TwoDigitSeconds | pickleball_frontend/src/components/VideoPlayer.tsx:40-41 | Seconds below 60, padded to two digits, are two decimal digits that read back as the seconds |
| VideoPlayer.FmtShape | pickleball_frontend/src/components/VideoPlayer.tsx:38-42 | For s >= 0 the text is s div 60, a colon and s mod 60 as exactly two digits |
| VideoPlayer.FmtRoundTrip | pickleball_frontend/src/components/VideoPlayer.tsx:38-42 | For s >= 0, reading the text back as minutes and seconds gives s again |
| StatsPanel.RoundHalfAway | pickleball_frontend/src/components/StatsPanel.tsx:8 | Rounding gives the nearest integer (within 1/2), with halves rounded away from zero |
| StatsPanel.RallyFrames | pickleball_frontend/src/components/StatsPanel.tsx:8 | 0 when `current_rally_s` is missing. Otherwise the seconds times the fixed 30 rounded to the nearest integer, with halves rounded away from zero (0 when the seconds are 0) |
| StatsPanel.Tempo | pickleball_frontend/src/components/StatsPanel.tsx:9 | The tempo is the reported tempo, or 0 when it or `rally` is missing |
| StatsPanel.PanelTiles | pickleball_frontend/src/components/StatsPanel.tsx:20-40 | The tempo is shown to one decimal, rounded to the nearest tenth with halves away from zero, with unit "R/MIN". The rally tile shows the frames, and accuracy is "98.2%" |
| StatsPanel.NoRallyShowsZeros | pickleball_frontend/src/components/StatsPanel.tsx:8-40 | Without rally data the tiles show 0.0 R/MIN and 0 frames, and the accuracy tile does not depend on the stats |
| SessionAnalytics.Rows | pickleball_frontend/src/components/SessionAnalytics.tsx:6-11 | There are exactly three rows, Top Backcrt, Kitchen and Bot Backcrt, each with Avg "Hits". Without zone counts all totals are 0. Otherwise each total is the matching field of the sent object |
| SessionAnalytics.NoPerFieldDefault | pickleball_frontend/src/components/SessionAnalytics.tsx:6 | A sent zone object that lacks a field leaves that row's total missing rather than 0 |

## Left out

- YOLO inference (`detect_frame`), model loading in the tracker's constructor, and all OpenCV drawing (`draw_bounce`, `draw_bbox`, `draw_score`) are left out. They are foreign library calls with visual output only.
- `project_ball` (a homography applied through OpenCV in 32-bit floating point) is left out. `ProcessAndProject` takes the projection as a parameter and models only which of its three results is returned.
- `interpolate_ball_positions` is left out. It relies on pandas' NaN interpolation and back/forward fill.
- The `print` logging of both trackers is left out. `ReasonText` gives the reason strings that the log entries carry. The log stores them as the `Reason` datatype.
- The backend's HTTP service, worker thread and job table are left out. So are the dashboard's poll loop, upload screen and screen routing. They are I/O and concurrency plumbing. The poll loop's `liveData?.stats || {}` is simply the `stats` input of the panels.
- The static panels without inputs are left out. So are heatmap image URLs, court line geometry, colours other than the kitchen fill, and the hover state of timeline markers.
- Floating point is modelled as exact `real` arithmetic. NaN and infinities are not modelled: JavaScript's falsy NaN is treated like any non-zero number.
- VideoPlayer.Fmt: models whole seconds only. The component's `Math.floor` on fractional seconds is not modelled. Negative seconds follow JavaScript's truncating `%`, but only non-negative seconds carry proved properties.
- VideoPlayer.ToUpper: upper-cases ASCII letters only. Unicode case mappings beyond ASCII are not modelled.
- StatsPanel.RoundHalfAway: models `toFixed` on exact reals. Rounding of binary floating-point values and the digit string `toFixed` produces are not modelled, so the tempo is kept as a number of tenths.
- BirdEyeMap.Markers: a coordinate array's entries are assumed to be numbers. Non-numeric entries in the untyped payload are not modelled.
- ScoreTracking.ExportOf: the exported point list is a copy of the log. In the source the returned dictionary shares the live `point_log` list, so it grows with later points; that aliasing is not modelled.
- ScoreTracking.ScoreTracker.ExportStats: returns a value, not a view of the scorer's live point log, for the same reason as `ExportOf`.
