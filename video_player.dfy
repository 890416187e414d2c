/**
 * The video panel: the processing progress and status read from the live
 * data, the processing badge, the choice of what fills the video area, the
 * play/pause toggle and the `m:ss` time formatter.
 */
module VideoPlayer {
  import opened Wrappers
  import opened LiveStats

  /** `liveData?.progress ? liveData.progress * 100 : 0`: the progress as a percentage. */
  function Progress(live: Option<LiveData>): (p: real)
    ensures p != 0.0 <==> live.Some? && TruthyNumber(live.value.progress)
    ensures p != 0.0 ==> p == live.value.progress.value * 100.0
    ensures live.Some? && live.value.progress.Some? && 0.0 <= live.value.progress.value <= 1.0 ==>
      0.0 <= p <= 100.0
  {
    if live.Some? && TruthyNumber(live.value.progress) then live.value.progress.value * 100.0 else 0.0
  }

  /** ASCII upper-casing of one character. */
  function UpperChar(c: char): char {
    if 'a' <= c <= 'z' then (c as int - 32) as char else c
  }

  /** `toUpperCase`, on ASCII letters. */
  function ToUpper(s: string): (r: string)
    ensures |r| == |s|
    ensures forall i :: 0 <= i < |s| ==> r[i] == UpperChar(s[i])
  {
    if s == [] then [] else [UpperChar(s[0])] + ToUpper(s[1..])
  }

  /** A string with no lower-case ASCII letter. */
  predicate NoLowerCase(s: string) {
    forall i :: 0 <= i < |s| ==> !('a' <= s[i] <= 'z')
  }

  /** `liveData?.status ? liveData.status.toUpperCase() : "PROCESSING"`. */
  function Status(live: Option<LiveData>): (s: string)
    ensures s != ""
    ensures NoLowerCase(s)
    ensures live.Some? && TruthyString(live.value.status) ==> |s| == |live.value.status.value|
    ensures live.Some? && TruthyString(live.value.status) ==>
      forall i :: 0 <= i < |s| ==> s[i] == UpperChar(live.value.status.value[i])
    ensures !(live.Some? && TruthyString(live.value.status)) ==> s == "PROCESSING"
  {
    if live.Some? && TruthyString(live.value.status) then ToUpper(live.value.status.value) else "PROCESSING"
  }

  /** The processing badge: a pulsing dot and its text. */
  datatype Badge = Badge(pulseDot: bool, text: string)

  /** The badge for a status: "LIVE – PROCESSING" with a pulsing dot while processing, else the status. */
  function BadgeFor(status: string): (b: Badge)
    ensures b.pulseDot <==> status == "PROCESSING"
    ensures b.text == if status == "PROCESSING" then "LIVE – PROCESSING" else status
  {
    if status == "PROCESSING" then Badge(true, "LIVE – PROCESSING") else Badge(false, status)
  }

  /** The badge is live exactly when the status is missing, empty, or upper-cases to PROCESSING. */
  lemma BadgeLiveWhileProcessing(live: Option<LiveData>)
    ensures BadgeFor(Status(live)).pulseDot <==>
      !(live.Some? && TruthyString(live.value.status)) || ToUpper(live.value.status.value) == "PROCESSING"
  {
  }

  /** What fills the video area. */
  datatype VideoArea = DemoThumbnail | LiveStream(jobId: string) | StreamPaused

  /** `!!jobId`: a job identifier that is present and not empty. */
  predicate HasVideo(jobId: Option<string>) {
    TruthyString(jobId)
  }

  /** The video area: the demo thumbnail without a job, else the stream while playing and a placeholder while paused. */
  function SelectVideoArea(jobId: Option<string>, playing: bool): (v: VideoArea)
    ensures !HasVideo(jobId) ==> v == DemoThumbnail
    ensures HasVideo(jobId) && playing ==> v == LiveStream(jobId.value)
    ensures HasVideo(jobId) && !playing ==> v == StreamPaused
  {
    if HasVideo(jobId) then (if playing then LiveStream(jobId.value) else StreamPaused) else DemoThumbnail
  }

  /** Without a job the play state makes no difference; with one, the two states show different things. */
  lemma PlayStateMattersOnlyWithVideo(jobId: Option<string>)
    ensures SelectVideoArea(jobId, true) == SelectVideoArea(jobId, false) <==> !HasVideo(jobId)
  {
  }

  /** The panel's play/pause state. */
  class Player {
    var playing: bool

    /** The panel starts out playing. */
    constructor ()
      ensures playing
    {
      playing := true;
    }

    /** `togglePlay`, the only writer of the state: flips it, so two toggles restore it. */
    method TogglePlay()
      modifies this
      ensures playing == !old(playing)
    {
      playing := !playing;
    }
  }

  // ---------------------------------------------------------------------
  // The m:ss formatter
  // ---------------------------------------------------------------------

  /** The decimal digit for `d`. */
  function DigitChar(d: int): char
    requires 0 <= d < 10
  {
    ('0' as int + d) as char
  }

  predicate IsDigit(c: char) {
    '0' <= c <= '9'
  }

  predicate AllDigits(s: string) {
    forall i :: 0 <= i < |s| ==> IsDigit(s[i])
  }

  /** `n.toString()` for a natural number. */
  function NatToString(n: nat): (s: string)
    ensures |s| >= 1 && AllDigits(s)
  {
    if n < 10 then [DigitChar(n)] else NatToString(n / 10) + [DigitChar(n % 10)]
  }

  /** `i.toString()` for an integer. */
  function IntToString(i: int): string {
    if i < 0 then "-" + NatToString(-i) else NatToString(i)
  }

  /** `padStart(2, "0")`. */
  function PadStart2(t: string): string {
    if |t| >= 2 then t else seq(2 - |t|, _ => '0') + t
  }

  /** JavaScript's `%` with a positive divisor: the remainder takes the dividend's sign. */
  function JsRemainder(s: int, d: int): int
    requires d > 0
  {
    if s >= 0 then s % d else -((-s) % d)
  }

  /** `fmt` on a whole number of seconds: minutes, a colon and the seconds padded to two digits. */
  function Fmt(s: int): string {
    IntToString(s / 60) + ":" + PadStart2(IntToString(JsRemainder(s, 60)))
  }

  /** The value of a string of decimal digits. */
  function ParseNat(s: string): nat
    requires AllDigits(s)
  {
    if s == [] then 0 else ParseNat(s[..|s| - 1]) * 10 + (s[|s| - 1] as int - '0' as int)
  }

  /** Reads back `m:ss`: the minutes before the colon, two digits of seconds after it. */
  function ParseClock(t: string): Option<int> {
    if |t| >= 4 && t[|t| - 3] == ':' && AllDigits(t[..|t| - 3]) && AllDigits(t[|t| - 2..])
    then Some(ParseNat(t[..|t| - 3]) * 60 + ParseNat(t[|t| - 2..]))
    else None
  }

  /** Decimal digits read back as the number they were written from. */
  lemma {:induction false} NatToStringRoundTrip(n: nat)
    ensures ParseNat(NatToString(n)) == n
  {
    if n >= 10 {
      var s := NatToString(n);
      var prefix := NatToString(n / 10);
      assert s[..|s| - 1] == prefix;
      NatToStringRoundTrip(n / 10);
    }
  }

  /** Seconds below 60, padded to two digits, and read back. */
  lemma TwoDigitSeconds(sec: int)
    requires 0 <= sec < 60
    ensures PadStart2(IntToString(sec)) == [DigitChar(sec / 10), DigitChar(sec % 10)]
    ensures AllDigits([DigitChar(sec / 10), DigitChar(sec % 10)])
    ensures ParseNat([DigitChar(sec / 10), DigitChar(sec % 10)]) == sec
  {
    var ss := [DigitChar(sec / 10), DigitChar(sec % 10)];
    if sec < 10 {
      assert NatToString(sec) == [DigitChar(sec)];
    } else {
      assert NatToString(sec / 10) == [DigitChar(sec / 10)];
    }
    assert ss[..1] == [DigitChar(sec / 10)] && [DigitChar(sec / 10)][..0] == [];
    assert ParseNat(ss[..1]) == sec / 10;
  }

  /**
   * For whole seconds s >= 0 the text is the minutes s / 60, a colon and the
   * seconds s % 60 as exactly two digits.
   */
  lemma FmtShape(s: nat)
    ensures var sec := s % 60;
      Fmt(s) == NatToString(s / 60) + ":" + [DigitChar(sec / 10), DigitChar(sec % 10)]
  {
    assert JsRemainder(s, 60) == s % 60;
    TwoDigitSeconds(s % 60);
  }

  /** Reading back the text of whole seconds s >= 0 gives s. */
  lemma FmtRoundTrip(s: nat)
    ensures ParseClock(Fmt(s)) == Some(s)
  {
    var m, sec := s / 60, s % 60;
    var mm := NatToString(m);
    var ss := [DigitChar(sec / 10), DigitChar(sec % 10)];
    FmtShape(s);
    TwoDigitSeconds(sec);
    NatToStringRoundTrip(m);
    var t := Fmt(s);
    assert t[..|t| - 3] == mm && t[|t| - 2..] == ss;
    assert ParseNat(mm) * 60 + ParseNat(ss) == s;
  }
}
