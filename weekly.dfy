/** The weekly anchor (`getLastSundayMaxMin`): the high and low of the most
    recent daily candle that opened on a UTC Sunday. */
module Weekly {
  import opened Wrappers

  const MsPerDay: int := 86400000
  /** Largest magnitude of a valid JavaScript time value, in milliseconds. */
  const MaxTimeValue: int := 8640000000000000

  /** A daily candle: open time in epoch milliseconds, parsed high and low. */
  datatype Candle = Candle(openTime: int, high: real, low: real)

  /** The decoded body of a daily-candle request: a list, or anything else. */
  datatype Payload = Candles(items: seq<Candle>) | NotAList

  datatype Extrema = Extrema(max: real, min: real)

  /** `new Date(t).getUTCDay()`: day number floored, shifted by 4 because
      1970-01-01 was a Thursday; 0 is Sunday. Dafny's `/` and `%` with a
      positive divisor are floor division and a non-negative remainder, as the
      ECMAScript date arithmetic requires for times before 1970. */
  function UtcWeekday(t: int): (d: int)
    ensures 0 <= d < 7
  {
    (t / MsPerDay + 4) % 7
  }

  /** An out-of-range time makes an Invalid Date, whose weekday is NaN and
      never equals 0. */
  predicate IsSunday(t: int)
  {
    -MaxTimeValue <= t <= MaxTimeValue && UtcWeekday(t) == 0
  }

  /** One day later is the next weekday. */
  lemma {:induction false} WeekdayAdvances(t: int)
    ensures UtcWeekday(t + MsPerDay) == (UtcWeekday(t) + 1) % 7
  {
    assert (t + MsPerDay) / MsPerDay == t / MsPerDay + 1;
  }

  /** The calendar facts the formula rests on: the epoch is a Thursday,
      1970-01-04 and 2024-01-07 are Sundays, and the weekday has period 7 days. */
  lemma CalendarFacts(t: int)
    ensures UtcWeekday(0) == 4
    ensures IsSunday(3 * MsPerDay)
    ensures IsSunday(1704585600000)
    ensures UtcWeekday(t + 7 * MsPerDay) == UtcWeekday(t)
  {
    assert (t + 7 * MsPerDay) / MsPerDay == t / MsPerDay + 7;
  }

  /** Index of the highest-index Sunday candle, if any. */
  function LastSundayIndex(ks: seq<Candle>): (r: Option<nat>)
    ensures r.Some? ==> r.value < |ks| && IsSunday(ks[r.value].openTime)
    ensures r.Some? ==> forall j :: r.value < j < |ks| ==> !IsSunday(ks[j].openTime)
    ensures r.None? ==> forall j :: 0 <= j < |ks| ==> !IsSunday(ks[j].openTime)
  {
    if |ks| == 0 then None
    else if IsSunday(ks[|ks| - 1].openTime) then Some(|ks| - 1)
    else LastSundayIndex(ks[..|ks| - 1])
  }

  /** The anchor of a candle list: the last Sunday's extrema, else the last
      candle's; nothing for an empty list. */
  function WeeklyAnchor(ks: seq<Candle>): (r: Option<Extrema>)
    ensures r.None? <==> |ks| == 0
  {
    if |ks| == 0 then None
    else
      var c := match LastSundayIndex(ks)
               case Some(i) => ks[i]
               case None => ks[|ks| - 1];
      Some(Extrema(c.high, c.low))
  }

  function WeeklyAnchorOf(p: Payload): (r: Option<Extrema>)
    ensures r.None? <==> p.NotAList? || |p.items| == 0
  {
    match p
    case NotAList => None
    case Candles(ks) => WeeklyAnchor(ks)
  }

  /** The backward scan with early return. `None` stands for both variants'
      behaviour on an empty list: the first reads a missing last candle and
      throws, the second answers a NaN pair. */
  method LastSundayMaxMin(ks: seq<Candle>) returns (r: Option<Extrema>)
    ensures r == WeeklyAnchor(ks)
  {
    var i := |ks|;
    while i > 0
      invariant 0 <= i <= |ks|
      invariant forall j :: i <= j < |ks| ==> !IsSunday(ks[j].openTime)
    {
      i := i - 1;
      if IsSunday(ks[i].openTime) {
        return Some(Extrema(ks[i].high, ks[i].low));
      }
    }
    if |ks| == 0 {
      return None;
    }
    var last := ks[|ks| - 1];
    r := Some(Extrema(last.high, last.low));
  }

  /** The anchor is the highest-index Sunday candle. */
  lemma AnchorIsLatestSunday(ks: seq<Candle>, i: nat)
    requires i < |ks| && IsSunday(ks[i].openTime)
    requires forall j :: i < j < |ks| ==> !IsSunday(ks[j].openTime)
    ensures WeeklyAnchor(ks) == Some(Extrema(ks[i].high, ks[i].low))
  {
    var k := LastSundayIndex(ks);
    assert k.Some?;
    assert k.value == i;
  }

  /** Without a Sunday the anchor is the most recent candle. */
  lemma AnchorWithoutSunday(ks: seq<Candle>)
    requires |ks| > 0
    requires forall j :: 0 <= j < |ks| ==> !IsSunday(ks[j].openTime)
    ensures WeeklyAnchor(ks) == Some(Extrema(ks[|ks| - 1].high, ks[|ks| - 1].low))
  {
    assert LastSundayIndex(ks).None?;
  }

  /** A window holding exactly one Sunday candle anchors on it. */
  lemma AnchorOfSingleSunday(ks: seq<Candle>, i: nat)
    requires i < |ks| && IsSunday(ks[i].openTime)
    requires forall j :: 0 <= j < |ks| && j != i ==> !IsSunday(ks[j].openTime)
    ensures WeeklyAnchor(ks) == Some(Extrema(ks[i].high, ks[i].low))
  {
    AnchorIsLatestSunday(ks, i);
  }

  /** Candles appended after the last Sunday do not move the anchor. */
  lemma {:induction false} AnchorIgnoresLaterWeekdays(ks: seq<Candle>, later: seq<Candle>)
    requires LastSundayIndex(ks).Some?
    requires forall j :: 0 <= j < |later| ==> !IsSunday(later[j].openTime)
    ensures WeeklyAnchor(ks + later) == WeeklyAnchor(ks)
  {
    var i := LastSundayIndex(ks).value;
    var all := ks + later;
    forall j | i < j < |all|
      ensures !IsSunday(all[j].openTime)
    {
      if j < |ks| {
        assert all[j] == ks[j];
      } else {
        assert all[j] == later[j - |ks|];
      }
    }
    AnchorIsLatestSunday(all, i);
    AnchorIsLatestSunday(ks, i);
  }
}
