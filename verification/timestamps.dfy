/** The two fixed-width timestamp grammars of the timetable service
    (model.go:8-36): the compact `YYMMDDHHMM` attribute type `Time` and the
    verbose `YY-MM-DD HH:MM:SS.mmm` attribute type `DateTime`.

    Both wrap a Go `time.Time`; the model keeps only its calendar fields, and
    Go's zero time (what an attribute that never arrived leaves behind) is the
    separate constructor `Unset`. */
module Timestamps {
  import opened Wrappers
  import opened Digits
  import opened Layouts

  /** The calendar fields of a Go `time.Time` in UTC. */
  datatype Moment = Moment(year: int, month: int, day: int,
                           hour: int, minute: int, second: int, nanosecond: int)

  /** A timestamp field: unset (Go's zero time, `IsZero()` holds) or a moment. */
  datatype Stamp = Unset | At(moment: Moment) {
    predicate IsZero() {
      Unset?
    }
  }

  /** The error `time.Parse` reports: the layout and the rejected value. */
  datatype TimeError = TimeError(layout: string, value: string)

  /** The layout string of `Time.UnmarshalXMLAttr` (model.go:16). */
  const CompactLayout := "0601021504"

  /** The layout string of `DateTime.UnmarshalXMLAttr` (model.go:30). */
  const VerboseLayout := "06-01-02 15:04:05.000"

  /** The Gregorian leap-year rule of Go's calendar. */
  predicate IsLeap(year: int) {
    year % 4 == 0 && (year % 100 != 0 || year % 400 == 0)
  }

  function DaysIn(month: int, year: int): int
    requires 1 <= month <= 12
  {
    if month == 2 then (if IsLeap(year) then 29 else 28)
    else if month == 4 || month == 6 || month == 9 || month == 11 then 30
    else 31
  }

  /** The range checks `time.Parse` applies to the fields it read, and the
      invariant every Go `time.Time` keeps. */
  predicate ValidMoment(m: Moment) {
    && 1 <= m.month <= 12
    && 1 <= m.day <= DaysIn(m.month, m.year)
    && 0 <= m.hour < 24
    && 0 <= m.minute < 60
    && 0 <= m.second < 60
    && 0 <= m.nanosecond < 1_000_000_000
  }

  /** Go's pivot for the two-digit year `06`: 69-99 are 19xx, 00-68 are 20xx. */
  function FullYear(yy: nat): (year: int)
    requires yy < 100
    ensures InPivotRange(year) && year % 100 == yy
  {
    if yy >= 69 then 1900 + yy else 2000 + yy
  }

  /** The years a two-digit year can denote. */
  predicate InPivotRange(year: int) {
    1969 <= year <= 2068
  }

  function Abs(n: int): nat {
    if n < 0 then -n else n
  }

  /** The chunks of Go's layout `060102`: year, month and day. */
  const DateChunks: Layout := [Chunk("", 2), Chunk("", 2), Chunk("", 2)]

  /** The chunks `1504` of the hour and the minute. */
  const HourMinuteChunks: Layout := [Chunk("", 2), Chunk("", 2)]

  /** The chunks of `0601021504` (model.go:16). Go reads the hour chunk `15`
      greedily, so in ten digits every field is two digits wide. */
  const CompactChunks: Layout := DateChunks + HourMinuteChunks

  /** The chunks of `06-01-02 15:04:05.000` (model.go:30); Go's `.000` chunk
      is the decimal point followed by exactly three digits. */
  const VerboseChunks: Layout := VerboseDateChunks + VerboseClockChunks

  const VerboseDateChunks: Layout := [Chunk("", 2), Chunk("-", 2), Chunk("-", 2)]

  const VerboseClockChunks: Layout :=
    [Chunk(" ", 2), Chunk(":", 2), Chunk(":", 2), Chunk(".", 3)]

  lemma ChunkWidths()
    ensures Pow10(2) == 100 && Pow10(3) == 1000
    ensures |DateChunks| == 3 && |CompactChunks| == 5 && |VerboseChunks| == 7
    ensures forall k :: 0 <= k < 5 ==> CompactChunks[k].width == 2
    ensures forall k :: 0 <= k < 6 ==> VerboseChunks[k].width == 2
    ensures VerboseChunks[6].width == 3
  {
  }

  /** The values Go's `Format` writes for `06`, `01`, `02`: the year's last
      two digits (of its magnitude), the month and the day. */
  function DateFields(m: Moment): seq<nat>
    requires ValidMoment(m)
  {
    [Abs(m.year) % 100, m.month, m.day]
  }

  function CompactFields(m: Moment): seq<nat>
    requires ValidMoment(m)
  {
    DateFields(m) + [m.hour, m.minute]
  }

  /** The sub-second chunk `.000` writes whole milliseconds (truncating). */
  function VerboseFields(m: Moment): seq<nat>
    requires ValidMoment(m)
  {
    DateFields(m) + ClockFields(m)
  }

  function ClockFields(m: Moment): seq<nat>
    requires ValidMoment(m)
  {
    [m.hour, m.minute, m.second, m.nanosecond / 1_000_000]
  }

  /** Go's `Format("060102")`. */
  function DatePart(m: Moment): string
    requires ValidMoment(m)
  {
    ChunkWidths();
    Render(DateChunks, DateFields(m))
  }

  /** Go's `Format("0601021504")`. */
  function FormatCompact(m: Moment): string
    requires ValidMoment(m)
  {
    ChunkWidths();
    Render(CompactChunks, CompactFields(m))
  }

  /** Go's `Format("06-01-02 15:04:05.000")`. */
  function FormatVerbose(m: Moment): string
    requires ValidMoment(m)
  {
    ChunkWidths();
    Render(VerboseChunks, VerboseFields(m))
  }

  /** `time.Parse("0601021504", s)` (model.go:16). It succeeds only on the
      compact renderings of valid moments in the two-digit-year range whose
      seconds and nanoseconds are zero; `CompactRoundTrip` is the converse. */
  function ParseCompact(s: string): (r: Result<Stamp, TimeError>)
    ensures r.Success? ==> r.value.At?
    ensures r.Success? ==> var m := r.value.moment;
      && ValidMoment(m) && InPivotRange(m.year)
      && m.second == 0 && m.nanosecond == 0
      && FormatCompact(m) == s
    ensures r.Failure? ==> r.error == TimeError(CompactLayout, s)
  {
    match Scan(s, CompactChunks)
    case None => Failure(TimeError(CompactLayout, s))
    case Some(vs) =>
      CompactScanned(s, vs);
      var m := CompactMomentOf(vs);
      if ValidMoment(m) then Success(At(m)) else Failure(TimeError(CompactLayout, s))
  }

  /** The moment five scanned compact fields denote. */
  function CompactMomentOf(vs: seq<nat>): Moment
    requires |vs| == 5 && vs[0] < 100
  {
    Moment(FullYear(vs[0]), vs[1], vs[2], vs[3], vs[4], 0, 0)
  }

  /** Scanned compact fields denote a moment whose rendering is the scanned
      text, whenever that moment is valid. */
  lemma CompactScanned(s: string, vs: seq<nat>)
    requires Scan(s, CompactChunks) == Some(vs)
    ensures |vs| == 5 && vs[0] < 100
    ensures ValidMoment(CompactMomentOf(vs)) ==> FormatCompact(CompactMomentOf(vs)) == s
  {
    ScannedYear(s, CompactChunks);
    var m := CompactMomentOf(vs);
    if ValidMoment(m) {
      RenderScan(s, CompactChunks);
      assert CompactFields(m) == vs;
    }
  }

  /** `time.Parse("06-01-02 15:04:05.000", s)` (model.go:30). It succeeds only
      on the verbose renderings of valid moments in the two-digit-year range
      whose sub-second part is whole milliseconds; `VerboseRoundTrip` is the
      converse. */
  function ParseVerbose(s: string): (r: Result<Stamp, TimeError>)
    ensures r.Success? ==> r.value.At?
    ensures r.Success? ==> var m := r.value.moment;
      && ValidMoment(m) && InPivotRange(m.year)
      && m.nanosecond % 1_000_000 == 0
      && FormatVerbose(m) == s
    ensures r.Failure? ==> r.error == TimeError(VerboseLayout, s)
  {
    match Scan(s, VerboseChunks)
    case None => Failure(TimeError(VerboseLayout, s))
    case Some(vs) =>
      VerboseScanned(s, vs);
      var m := VerboseMomentOf(vs);
      if ValidMoment(m) then Success(At(m)) else Failure(TimeError(VerboseLayout, s))
  }

  /** The moment seven scanned verbose fields denote; the last field is
      milliseconds. */
  function VerboseMomentOf(vs: seq<nat>): Moment
    requires |vs| == 7 && vs[0] < 100
  {
    Moment(FullYear(vs[0]), vs[1], vs[2], vs[3], vs[4], vs[5], vs[6] * 1_000_000)
  }

  /** Scanned verbose fields denote a moment of whole milliseconds whose
      rendering is the scanned text, whenever that moment is valid. */
  lemma VerboseScanned(s: string, vs: seq<nat>)
    requires Scan(s, VerboseChunks) == Some(vs)
    ensures |vs| == 7 && vs[0] < 100
    ensures VerboseMomentOf(vs).nanosecond % 1_000_000 == 0
    ensures ValidMoment(VerboseMomentOf(vs)) ==> FormatVerbose(VerboseMomentOf(vs)) == s
  {
    ScannedYear(s, VerboseChunks);
    var m := VerboseMomentOf(vs);
    Millis(vs[6]);
    if ValidMoment(m) {
      RenderScan(s, VerboseChunks);
      assert DateFields(m) == vs[..3];
      assert ClockFields(m) == vs[3..];
      assert VerboseFields(m) == vs;
    }
  }

  /** The first field of a scan against two-digit chunks is below 100. */
  lemma ScannedYear(s: string, l: Layout)
    requires l == CompactChunks || l == VerboseChunks
    requires Scan(s, l).Some?
    ensures |Scan(s, l).value| == |l| && Scan(s, l).value[0] < 100
  {
    ChunkWidths();
    ScanFits(s, l);
    assert Scan(s, l).value[0] < Pow10(l[0].width);
  }

  /** Milliseconds scaled to nanoseconds and back. */
  lemma Millis(ms: nat)
    ensures (ms * 1_000_000) % 1_000_000 == 0 && (ms * 1_000_000) / 1_000_000 == ms
  {
  }

  /** The moments the compact grammar can denote. */
  predicate CompactMoment(m: Moment) {
    ValidMoment(m) && InPivotRange(m.year) && m.second == 0 && m.nanosecond == 0
  }

  /** The moments the verbose grammar can denote. */
  predicate VerboseMoment(m: Moment) {
    ValidMoment(m) && InPivotRange(m.year) && m.nanosecond % 1_000_000 == 0
  }

  /** What an `UnmarshalXMLAttr` call leaves in its receiver, and the error it
      returns. */
  datatype Unmarshalled = Unmarshalled(receiver: Stamp, err: Option<TimeError>)

  /** `Time.UnmarshalXMLAttr` (model.go:14-22): on a parse error the receiver
      keeps its previous value; on success the whole value is replaced by a
      set timestamp. */
  function UnmarshalCompact(prev: Stamp, value: string): (u: Unmarshalled)
    ensures u.err.Some? <==> !ParseCompact(value).Success?
    ensures u.err.Some? ==> u.receiver == prev && u.err.value == TimeError(CompactLayout, value)
    ensures u.err.None? ==>
      u.receiver.At? && CompactMoment(u.receiver.moment) && FormatCompact(u.receiver.moment) == value
  {
    match ParseCompact(value)
    case Failure(e) => Unmarshalled(prev, Some(e))
    case Success(t) => Unmarshalled(t, None)
  }

  /** `DateTime.UnmarshalXMLAttr` (model.go:29-36), with the same receiver
      discipline as `UnmarshalCompact`. */
  function UnmarshalVerbose(prev: Stamp, value: string): (u: Unmarshalled)
    ensures u.err.Some? <==> !ParseVerbose(value).Success?
    ensures u.err.Some? ==> u.receiver == prev && u.err.value == TimeError(VerboseLayout, value)
    ensures u.err.None? ==>
      u.receiver.At? && VerboseMoment(u.receiver.moment) && FormatVerbose(u.receiver.moment) == value
  {
    match ParseVerbose(value)
    case Failure(e) => Unmarshalled(prev, Some(e))
    case Success(t) => Unmarshalled(t, None)
  }

  /** The two-digit year of a year in the pivot range gives it back. */
  lemma FullYearOfAbs(year: int)
    requires InPivotRange(year)
    ensures FullYear(Abs(year) % 100) == year
  {
  }

  lemma CompactFieldsFit(m: Moment)
    requires ValidMoment(m)
    ensures Fits(CompactChunks, CompactFields(m))
  {
    ChunkWidths();
  }

  lemma VerboseFieldsFit(m: Moment)
    requires ValidMoment(m)
    ensures Fits(VerboseChunks, VerboseFields(m))
  {
    ChunkWidths();
  }

  /** Whole milliseconds survive the trip through the three-digit field. */
  lemma WholeMillis(ns: int)
    requires 0 <= ns && ns % 1_000_000 == 0
    ensures ns / 1_000_000 * 1_000_000 == ns
  {
  }

  /** Formatting a valid moment in the two-digit-year range with no seconds
      and parsing it back gives the same fields. */
  lemma CompactRoundTrip(m: Moment)
    requires ValidMoment(m) && InPivotRange(m.year)
    requires m.second == 0 && m.nanosecond == 0
    ensures ParseCompact(FormatCompact(m)) == Success(At(m))
  {
    CompactFieldsFit(m);
    ScanRender(CompactChunks, CompactFields(m));
    FullYearOfAbs(m.year);
  }

  /** Formatting a valid moment in the two-digit-year range whose sub-second
      part is whole milliseconds and parsing it back gives the same fields. */
  lemma VerboseRoundTrip(m: Moment)
    requires ValidMoment(m) && InPivotRange(m.year)
    requires m.nanosecond % 1_000_000 == 0
    ensures ParseVerbose(FormatVerbose(m)) == Success(At(m))
  {
    VerboseFieldsFit(m);
    ScanRender(VerboseChunks, VerboseFields(m));
    FullYearOfAbs(m.year);
    WholeMillis(m.nanosecond);
  }

  /** Two zero-padded digits, spelled out. */
  lemma Pad2(n: nat)
    requires n < 100
    ensures Pad(n, 2) == [DigitChar(n / 10), DigitChar(n % 10)]
  {
    var t := n / 10;
    assert t < 10 && t / 10 == 0 && t % 10 == t;
    assert Pad(t, 1) == Pad(0, 0) + [DigitChar(t)];
  }

  /** Three zero-padded digits, spelled out. */
  lemma Pad3(n: nat)
    requires n < 1000
    ensures Pad(n, 3) == [DigitChar(n / 100), DigitChar(n / 10 % 10), DigitChar(n % 10)]
  {
    Pad2(n / 10);
    assert n / 10 / 10 == n / 100;
  }

  /** The date layout written out field by field. */
  lemma DateSpelled(m: Moment)
    requires ValidMoment(m)
    ensures DatePart(m) == Pad(Abs(m.year) % 100, 2) + (Pad(m.month, 2) + Pad(m.day, 2))
  {
    var c := Chunk("", 2);
    RenderThree(c, c, c, Abs(m.year) % 100, m.month, m.day);
  }

  /** The compact layout written out field by field. */
  lemma CompactSpelled(m: Moment)
    requires ValidMoment(m)
    ensures FormatCompact(m) == DatePart(m) + (Pad(m.hour, 2) + Pad(m.minute, 2))
  {
    var hm := [m.hour, m.minute];
    assert CompactFields(m) == DateFields(m) + hm;
    RenderAppend(DateChunks, HourMinuteChunks, DateFields(m), hm);
    RenderTwo(Chunk("", 2), Chunk("", 2), m.hour, m.minute);
  }

  /** The verbose layout is its date half followed by its clock half. */
  lemma VerboseHalves(m: Moment)
    requires ValidMoment(m)
    ensures FormatVerbose(m)
         == Render(VerboseDateChunks, DateFields(m)) + Render(VerboseClockChunks, ClockFields(m))
  {
    RenderAppend(VerboseDateChunks, VerboseClockChunks, DateFields(m), ClockFields(m));
  }

  /** `YY-MM-DD`, the date half of the verbose layout, written out. */
  lemma VerboseDateSpelled(m: Moment)
    requires ValidMoment(m)
    ensures Render(VerboseDateChunks, DateFields(m))
         == Pad(Abs(m.year) % 100, 2) + (("-" + Pad(m.month, 2)) + ("-" + Pad(m.day, 2)))
  {
    RenderThree(Chunk("", 2), Chunk("-", 2), Chunk("-", 2), Abs(m.year) % 100, m.month, m.day);
  }

  /** ` HH:MM:SS.mmm`, the clock half of the verbose layout, written out. */
  lemma VerboseClockSpelled(m: Moment)
    requires ValidMoment(m)
    ensures Render(VerboseClockChunks, ClockFields(m))
         == (" " + Pad(m.hour, 2))
            + ((":" + Pad(m.minute, 2)) + ((":" + Pad(m.second, 2)) + ("." + Pad(m.nanosecond / 1_000_000, 3))))
  {
    var c4, c6 := Chunk(":", 2), Chunk(".", 3);
    var ms := m.nanosecond / 1_000_000;
    RenderThree(c4, c4, c6, m.minute, m.second, ms);
    RenderCons(Chunk(" ", 2), [c4, c4, c6], m.hour, [m.minute, m.second, ms]);
  }

  /** The date of the timetable test document. */
  lemma TestDayText(m: Moment)
    requires ValidMoment(m) && m.year == 2021 && m.month == 12 && m.day == 28
    ensures DatePart(m) == "211228"
  {
    DateSpelled(m);
    TestDayDigits(Abs(m.year) % 100, m.month, m.day);
  }

  lemma TestDayDigits(y: nat, mo: nat, d: nat)
    requires y == 21 && mo == 12 && d == 28
    ensures Pad(y, 2) + (Pad(mo, 2) + Pad(d, 2)) == "211228"
  {
    Pad2(y); Pad2(mo); Pad2(d);
  }

  /** Any time of day on 28 December 2021, the date of the timetable test
      document, in the compact layout. */
  lemma CompactOnTestDay(hour: nat, minute: nat)
    requires hour < 24 && minute < 60
    ensures ParseCompact("211228" + (Pad(hour, 2) + Pad(minute, 2)))
         == Success(At(Moment(2021, 12, 28, hour, minute, 0, 0)))
  {
    var m := Moment(2021, 12, 28, hour, minute, 0, 0);
    TestDayText(m);
    CompactSpelled(m);
    CompactRoundTrip(m);
  }

  /** A compact value on 28 December 2021, given as ten characters. */
  lemma CompactOnTestDayAt(s: string, hour: nat, minute: nat)
    requires hour < 24 && minute < 60 && |s| == 10
    requires s[..6] == "211228"
    requires s[6] == DigitChar(hour / 10) && s[7] == DigitChar(hour % 10)
    requires s[8] == DigitChar(minute / 10) && s[9] == DigitChar(minute % 10)
    ensures ParseCompact(s) == Success(At(Moment(2021, 12, 28, hour, minute, 0, 0)))
  {
    Pad2(hour); Pad2(minute);
    var t := "211228" + (Pad(hour, 2) + Pad(minute, 2));
    assert |t| == 10;
    assert forall k :: 0 <= k < 6 ==> s[k] == s[..6][k] == t[k];
    assert forall k :: 6 <= k < 10 ==> s[k] == t[k];
    assert s == t;
    CompactOnTestDay(hour, minute);
  }

  /** The compact values of the timetable test document: `2112282139` is
      21:39 on 28 December 2021, and so on. */
  lemma CompactExamples()
    ensures ParseCompact("2112282139") == Success(At(Moment(2021, 12, 28, 21, 39, 0, 0)))
    ensures ParseCompact("2112282140") == Success(At(Moment(2021, 12, 28, 21, 40, 0, 0)))
    ensures ParseCompact("2112282132") == Success(At(Moment(2021, 12, 28, 21, 32, 0, 0)))
    ensures ParseCompact("2112282133") == Success(At(Moment(2021, 12, 28, 21, 33, 0, 0)))
  {
    CompactOnTestDayAt("2112282139", 21, 39);
    CompactOnTestDayAt("2112282140", 21, 40);
    CompactOnTestDayAt("2112282132", 21, 32);
    CompactOnTestDayAt("2112282133", 21, 33);
  }

  /** Two compact moments with the same rendering are the same moment. */
  lemma CompactInjective(m1: Moment, m2: Moment)
    requires CompactMoment(m1) && CompactMoment(m2) && FormatCompact(m1) == FormatCompact(m2)
    ensures m1 == m2
  {
    CompactRoundTrip(m1);
    CompactRoundTrip(m2);
  }

  /** Two verbose moments with the same rendering are the same moment. */
  lemma VerboseInjective(m1: Moment, m2: Moment)
    requires VerboseMoment(m1) && VerboseMoment(m2) && FormatVerbose(m1) == FormatVerbose(m2)
    ensures m1 == m2
  {
    VerboseRoundTrip(m1);
    VerboseRoundTrip(m2);
  }

  /** The moment of the station test document. */
  const StationExampleMoment := Moment(2021, 12, 22, 11, 46, 29, 268_000_000)

  lemma StationExampleDateDigits(y: nat, mo: nat, d: nat)
    requires y == 21 && mo == 12 && d == 22
    ensures Pad(y, 2) + (("-" + Pad(mo, 2)) + ("-" + Pad(d, 2))) == "21-12-22"
  {
    Pad2(y); Pad2(mo); Pad2(d);
  }

  lemma StationExampleClockDigits(h: nat, mi: nat, sec: nat, ms: nat)
    requires h == 11 && mi == 46 && sec == 29 && ms == 268
    ensures (" " + Pad(h, 2)) + ((":" + Pad(mi, 2)) + ((":" + Pad(sec, 2)) + ("." + Pad(ms, 3))))
         == " 11:46:29.268"
  {
    Pad2(h); Pad2(mi); Pad2(sec); Pad3(ms);
  }

  lemma StationExampleDate(m: Moment)
    requires ValidMoment(m) && m.year == 2021 && m.month == 12 && m.day == 22
    ensures Render(VerboseDateChunks, DateFields(m)) == "21-12-22"
  {
    VerboseDateSpelled(m);
    StationExampleDateDigits(Abs(m.year) % 100, m.month, m.day);
  }

  lemma StationExampleClock(m: Moment)
    requires ValidMoment(m) && m.hour == 11 && m.minute == 46 && m.second == 29
    requires m.nanosecond == 268_000_000
    ensures Render(VerboseClockChunks, ClockFields(m)) == " 11:46:29.268"
  {
    VerboseClockSpelled(m);
    StationExampleClockDigits(m.hour, m.minute, m.second, m.nanosecond / 1_000_000);
  }

  lemma StationExampleText(m: Moment)
    requires ValidMoment(m) && m.year == 2021 && m.month == 12 && m.day == 22
    requires m.hour == 11 && m.minute == 46 && m.second == 29 && m.nanosecond == 268_000_000
    ensures FormatVerbose(m) == "21-12-22 11:46:29.268"
  {
    StationExampleDate(m);
    StationExampleClock(m);
    VerboseHalves(m);
  }

  /** The verbose value of the station test document: 11:46:29.268 on
      22 December 2021. */
  lemma VerboseExample()
    ensures ParseVerbose("21-12-22 11:46:29.268") == Success(At(StationExampleMoment))
  {
    var m := StationExampleMoment;
    StationExampleText(m);
    VerboseRoundTrip(m);
  }

  /** The date half of a verbose timestamp has eight characters, the month
      at positions 3 and 4. */
  lemma VerboseDateMonthAt(m: Moment)
    requires ValidMoment(m)
    ensures |Render(VerboseDateChunks, DateFields(m))| == 8
    ensures Render(VerboseDateChunks, DateFields(m))[3..5] == Pad(m.month, 2)
  {
    VerboseDateSpelled(m);
    PadValue(Abs(m.year) % 100, 2); PadValue(m.month, 2); PadValue(m.day, 2);
    SecondField(Pad(Abs(m.year) % 100, 2), "-", Pad(m.month, 2), "-" + Pad(m.day, 2));
  }

  /** In `a + ((sep + b) + rest)` with a two-character `a` and a
      one-character `sep`, `b` starts at position 3. */
  lemma SecondField(a: string, sep: string, b: string, rest: string)
    requires |a| == 2 && |sep| == 1 && |b| == 2
    ensures |a + ((sep + b) + rest)| == 5 + |rest|
    ensures (a + ((sep + b) + rest))[3..5] == b
  {
    var s := a + ((sep + b) + rest);
    assert forall k :: 0 <= k < 2 ==> s[3 + k] == b[k];
  }

  /** Characters 3 and 4 of a verbose timestamp are its month. */
  lemma VerboseMonthAt(m: Moment)
    requires ValidMoment(m)
    ensures |FormatVerbose(m)| >= 8 && FormatVerbose(m)[3..5] == Pad(m.month, 2)
  {
    VerboseHalves(m);
    VerboseDateMonthAt(m);
  }

  /** Month 13 is out of range, so the verbose parser rejects it. */
  lemma VerboseRejectsMonth13()
    ensures ParseVerbose("21-13-22 11:46:29.268").Failure?
  {
    var s := "21-13-22 11:46:29.268";
    var r := ParseVerbose(s);
    if r.Success? {
      assert s[3..5] == "13" && Value("13") == 13;
      VerboseMonthAt(r.value.moment);
      PadValue(r.value.moment.month, 2);
      assert false;
    }
  }
}
