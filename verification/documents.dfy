/** Whole documents: the element a station record is written as, and its
    decoding back; the two documents of the repository's unit tests
    (model_test.go), decoded. */
module Documents {
  import opened Wrappers
  import opened Timestamps
  import opened Xml
  import opened Schema
  import opened Decode

  // ---- Writing a station --------------------------------------------------

  /** The timestamps the verbose layout can write and read back. */
  predicate VerboseStamp(t: Stamp) {
    t.At? ==> VerboseMoment(t.moment)
  }

  /** The stations whose timestamps the verbose layout can express. */
  predicate Writable(st: Station) {
    VerboseStamp(st.creation) && VerboseStamp(st.updates)
  }

  /** Text written as an attribute. Empty text is left out: an absent
      attribute decodes to the same empty string. */
  function TextValue(v: string): Option<string> {
    if v == "" then None else Some(v)
  }

  function FlagValue(v: Option<bool>): Option<string> {
    match v
    case None => None
    case Some(f) => Some(if f then "true" else "false")
  }

  function VerboseValue(t: Stamp): Option<string>
    requires VerboseStamp(t)
  {
    match t
    case Unset => None
    case At(m) => Some(FormatVerbose(m))
  }

  const StationKeys: set<string> := {"p", "meta", "name", "eva", "ds100", "db", "creationts", "updatets"}

  /** The text written for attribute `key` of `st`, if any. */
  function StationValue(st: Station, key: string): Option<string>
    requires Writable(st)
  {
    if key == "p" then TextValue(st.platforms)
    else if key == "meta" then TextValue(st.meta)
    else if key == "name" then TextValue(st.name)
    else if key == "eva" then TextValue(st.evaNumber)
    else if key == "ds100" then TextValue(st.ds100)
    else if key == "db" then FlagValue(st.db)
    else if key == "creationts" then VerboseValue(st.creation)
    else if key == "updatets" then VerboseValue(st.updates)
    else None
  }

  function StationAttrs(st: Station): Attrs
    requires Writable(st)
  {
    map key | key in StationKeys && StationValue(st, key).Some? :: StationValue(st, key).value
  }

  /** A `<station>` element carrying the fields of `st`. */
  function StationElement(st: Station): Element
    requires Writable(st)
  {
    Element("station", StationAttrs(st), [])
  }

  function StationElements(sts: seq<Station>): (es: seq<Element>)
    requires forall k :: 0 <= k < |sts| ==> Writable(sts[k])
    ensures |es| == |sts|
  {
    if sts == [] then [] else [StationElement(sts[0])] + StationElements(sts[1..])
  }

  /** A `<stations>` document listing `sts`, in order. */
  function StationsElement(sts: seq<Station>): Element
    requires forall k :: 0 <= k < |sts| ==> Writable(sts[k])
  {
    Element("stations", map[], StationElements(sts))
  }

  /** The attributes written for a station are all accepted. */
  lemma WrittenStationOk(sx: Scalars, st: Station)
    requires Sound(sx) && Writable(st)
    ensures StationOk(sx, StationAttrs(st))
  {
    var a := StationAttrs(st);
    assert "db" in a ==> a["db"] == FlagValue(st.db).value;
    if st.creation.At? {
      assert a["creationts"] == FormatVerbose(st.creation.moment);
      VerboseRoundTrip(st.creation.moment);
    }
    if st.updates.At? {
      assert a["updatets"] == FormatVerbose(st.updates.moment);
      VerboseRoundTrip(st.updates.moment);
    }
  }

  /** The text fields of a station bind back from its attributes. */
  lemma WrittenStationText(st: Station, v: Station)
    requires Writable(st)
    requires var a := StationAttrs(st);
      && TextBound(a, "p", "", v.platforms) && TextBound(a, "meta", "", v.meta)
      && TextBound(a, "name", "", v.name) && TextBound(a, "eva", "", v.evaNumber)
      && TextBound(a, "ds100", "", v.ds100)
    ensures v.platforms == st.platforms && v.meta == st.meta && v.name == st.name
    ensures v.evaNumber == st.evaNumber && v.ds100 == st.ds100
  {
    var a := StationAttrs(st);
    assert "p" in a <==> st.platforms != "";
    assert "meta" in a <==> st.meta != "";
    assert "name" in a <==> st.name != "";
    assert "eva" in a <==> st.evaNumber != "";
    assert "ds100" in a <==> st.ds100 != "";
  }

  /** The flag and the timestamps of a station bind back from its attributes. */
  lemma WrittenStationRest(sx: Scalars, st: Station, v: Station)
    requires Sound(sx) && Writable(st)
    requires var a := StationAttrs(st);
      && OptFlagBound(sx, a, "db", None, v.db)
      && VerboseBound(a, "creationts", Unset, v.creation)
      && VerboseBound(a, "updatets", Unset, v.updates)
    ensures v.db == st.db && v.creation == st.creation && v.updates == st.updates
  {
    var a := StationAttrs(st);
    assert "db" in a <==> st.db.Some?;
    assert "db" in a ==> a["db"] == FlagValue(st.db).value;
    assert "creationts" in a <==> st.creation.At?;
    assert "updatets" in a <==> st.updates.At?;
    if st.creation.At? {
      assert a["creationts"] == FormatVerbose(st.creation.moment);
      VerboseInjective(v.creation.moment, st.creation.moment);
    }
    if st.updates.At? {
      assert a["updatets"] == FormatVerbose(st.updates.moment);
      VerboseInjective(v.updates.moment, st.updates.moment);
    }
  }

  /** A station element decodes to the station it was written from. */
  lemma StationRoundTrip(cfg: Config, st: Station)
    requires Sound(cfg.scalars) && Writable(st)
    ensures NewStation(cfg, StationElement(st)) == Success(st)
  {
    WrittenStationOk(cfg.scalars, st);
    var v := NewStation(cfg, StationElement(st)).value;
    WrittenStationText(st, v);
    WrittenStationRest(cfg.scalars, st, v);
  }

  lemma {:induction false} StationElementsTagged(sts: seq<Station>)
    requires forall k :: 0 <= k < |sts| ==> Writable(sts[k])
    ensures Tagged("station", StationElements(sts)) == StationElements(sts)
    ensures forall k :: 0 <= k < |sts| ==> StationElements(sts)[k] == StationElement(sts[k])
  {
    if sts != [] {
      StationElementsTagged(sts[1..]);
      var es := StationElements(sts);
      assert es[1..] == StationElements(sts[1..]);
      forall k | 1 <= k < |sts| ensures es[k] == StationElement(sts[k]) {
        assert es[k] == es[1..][k - 1];
      }
    }
  }

  /** A stations document decodes to the list it was written from. */
  lemma StationsRoundTrip(cfg: Config, sts: seq<Station>)
    requires Sound(cfg.scalars)
    requires forall k :: 0 <= k < |sts| ==> Writable(sts[k])
    ensures DecodeStations(cfg, StationsElement(sts)) == Success(Stations(sts))
  {
    var es := StationElements(sts);
    StationElementsTagged(sts);
    forall k | 0 <= k < |sts| ensures NewStation(cfg, es[k]) == Success(sts[k]) {
      StationRoundTrip(cfg, sts[k]);
    }
    var r := DecodeStations(cfg, StationsElement(sts));
    assert AllDecode(NewStation, cfg, es);
    var got := r.value.stations;
    assert DecodesTo(NewStation, cfg, es, got);
    forall k | 0 <= k < |sts| ensures got[k] == sts[k] {
      assert NewStation(cfg, es[k]) == Success(got[k]);
    }
    assert got == sts;
  }

  /** What a decoded station holds: an absent timestamp stays unset and a
      present one never is; an absent `db` flag is `None`, never `false`,
      and `"true"` is `Some(true)`; the text attributes, the pipe-separated
      lists and the EVA number among them, are kept verbatim. */
  lemma StationFields(cfg: Config, e: Element, st: Station)
    requires NewStation(cfg, e) == Success(st)
    ensures st.creation.IsZero() <==> "creationts" !in e.attrs
    ensures st.updates.IsZero() <==> "updatets" !in e.attrs
    ensures st.db.None? <==> "db" !in e.attrs
    ensures Sound(cfg.scalars) && "db" in e.attrs && e.attrs["db"] == "true" ==> st.db == Some(true)
    ensures st.platforms == (if "p" in e.attrs then e.attrs["p"] else "")
    ensures st.meta == (if "meta" in e.attrs then e.attrs["meta"] else "")
    ensures st.evaNumber == (if "eva" in e.attrs then e.attrs["eva"] else "")
  {
    assert StationBound(cfg.scalars, e.attrs, ZeroStation, st);
  }

  // ---- The station test document -----------------------------------------

  /** `<stations><station p="1|2|3|4|5" name="Köln Airport-Businesspark"
      eva="8003370" ds100="KBP" db="true" creationts="21-12-22 11:46:29.268"/></stations>` */
  function StationTestDocument(): Element {
    Element("stations", map[], [
      Element("station", map[
        "p" := "1|2|3|4|5", "name" := "Köln Airport-Businesspark", "eva" := "8003370",
        "ds100" := "KBP", "db" := "true", "creationts" := "21-12-22 11:46:29.268"], [])])
  }

  /** The station test document decodes to one station with the listed
      fields, created at 11:46:29.268 on 22 December 2021 and never updated. */
  lemma StationTestDecodes(cfg: Config)
    requires Sound(cfg.scalars)
    ensures DecodeStations(cfg, StationTestDocument()) == Success(Stations([
      Station("1|2|3|4|5", "", "Köln Airport-Businesspark", "8003370", "KBP", Some(true),
              At(StationExampleMoment), Unset)]))
  {
    var doc := StationTestDocument();
    var e := doc.children[0];
    assert doc.children == [e];
    assert Tagged("station", doc.children) == [e];
    VerboseExample();
    var r := DecodeStations(cfg, doc);
    assert NewStation(cfg, e).Success?;
    var v := r.value.stations[0];
    assert NewStation(cfg, e) == Success(v);
    VerboseRoundTrip(v.creation.moment);
  }

  // ---- The timetable test document ----------------------------------------

  /** An `<ar>` or `<dp>` element giving the planned time, platform, line
      and path. */
  function PlannedEventElement(name: string, pt: string, pp: string, l: string, ppth: string): Element {
    Element(name, map["pt" := pt, "pp" := pp, "l" := l, "ppth" := ppth], [])
  }

  /** The event such an element describes. */
  function PlannedEvent(t: Stamp, pp: string, l: string, ppth: string): Event {
    ZeroEvent.(plannedTime := t, plannedPlatform := pp, line := l, plannedPath := ppth)
  }

  /** A planned event element decodes to its event, under either binding. */
  lemma PlannedEventDecodes(cfg: Config, name: string, pt: string, pp: string, l: string, ppth: string)
    requires ParseCompact(pt).Success?
    ensures EventFrom(cfg, ZeroEvent, PlannedEventElement(name, pt, pp, l, ppth))
         == Success(PlannedEvent(ParseCompact(pt).value, pp, l, ppth))
  {
    var e := PlannedEventElement(name, pt, pp, l, ppth);
    var t := ParseCompact(pt).value;
    assert EventOk(cfg.binding, cfg.scalars, e.attrs);
    assert Tagged("m", e.children) == [];
    var v := EventFrom(cfg, ZeroEvent, e).value;
    assert EventBound(cfg.scalars, e.attrs, ZeroEvent, v);
    CompactInjective(v.plannedTime.moment, t.moment);
    assert v.messages == [];
  }

  /** A stop with a label, an arrival and a departure. */
  function PlannedStop(id: string, tl: TripLabel, arrival: Event, departure: Event): TimetableStop {
    ZeroStop.(id := id, tripLabel := tl, arrival := arrival, departure := departure)
  }

  /** The children of a planned stop, by name. */
  lemma PlannedTags(tl: Element, ar: Element, dp: Element)
    requires tl.name == "tl" && ar.name == "ar" && dp.name == "dp"
    ensures Tagged("tl", [tl, ar, dp]) == [tl]
    ensures Tagged("ar", [tl, ar, dp]) == [ar]
    ensures Tagged("dp", [tl, ar, dp]) == [dp]
  {
    assert [dp][1..] == [];
    assert [ar, dp][1..] == [dp];
    assert [tl, ar, dp][1..] == [ar, dp];
    assert Tagged("tl", [dp]) == [] && Tagged("ar", [dp]) == [] && Tagged("dp", [dp]) == [dp];
    assert Tagged("tl", [ar, dp]) == [] && Tagged("ar", [ar, dp]) == [ar] && Tagged("dp", [ar, dp]) == [dp];
  }

  /** A planned stop has no child of any other name. */
  lemma UntaggedInPlannedStop(tag: string, tl: Element, ar: Element, dp: Element)
    requires tl.name == "tl" && ar.name == "ar" && dp.name == "dp"
    requires tag != "tl" && tag != "ar" && tag != "dp"
    ensures Tagged(tag, [tl, ar, dp]) == []
  {
    assert [dp][1..] == [];
    assert Tagged(tag, [dp]) == [];
    assert [ar, dp][1..] == [dp];
    assert Tagged(tag, [ar, dp]) == [];
    assert [tl, ar, dp][1..] == [ar, dp];
  }

  /** The `<s>` element of a planned stop. */
  function PlannedStopElement(id: string, tl: Element, ar: Element, dp: Element): Element {
    Element("s", map["id" := id], [tl, ar, dp])
  }

  lemma PlannedStopSucceeds(cfg: Config, id: string, tl: Element, ar: Element, dp: Element)
    requires tl.name == "tl" && ar.name == "ar" && dp.name == "dp"
    requires EventFrom(cfg, ZeroEvent, ar).Success? && EventFrom(cfg, ZeroEvent, dp).Success?
    ensures NewStop(cfg, PlannedStopElement(id, tl, ar, dp)).Success?
  {
    var e := PlannedStopElement(id, tl, ar, dp);
    assert "eva" !in e.attrs;
    forall k | 0 <= k < |e.children| ensures StopChildDecodes(cfg, e.children[k]) {
      assert e.children[k] == tl || e.children[k] == ar || e.children[k] == dp;
    }
  }

  lemma PlannedStopRecords(cfg: Config, id: string, tl: Element, ar: Element, dp: Element, v: TimetableStop)
    requires tl.name == "tl" && ar.name == "ar" && dp.name == "dp"
    requires NewStop(cfg, PlannedStopElement(id, tl, ar, dp)) == Success(v)
    ensures v.id == id && v.evaNumber == 0
    ensures v.tripLabel == BindTripLabel(ZeroTripLabel, tl.attrs)
    ensures EventFrom(cfg, ZeroEvent, ar) == Success(v.arrival) && EventFrom(cfg, ZeroEvent, dp) == Success(v.departure)
    ensures v.tripReference == ZeroTripReference && v.message == ZeroMessage
  {
    var cs := [tl, ar, dp];
    assert StopRecordsBound(cfg, ZeroStop.(id := id), cs, v);
    PlannedTags(tl, ar, dp);
    UntaggedInPlannedStop("ref", tl, ar, dp);
    UntaggedInPlannedStop("m", tl, ar, dp);
    MergeOne(TripLabelFrom, cfg, ZeroTripLabel, tl);
    MergeOne(EventFrom, cfg, ZeroEvent, ar);
    MergeOne(EventFrom, cfg, ZeroEvent, dp);
  }

  lemma PlannedStopLists(cfg: Config, id: string, tl: Element, ar: Element, dp: Element, v: TimetableStop)
    requires tl.name == "tl" && ar.name == "ar" && dp.name == "dp"
    requires NewStop(cfg, PlannedStopElement(id, tl, ar, dp)) == Success(v)
    ensures v.historicDelays == [] && v.historicPlatformChanges == [] && v.referenceTripRelations == []
    ensures v.connections == []
  {
    var cs := [tl, ar, dp];
    assert StopListsBound(cfg, ZeroStop.(id := id), cs, v);
    assert StopConnectionsBound(cfg, ZeroStop.(id := id), cs, v);
    UntaggedInPlannedStop("hd", tl, ar, dp);
    UntaggedInPlannedStop("hpc", tl, ar, dp);
    UntaggedInPlannedStop("rtr", tl, ar, dp);
    UntaggedInPlannedStop("conn", tl, ar, dp);
    NoConnections(cfg, cs);
  }

  /** An `<s>` element with a `tl`, an `ar` and a `dp` child decodes to the
      stop holding the three. */
  lemma PlannedStopDecodes(cfg: Config, id: string, tl: Element, ar: Element, dp: Element)
    requires tl.name == "tl" && ar.name == "ar" && dp.name == "dp"
    requires EventFrom(cfg, ZeroEvent, ar).Success? && EventFrom(cfg, ZeroEvent, dp).Success?
    ensures NewStop(cfg, PlannedStopElement(id, tl, ar, dp))
         == Success(PlannedStop(id, BindTripLabel(ZeroTripLabel, tl.attrs),
                                EventFrom(cfg, ZeroEvent, ar).value, EventFrom(cfg, ZeroEvent, dp).value))
  {
    PlannedStopSucceeds(cfg, id, tl, ar, dp);
    var v := NewStop(cfg, PlannedStopElement(id, tl, ar, dp)).value;
    PlannedStopRecords(cfg, id, tl, ar, dp, v);
    PlannedStopLists(cfg, id, tl, ar, dp, v);
  }

  function TestLabel(number: string): Element {
    Element("tl", map["f" := "S", "t" := "p", "o" := "08", "c" := "S", "n" := number], [])
  }

  /** The trip label of the test document's stops. */
  function TestTripLabel(number: string): TripLabel {
    TripLabel("S", "p", "08", number, "S")
  }

  lemma TestLabelBinds(number: string)
    ensures BindTripLabel(ZeroTripLabel, TestLabel(number).attrs) == TestTripLabel(number)
  {
  }

  /** A stop of the timetable test document: label, arrival and departure,
      both at platform 4. */
  function TestStop(id: string, number: string, line: string, arrival: string, departure: string,
                    arrivalPath: string, departurePath: string): Element {
    PlannedStopElement(id, TestLabel(number), PlannedEventElement("ar", arrival, "4", line, arrivalPath),
                       PlannedEventElement("dp", departure, "4", line, departurePath))
  }

  lemma TestStopDecodes(cfg: Config, id: string, number: string, line: string, arrival: string,
                        departure: string, arrivalPath: string, departurePath: string)
    requires ParseCompact(arrival).Success? && ParseCompact(departure).Success?
    ensures NewStop(cfg, TestStop(id, number, line, arrival, departure, arrivalPath, departurePath))
         == Success(PlannedStop(id, TestTripLabel(number),
                                PlannedEvent(ParseCompact(arrival).value, "4", line, arrivalPath),
                                PlannedEvent(ParseCompact(departure).value, "4", line, departurePath)))
  {
    PlannedEventDecodes(cfg, "ar", arrival, "4", line, arrivalPath);
    PlannedEventDecodes(cfg, "dp", departure, "4", line, departurePath);
    TestLabelBinds(number);
    PlannedStopDecodes(cfg, id, TestLabel(number), PlannedEventElement("ar", arrival, "4", line, arrivalPath),
                       PlannedEventElement("dp", departure, "4", line, departurePath));
  }

  /** The timetable test document, its four planned paths left as
      parameters (they are long lists of station names, which no property
      here depends on). */
  function TimetableTestDocument(path1: string, path2: string, path3: string, path4: string): Element {
    Element("timetable", map["station" := "Berlin Alexanderplatz (S)"], [
      TestStop("-8834013167311099628-2112282111-14", "7144", "7", "2112282139", "2112282140", path1, path2),
      TestStop("-426624563964702035-2112282049-15", "9132", "9", "2112282132", "2112282133", path3, path4)])
  }

  /** 28 December 2021 at the given time. */
  function TestDay(hour: nat, minute: nat): Stamp {
    At(Moment(2021, 12, 28, hour, minute, 0, 0))
  }

  lemma StopsOnly(s1: Element, s2: Element)
    requires s1.name == "s" && s2.name == "s"
    ensures Tagged("s", [s1, s2]) == [s1, s2] && Tagged("m", [s1, s2]) == []
  {
    assert [s1, s2][1..] == [s2];
  }

  /** A document of two stops decodes to their two records. */
  lemma TwoStops(cfg: Config, station: string, s1: Element, s2: Element, v1: TimetableStop, v2: TimetableStop)
    requires s1.name == "s" && s2.name == "s"
    requires NewStop(cfg, s1) == Success(v1) && NewStop(cfg, s2) == Success(v2)
    ensures DecodeTimetable(cfg, Element("timetable", map["station" := station], [s1, s2]))
         == Success(Timetable(station, 0, [v1, v2], []))
  {
    var doc := Element("timetable", map["station" := station], [s1, s2]);
    StopsOnly(s1, s2);
    var r := DecodeTimetable(cfg, doc);
    assert r.Success?;
    var stops := r.value.stops;
    assert DecodesTo(NewStop, cfg, [s1, s2], stops);
    assert NewStop(cfg, s1) == Success(stops[0]);
    assert NewStop(cfg, s2) == Success(stops[1]);
    assert stops == [v1, v2];
  }

  /** The timetable test document decodes, under either binding, to the
      station's two stops; the first arrives at 21:39 on 28 December 2021. */
  lemma TimetableTestDecodes(cfg: Config, path1: string, path2: string, path3: string, path4: string)
    ensures DecodeTimetable(cfg, TimetableTestDocument(path1, path2, path3, path4))
         == Success(Timetable("Berlin Alexanderplatz (S)", 0, [
              PlannedStop("-8834013167311099628-2112282111-14", TestTripLabel("7144"),
                          PlannedEvent(TestDay(21, 39), "4", "7", path1),
                          PlannedEvent(TestDay(21, 40), "4", "7", path2)),
              PlannedStop("-426624563964702035-2112282049-15", TestTripLabel("9132"),
                          PlannedEvent(TestDay(21, 32), "4", "9", path3),
                          PlannedEvent(TestDay(21, 33), "4", "9", path4))], []))
    ensures DecodeTimetable(cfg, TimetableTestDocument(path1, path2, path3, path4))
              .value.stops[0].arrival.plannedTime.moment.year == 2021
  {
    CompactExamples();
    TestStopDecodes(cfg, "-8834013167311099628-2112282111-14", "7144", "7", "2112282139", "2112282140", path1, path2);
    TestStopDecodes(cfg, "-426624563964702035-2112282049-15", "9132", "9", "2112282132", "2112282133", path3, path4);
    TwoStops(cfg, "Berlin Alexanderplatz (S)",
             TestStop("-8834013167311099628-2112282111-14", "7144", "7", "2112282139", "2112282140", path1, path2),
             TestStop("-426624563964702035-2112282049-15", "9132", "9", "2112282132", "2112282133", path3, path4),
             PlannedStop("-8834013167311099628-2112282111-14", TestTripLabel("7144"),
                         PlannedEvent(TestDay(21, 39), "4", "7", path1),
                         PlannedEvent(TestDay(21, 40), "4", "7", path2)),
             PlannedStop("-426624563964702035-2112282049-15", TestTripLabel("9132"),
                         PlannedEvent(TestDay(21, 32), "4", "9", path3),
                         PlannedEvent(TestDay(21, 33), "4", "9", path4)));
  }

  // ---- Reading one stop ---------------------------------------------------

  /** Merging a single element is unmarshalling it. */
  lemma MergeOne<T>(from: (Config, T, Element) -> Result<T, DecodeError>, cfg: Config, prev: T, e: Element)
    ensures Merge(from, cfg, prev, [e]) == from(cfg, prev, e)
  {
    assert [e][1..] == [];
  }

  /** The arrival time of a decoded stop with a single `ar` child that sets
      `pt` is that attribute read in the compact layout. */
  lemma ArrivalTimeOfStop(cfg: Config, e: Element, st: TimetableStop, ar: Element)
    requires NewStop(cfg, e) == Success(st)
    requires Tagged("ar", e.children) == [ar] && "pt" in ar.attrs
    ensures ParseCompact(ar.attrs["pt"]) == Success(st.arrival.plannedTime)
  {
    MergeOne(EventFrom, cfg, ZeroEvent, ar);
    var v := st.arrival;
    assert CompactBound(ar.attrs, "pt", ZeroEvent.plannedTime, v.plannedTime);
    CompactRoundTrip(v.plannedTime.moment);
  }
}
