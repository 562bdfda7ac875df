/** The element tree the decoder starts from, and the records of the
    timetable service's schema (model.go:38-237), each with the zero value Go
    gives a field the document never mentions. */
module Xml {

  /** One element of an already-lexed XML document: its local name, its
      attributes (each name at most once, as XML demands) and its child
      elements in document order. Text content is not kept: no record of the
      schema binds character data. */
  datatype Element = Element(name: string, attrs: map<string, string>, children: seq<Element>)

  /** The children of `cs` named `tag`, in document order. */
  function Tagged(tag: string, cs: seq<Element>): (r: seq<Element>)
    ensures |r| <= |cs|
    ensures forall k :: 0 <= k < |r| ==> r[k].name == tag && r[k] in cs
  {
    if cs == [] then []
    else if cs[0].name == tag then [cs[0]] + Tagged(tag, cs[1..])
    else Tagged(tag, cs[1..])
  }
}

module Schema {
  import opened Wrappers
  import opened Timestamps

  // The attribute types the source declares as empty structs
  // (model.go:195-225): they carry no data.
  datatype MessageType = MessageType
  datatype Priority = Priority
  datatype EventStatus = EventStatus
  datatype DelaySource = DelaySource
  datatype ConnectionStatus = ConnectionStatus
  datatype DistributorType = DistributorType
  datatype ReferenceTripRelationToStop = ReferenceTripRelationToStop

  /** A matched station (model.go:43-65). The platform list `p` and the
      meta-station list `meta` are pipe-delimited text kept verbatim; the EVA
      number is text too. */
  datatype Station = Station(
    platforms: string,
    meta: string,
    name: string,
    evaNumber: string,
    ds100: string,
    db: Option<bool>,
    creation: Stamp,
    updates: Stamp)

  /** The root of a station query (model.go:38-41). */
  datatype Stations = Stations(stations: seq<Station>)

  /** model.go:110-118. */
  datatype TripLabel = TripLabel(
    filterFlags: string,
    tripType: string,
    owner: string,
    tripOrTrainNumber: string,
    category: string)

  /** model.go:120-124. */
  datatype TripReference = TripReference(tripLabel: TripLabel, tripReferences: seq<TripLabel>)

  /** model.go:199-204. */
  datatype DistributorMessage = DistributorMessage(
    distributorType: DistributorType,
    name: string,
    internalText: string,
    timestamp: Stamp)

  /** model.go:90-108. */
  datatype Message = Message(
    id: string,
    messageType: MessageType,
    validFrom: Stamp,
    validTo: Stamp,
    code: int,
    internalText: string,
    externalText: string,
    category: string,
    externalCategory: string,
    timestamp: Stamp,
    priority: Priority,
    owner: string,
    externalLink: string,
    deleted: int,
    distributorMessages: seq<DistributorMessage>,
    tripLabels: seq<TripLabel>)

  /** An arrival or departure (model.go:126-159). Paths and wings are
      pipe-delimited text kept verbatim. */
  datatype Event = Event(
    plannedPath: string,
    changedPath: string,
    plannedPlatform: string,
    changedPlatform: string,
    plannedTime: Stamp,
    changedTime: Stamp,
    plannedStatus: EventStatus,
    changedStatus: EventStatus,
    hidden: int,
    cancellationTime: Stamp,
    wings: string,
    transitions: string,
    plannedDistantEndpoint: string,
    changedDistantEndpoint: string,
    distantChanged: int,
    line: string,
    messages: seq<Message>)

  /** model.go:165-171, without the embedded `HistoricChange` timestamp. */
  datatype HistoricDelay = HistoricDelay(
    arrivalEvent: Stamp,
    departureEvent: Stamp,
    source: DelaySource,
    description: string)

  /** model.go:173-179, without the embedded `HistoricChange` timestamp. */
  datatype HistoricPlatformChange = HistoricPlatformChange(
    arrivalPlatform: string,
    departurePlatform: string,
    description: string)

  /** model.go:227-230. */
  datatype ReferenceTripLabel = ReferenceTripLabel(tripTrainNumber: string, category: string)

  /** model.go:232-237. */
  datatype ReferenceTripStopLabel = ReferenceTripStopLabel(
    index: int,
    plannedTime: Stamp,
    evaNumber: int,
    name: string)

  /** model.go:215-221. */
  datatype ReferenceTrip = ReferenceTrip(
    id: string,
    cancellation: bool,
    referenceLabel: ReferenceTripLabel,
    startDeparture: ReferenceTripStopLabel,
    endArrival: ReferenceTripStopLabel)

  /** model.go:190-193. */
  datatype ReferenceTripRelation = ReferenceTripRelation(
    referenceTrip: ReferenceTrip,
    relationToStop: ReferenceTripRelationToStop)

  /** One stop of a timetable (model.go:75-88); it and `Connection` are
      mutually recursive. */
  datatype TimetableStop = TimetableStop(
    id: string,
    evaNumber: int,
    tripLabel: TripLabel,
    tripReference: TripReference,
    arrival: Event,
    departure: Event,
    message: Message,
    historicDelays: seq<HistoricDelay>,
    historicPlatformChanges: seq<HistoricPlatformChange>,
    connections: seq<Connection>,
    referenceTripRelations: seq<ReferenceTripRelation>)

  /** model.go:181-188. */
  datatype Connection = Connection(
    id: string,
    timestamp: Stamp,
    evaNumber: int,
    status: ConnectionStatus,
    stopOfMissedTrip: TimetableStop,
    timetableStop: TimetableStop)

  /** The root of an hourly plan (model.go:67-73). */
  datatype Timetable = Timetable(
    station: string,
    evaNumber: int,
    stops: seq<TimetableStop>,
    messages: seq<Message>)

  // Go's zero values: what a freshly declared record holds before decoding.

  const ZeroStation := Station("", "", "", "", "", None, Unset, Unset)

  const ZeroTripLabel := TripLabel("", "", "", "", "")

  const ZeroTripReference := TripReference(ZeroTripLabel, [])

  const ZeroDistributorMessage := DistributorMessage(DistributorType, "", "", Unset)

  const ZeroMessage :=
    Message("", MessageType, Unset, Unset, 0, "", "", "", "", Unset, Priority, "", "", 0, [], [])

  const ZeroEvent :=
    Event("", "", "", "", Unset, Unset, EventStatus, EventStatus, 0, Unset, "", "", "", "", 0, "", [])

  const ZeroHistoricDelay := HistoricDelay(Unset, Unset, DelaySource, "")

  const ZeroHistoricPlatformChange := HistoricPlatformChange("", "", "")

  const ZeroReferenceTripLabel := ReferenceTripLabel("", "")

  const ZeroReferenceTripStopLabel := ReferenceTripStopLabel(0, Unset, 0, "")

  const ZeroReferenceTrip :=
    ReferenceTrip("", false, ZeroReferenceTripLabel, ZeroReferenceTripStopLabel, ZeroReferenceTripStopLabel)

  const ZeroReferenceTripRelation :=
    ReferenceTripRelation(ZeroReferenceTrip, ReferenceTripRelationToStop)

  const ZeroStop :=
    TimetableStop("", 0, ZeroTripLabel, ZeroTripReference, ZeroEvent, ZeroEvent, ZeroMessage,
                  [], [], [], [])

  const ZeroConnection := Connection("", Unset, 0, ConnectionStatus, ZeroStop, ZeroStop)

  const ZeroTimetable := Timetable("", 0, [], [])
}
